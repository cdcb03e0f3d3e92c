/**
 Entry by entry and in the fields of the content table alone: under which catalogs, customers, academies and queries a
 batch files a course, a program or a pathway that was asked for.
 */
module FacetEntries {
  import opened Prelude
  import opened ObjectIds
  import opened ContentRefs
  import opened FacetTables
  import opened FacetLaws
  import opened IndexingMappings
  import opened BatchIndependence

  // ---------------------------------------------------------------- what the table says

  /** One of the key's own rows, or of its runs, counts under a query of this catalog. */
  ghost predicate OwnCatalog(s: Source, k: string, c: Catalog) {
    exists m, q :: FilesUnder(s.rows, s.flag, k, m, q, c)
  }

  ghost predicate OwnCatalogUuid(s: Source, k: string, u: string) {
    exists c :: OwnCatalog(s, k, c) && c.uuid == u
  }

  ghost predicate OwnQuery(s: Source, k: string, p: QueryTuple) {
    exists m, q :: Files(s.rows, s.flag, k, m, q) && (q.uuid, q.title) == p
  }

  ghost predicate TaughtIn(s: Source, program: string, course: Metadata) {
    course in s.rows && course.contentType.Course? && ContentRef(Program, program) in course.associated
  }

  /** The program has courses, all of them are indexable, and each is in the catalog. */
  ghost predicate SharedBy(s: Source, program: string, u: string) {
    && (exists c :: TaughtIn(s, program, c))
    && forall c | TaughtIn(s, program, c) :: c.key in s.indexableCourses && OwnCatalogUuid(s, c.key, u)
  }

  /** Filed under the entry by a row of its own, or by way of a catalog it shares. */
  ghost predicate HasCatalog(s: Source, k: string, shared: iset<string>, u: string) {
    OwnCatalogUuid(s, k, u) || u in shared
  }

  ghost predicate HasCustomer(s: Source, k: string, shared: iset<string>, e: string) {
    (exists c :: OwnCatalog(s, k, c) && c.customer == e) || exists u :: u in shared && s.world.customer(u) == e
  }

  ghost predicate HasAcademy(s: Source, k: string, shared: iset<string>, a: string) {
    (exists c :: OwnCatalog(s, k, c) && a in c.academies) || exists u :: u in shared && a in s.world.academies(u)
  }

  ghost predicate HasQuery(s: Source, k: string, shared: iset<string>, p: QueryTuple) {
    OwnQuery(s, k, p) || exists u :: u in shared && s.world.query(u) == p
  }

  ghost predicate FiledAndShared(s: Source, k: string, shared: iset<string>, f: Facets) {
    && (forall u :: u in f.catalogs <==> HasCatalog(s, k, shared, u))
    && (forall e :: e in f.customers <==> HasCustomer(s, k, shared, e))
    && (forall a :: a in f.academies <==> HasAcademy(s, k, shared, a))
    && (forall p :: p in f.queries <==> HasQuery(s, k, shared, p))
  }

  /** A program also shows the catalogs that all its courses are in. */
  ghost function SharedFor(s: Source, m: Metadata): iset<string> {
    iset u | m.contentType.Program? && SharedBy(s, m.key, u)
  }

  // ---------------------------------------------------------------- courses and programs

  lemma OwnEntries(s: Source, k: string)
    ensures FiledAndShared(s, k, iset{}, OwnFacets(s, k))
  {
    var f := OwnFacets(s, k);
    forall u
      ensures u in f.catalogs <==> OwnCatalogUuid(s, k, u)
      ensures u in f.customers <==> exists c :: OwnCatalog(s, k, c) && c.customer == u
      ensures u in f.academies <==> exists c :: OwnCatalog(s, k, c) && u in c.academies
    {
      OwnExactly(s, k, u, ("", None));
      OwnCatalogs(s, k, u);
    }
    forall p
      ensures p in f.queries <==> OwnQuery(s, k, p)
    {
      OwnExactly(s, k, "", p);
    }
  }

  lemma OwnCatalogs(s: Source, k: string, u: string)
    ensures OwnCatalogUuid(s, k, u) <==> exists m, q, c :: FilesUnder(s.rows, s.flag, k, m, q, c) && c.uuid == u
    ensures (exists c :: OwnCatalog(s, k, c) && c.customer == u)
            <==> exists m, q, c :: FilesUnder(s.rows, s.flag, k, m, q, c) && c.customer == u
    ensures (exists c :: OwnCatalog(s, k, c) && u in c.academies)
            <==> exists m, q, c :: FilesUnder(s.rows, s.flag, k, m, q, c) && u in c.academies
  {
    forall m, q, c | FilesUnder(s.rows, s.flag, k, m, q, c)
      ensures OwnCatalog(s, k, c)
    {
    }
  }

  lemma SharedExactly(s: Source, program: string, u: string)
    requires Coherent(s)
    ensures u in SharedCatalogs(s, program) <==> SharedBy(s, program, u)
  {
    forall c | TaughtIn(s, program, c)
      ensures c.key in CoursesOf(s.rows, program)
      ensures c.key in s.mappings.indexable <==> c.key in s.indexableCourses
      ensures u in OwnFacets(s, c.key).catalogs <==> OwnCatalogUuid(s, c.key, u)
    {
      OwnEntries(s, c.key);
    }
    forall k | k in CoursesOf(s.rows, program)
      ensures exists c :: TaughtIn(s, program, c) && c.key == k
    {
      var c :| c in s.rows && c.contentType.Course? && ContentRef(Program, program) in c.associated && c.key == k;
      assert TaughtIn(s, program, c);
    }
  }

  /** What sharing catalogs adds. */
  lemma SharingAdds(s: Source, k: string, f: Facets, catalogs: set<string>, shared: iset<string>)
    requires FiledAndShared(s, k, iset{}, f) && forall u :: u in catalogs <==> u in shared
    ensures FiledAndShared(s, k, shared, WithCatalogs(f, catalogs, s.world))
  {
  }

  lemma DeservedEntries(s: Source, m: Metadata)
    requires Coherent(s)
    ensures FiledAndShared(s, m.key, SharedFor(s, m), Deserved(s, m))
  {
    OwnEntries(s, m.key);
    if m.contentType.Program? {
      forall u: string
        ensures u in SharedCatalogs(s, m.key) <==> u in SharedFor(s, m)
      {
        SharedExactly(s, m.key, u);
      }
      SharingAdds(s, m.key, OwnFacets(s, m.key), SharedCatalogs(s, m.key), SharedFor(s, m));
    }
  }

  /** A course or program that was asked for is filed under exactly what the rows of the table say. */
  lemma RequestedEntries(s: Source, batch: set<string>, ms: seq<Metadata>, m: Metadata)
    requires Coherent(s) && LoadedFor(s, batch, ms)
    requires m in s.rows && m.key in batch && m.key in s.mappings.indexable && !m.contentType.LearnerPathway?
    ensures FiledAndShared(s, m.key, SharedFor(s, m), Result(s, ms, m.key))
  {
    RequestedGetsDeserved(s, batch, ms, m);
    DeservedEntries(s, m);
  }

  // ---------------------------------------------------------------- pathways

  ghost predicate MemberOf(s: Source, pathway: string, m: Metadata) {
    && m in s.rows && ContentRef(LearnerPathway, pathway) in m.associated
    && ((m.contentType.Course? && m.key in s.indexableCourses)
        || (m.contentType.Program? && m.key in s.indexablePrograms))
  }

  /** Asked for, or listed by a program or pathway that was. */
  ghost predicate TakesPart(batch: set<string>, m: Metadata) {
    || m.key in batch
    || exists r :: r in m.associated && (r.contentType.Program? || r.contentType.LearnerPathway?) && r.key in batch
  }

  /** A member program shares its catalogs in a batch in which all its courses take part. */
  ghost function SharedIn(s: Source, batch: set<string>, m: Metadata): iset<string> {
    iset u | m.contentType.Program? && SharedBy(s, m.key, u) && forall c | TaughtIn(s, m.key, c) :: TakesPart(batch, c)
  }

  ghost predicate NamesFiled(s: Source, batch: set<string>, pathway: string, f: Facets, u: string) {
    && (u in f.catalogs
        <==> HasCatalog(s, pathway, iset{}, u)
             || exists m :: MemberOf(s, pathway, m) && HasCatalog(s, m.key, SharedIn(s, batch, m), u))
    && (u in f.customers
        <==> HasCustomer(s, pathway, iset{}, u)
             || exists m :: MemberOf(s, pathway, m) && HasCustomer(s, m.key, SharedIn(s, batch, m), u))
    && (u in f.academies
        <==> HasAcademy(s, pathway, iset{}, u)
             || exists m :: MemberOf(s, pathway, m) && HasAcademy(s, m.key, SharedIn(s, batch, m), u))
  }

  ghost predicate QueryFiled(s: Source, batch: set<string>, pathway: string, f: Facets, p: QueryTuple) {
    p in f.queries
    <==> HasQuery(s, pathway, iset{}, p)
         || exists m :: MemberOf(s, pathway, m) && HasQuery(s, m.key, SharedIn(s, batch, m), p)
  }

  /** The facets of a pathway: its own entries, and those of its indexable members as this batch sees them. */
  ghost predicate PathwayFiled(s: Source, batch: set<string>, pathway: string, f: Facets) {
    && (forall u :: NamesFiled(s, batch, pathway, f, u))
    && (forall p :: QueryFiled(s, batch, pathway, f, p))
  }

  lemma MembersExactly(s: Source, pathway: string, m: Metadata)
    requires Coherent(s)
    ensures m in IndexableMembers(s, pathway) <==> MemberOf(s, pathway, m)
  {
    if m in IndexableMembers(s, pathway) {
      var n :| n in s.rows && (n.contentType.Course? || n.contentType.Program?)
        && ContentRef(LearnerPathway, pathway) in n.associated && n.key == m.key;
    }
  }

  lemma TakesPartExactly(s: Source, batch: set<string>, program: string)
    requires Coherent(s) && forall c | TaughtIn(s, program, c) :: c.key in s.indexableCourses
    ensures CoursesKept(s, batch, program) <==> forall c | TaughtIn(s, program, c) :: TakesPart(batch, c)
  {
    forall c | TaughtIn(s, program, c)
      ensures c.key in CoursesOf(s.rows, program)
      ensures IsKept(s, batch, c.key) <==> TakesPart(batch, c)
    {
      if TakesPart(batch, c) {
        assert c in Kept(s.rows, batch, s.mappings.indexable);
      }
    }
    forall k | k in CoursesOf(s.rows, program)
      ensures exists c :: TaughtIn(s, program, c) && c.key == k
    {
      var c :| c in s.rows && c.contentType.Course? && ContentRef(Program, program) in c.associated && c.key == k;
      assert TaughtIn(s, program, c);
    }
  }

  lemma SharedInBatch(s: Source, batch: set<string>, m: Metadata, u: string)
    requires Coherent(s)
    ensures u in SharedIn(s, batch, m) <==> u in SharedFor(s, m) && !MissesOut(s, batch, m)
  {
    if u in SharedFor(s, m) {
      TakesPartExactly(s, batch, m.key);
    }
  }

  lemma FoundEntries(s: Source, batch: set<string>, m: Metadata)
    requires Coherent(s)
    ensures FiledAndShared(s, m.key, SharedIn(s, batch, m), Found(s, batch, m))
  {
    forall u
      ensures u in SharedIn(s, batch, m) <==> u in SharedFor(s, m) && !MissesOut(s, batch, m)
    {
      SharedInBatch(s, batch, m, u);
    }
    if MissesOut(s, batch, m) {
      assert SharedIn(s, batch, m) == iset{};
      OwnEntries(s, m.key);
    } else {
      assert SharedIn(s, batch, m) == SharedFor(s, m);
      DeservedEntries(s, m);
    }
  }

  lemma FoundMember(s: Source, batch: set<string>, pathway: string, m: Metadata)
    requires Coherent(s) && MemberOf(s, pathway, m)
    ensures Found(s, batch, m) in MembersFound(s, batch, pathway)
    ensures FiledAndShared(s, m.key, SharedIn(s, batch, m), Found(s, batch, m))
  {
    MembersExactly(s, pathway, m);
    FoundEntries(s, batch, m);
  }

  lemma WhoseFound(s: Source, batch: set<string>, pathway: string, f: Facets) returns (m: Metadata)
    requires Coherent(s) && f in MembersFound(s, batch, pathway)
    ensures MemberOf(s, pathway, m) && FiledAndShared(s, m.key, SharedIn(s, batch, m), f)
  {
    m :| m in IndexableMembers(s, pathway) && f == Found(s, batch, m);
    MembersExactly(s, pathway, m);
    FoundEntries(s, batch, m);
  }

  lemma NamesFound(s: Source, batch: set<string>, pathway: string, u: string)
    requires Coherent(s)
    ensures u in CatalogsIn(MembersFound(s, batch, pathway))
            <==> exists m :: MemberOf(s, pathway, m) && HasCatalog(s, m.key, SharedIn(s, batch, m), u)
    ensures u in CustomersIn(MembersFound(s, batch, pathway))
            <==> exists m :: MemberOf(s, pathway, m) && HasCustomer(s, m.key, SharedIn(s, batch, m), u)
    ensures u in AcademiesIn(MembersFound(s, batch, pathway))
            <==> exists m :: MemberOf(s, pathway, m) && HasAcademy(s, m.key, SharedIn(s, batch, m), u)
  {
    var fs := MembersFound(s, batch, pathway);
    forall m | MemberOf(s, pathway, m)
      ensures Found(s, batch, m) in fs
      ensures FiledAndShared(s, m.key, SharedIn(s, batch, m), Found(s, batch, m))
    {
      FoundMember(s, batch, pathway, m);
    }
    forall f | f in fs
      ensures u in f.catalogs
              ==> exists m :: MemberOf(s, pathway, m) && HasCatalog(s, m.key, SharedIn(s, batch, m), u)
      ensures u in f.customers
              ==> exists m :: MemberOf(s, pathway, m) && HasCustomer(s, m.key, SharedIn(s, batch, m), u)
      ensures u in f.academies
              ==> exists m :: MemberOf(s, pathway, m) && HasAcademy(s, m.key, SharedIn(s, batch, m), u)
    {
      var m := WhoseFound(s, batch, pathway, f);
    }
  }

  lemma QueryFound(s: Source, batch: set<string>, pathway: string, p: QueryTuple)
    requires Coherent(s)
    ensures p in QueriesIn(MembersFound(s, batch, pathway))
            <==> exists m :: MemberOf(s, pathway, m) && HasQuery(s, m.key, SharedIn(s, batch, m), p)
  {
    var fs := MembersFound(s, batch, pathway);
    forall m | MemberOf(s, pathway, m)
      ensures Found(s, batch, m) in fs
      ensures FiledAndShared(s, m.key, SharedIn(s, batch, m), Found(s, batch, m))
    {
      FoundMember(s, batch, pathway, m);
    }
    forall f | f in fs && p in f.queries
      ensures exists m :: MemberOf(s, pathway, m) && HasQuery(s, m.key, SharedIn(s, batch, m), p)
    {
      var m := WhoseFound(s, batch, pathway, f);
    }
  }

  lemma PathwayNames(s: Source, batch: set<string>, pathway: string, u: string)
    requires Coherent(s)
    ensures NamesFiled(s, batch, pathway, Together(OwnFacets(s, pathway), MembersFound(s, batch, pathway)), u)
  {
    OwnEntries(s, pathway);
    NamesFound(s, batch, pathway, u);
  }

  lemma PathwayQuery(s: Source, batch: set<string>, pathway: string, p: QueryTuple)
    requires Coherent(s)
    ensures QueryFiled(s, batch, pathway, Together(OwnFacets(s, pathway), MembersFound(s, batch, pathway)), p)
  {
    OwnEntries(s, pathway);
    QueryFound(s, batch, pathway, p);
  }

  /** A pathway that was asked for is filed under exactly what the rows of the table say. */
  lemma PathwayEntries(s: Source, batch: set<string>, ms: seq<Metadata>, w: Metadata)
    requires Coherent(s) && LoadedFor(s, batch, ms)
    requires w in s.rows && w.contentType.LearnerPathway? && w.key in batch
    ensures PathwayFiled(s, batch, w.key, Result(s, ms, w.key))
  {
    var f := Together(OwnFacets(s, w.key), MembersFound(s, batch, w.key));
    PathwayResult(s, batch, ms, w);
    forall u: string
      ensures NamesFiled(s, batch, w.key, f, u)
    {
      PathwayNames(s, batch, w.key, u);
    }
    forall p: QueryTuple
      ensures QueryFiled(s, batch, w.key, f, p)
    {
      PathwayQuery(s, batch, w.key, p);
    }
  }

  // ---------------------------------------------------------------- the records a batch loads, and the mappings

  ghost predicate KeptRow(s: Source, batch: set<string>, m: Metadata) {
    && m in s.rows && (m.key in s.indexableCourses + s.indexablePrograms || m.contentType.LearnerPathway?)
    && (m.key in batch || (!m.contentType.LearnerPathway? && TakesPart(batch, m)))
  }

  lemma KeptExactly(s: Source, batch: set<string>, m: Metadata)
    requires Coherent(s)
    ensures m in Kept(s.rows, batch, s.mappings.indexable) <==> KeptRow(s, batch, m)
  {
    if m in s.rows && m.key in KeysOf(s.rows, LearnerPathway) {
      var n :| n in s.rows && n.contentType == LearnerPathway && n.key == m.key;
    }
  }

  /** A batch loads the indexable rows asked for or listed by what was asked for, and the runs under them. */
  lemma LoadedExactly(s: Source, batch: set<string>, ms: seq<Metadata>, m: Metadata)
    requires Coherent(s) && LoadedFor(s, batch, ms)
    ensures m in ms <==> KeptRow(s, batch, m)
                         || (m in s.rows && exists p :: KeptRow(s, batch, p) && m.parentKey == Some(p.key))
  {
    forall p: Metadata
      ensures p in Kept(s.rows, batch, s.mappings.indexable) <==> KeptRow(s, batch, p)
    {
      KeptExactly(s, batch, p);
    }
    assert m in ms <==> m in Elems(ms);
  }

  /** After the first pass a kept key holds exactly what its rows file it under, and any other key nothing. */
  lemma FirstPassEntries(s: Source, batch: set<string>, ms: seq<Metadata>, k: string)
    requires Coherent(s) && LoadedFor(s, batch, ms)
    ensures var f := FacetsOf(At(AddRecords(EMPTY_TABLES, ms, s.flag, 0), k));
            if exists m :: KeptRow(s, batch, m) && m.key == k then FiledAndShared(s, k, iset{}, f) else f == NO_FACETS
  {
    FirstPassResult(s, batch, ms, k);
    OwnEntries(s, k);
    forall m: Metadata
      ensures m in Kept(s.rows, batch, s.mappings.indexable) <==> KeptRow(s, batch, m)
    {
      KeptExactly(s, batch, m);
    }
  }
}
