/**
 What a batch computes for a course or program that was asked for is a function of the content table alone; a pathway's
 result also depends on which of its programs were asked for with it.
 */
module BatchIndependence {
  import opened Prelude
  import opened ObjectIds
  import opened ContentRefs
  import opened FacetTables
  import opened FacetLaws
  import opened FacetInheritance
  import opened IndexingMappings

  datatype Facets = Facets(
    catalogs: set<string>,
    customers: set<string>,
    academies: set<string>,
    queries: set<QueryTuple>)

  const NO_FACETS := Facets({}, {}, {}, {})

  function FacetsOf(v: View): Facets {
    Facets(v.catalogs, v.customers, v.academies, v.queries)
  }

  /** The state of the database one batch reads, and the mappings computed from it. */
  datatype Source = Source(rows: set<Metadata>, flag: bool, mappings: Mappings,
                           indexableCourses: set<string>, indexablePrograms: set<string>, world: World)

  ghost predicate Coherent(s: Source) {
    && IsTable(s.rows)
    && Serves(s.mappings, s.rows, s.indexableCourses, s.indexablePrograms)
    && s.indexableCourses <= KeysOf(s.rows, Course)
    && s.indexablePrograms <= KeysOf(s.rows, Program)
    && Described(s.rows, s.flag, s.world)
  }

  ghost predicate Described(rows: set<Metadata>, flag: bool, w: World) {
    forall m, q, c | m in rows && CountsUnder(m, flag, q) && c in q.catalogs ::
      Pair(q) == w.query(c.uuid) && c.customer == w.customer(c.uuid) && c.academies == w.academies(c.uuid)
  }

  /** A list of the records the queries return for a batch. */
  ghost predicate LoadedFor(s: Source, batch: set<string>, ms: seq<Metadata>) {
    Elems(ms) == Loaded(s.rows, batch, s.mappings.indexable)
  }

  function Result(s: Source, ms: seq<Metadata>, k: string): Facets {
    FacetsOf(At(AllPasses(ms, s.mappings.courses, s.mappings.members, s.flag), k))
  }

  // ---------------------------------------------------------------- what a key's own records and runs say

  ghost predicate Contributes(m: Metadata, k: string) {
    if m.contentType.CourseRun? then m.parentKey == Some(k) else m.key == k
  }

  ghost function OwnAsks(rows: set<Metadata>, flag: bool, k: string): set<Ask> {
    set m, q | m in rows && Contributes(m, k) && q in m.queries + m.restrictedQueries && CountsUnder(m, flag, q)
      :: Ask(k, Pair(q))
  }

  ghost function OwnLinks(rows: set<Metadata>, flag: bool, k: string): set<Link> {
    set m, q, c | m in rows && Contributes(m, k) && q in m.queries + m.restrictedQueries && CountsUnder(m, flag, q)
                  && c in q.catalogs
      :: Link(k, Pair(q), c)
  }

  ghost function OwnFacets(s: Source, k: string): Facets {
    FacetsOf(Said(OwnAsks(s.rows, s.flag, k), OwnLinks(s.rows, s.flag, k), k))
  }

  ghost predicate IsKept(s: Source, batch: set<string>, k: string) {
    exists m | m in Kept(s.rows, batch, s.mappings.indexable) :: m.key == k
  }

  /** No run is indexable, so the loaded runs are those under a kept record. */
  lemma LoadedRecords(s: Source, batch: set<string>, m: Metadata, k: string)
    requires Coherent(s) && m in Loaded(s.rows, batch, s.mappings.indexable) && FiledUnderKey(m) == k
    ensures m in s.rows && Contributes(m, k) && IsKept(s, batch, k)
  {
    var kept := Kept(s.rows, batch, s.mappings.indexable);
    if m in kept {
      assert m.key in s.mappings.indexable;
      var n :| n in s.rows && n.key == m.key
        && (n.contentType.Course? || n.contentType.Program? || n.contentType.LearnerPathway?);
    } else {
      var p :| p in kept && m.parentKey == Some(p.key);
    }
  }

  lemma ContributorsAreLoaded(s: Source, batch: set<string>, m: Metadata, k: string)
    requires Coherent(s) && IsKept(s, batch, k) && m in s.rows && Contributes(m, k)
    ensures m in Loaded(s.rows, batch, s.mappings.indexable) && FiledUnderKey(m) == k
  {
    var p :| p in Kept(s.rows, batch, s.mappings.indexable) && p.key == k;
  }

  lemma LinksAreOwn(s: Source, batch: set<string>, ms: seq<Metadata>, k: string)
    requires Coherent(s) && LoadedFor(s, batch, ms)
    ensures forall l | l in LinksFrom(ms, s.flag, 0) && l.key == k ::
              IsKept(s, batch, k) && l in OwnLinks(s.rows, s.flag, k)
    ensures forall a | a in AsksFrom(ms, s.flag, 0) && a.key == k ::
              IsKept(s, batch, k) && a in OwnAsks(s.rows, s.flag, k)
  {
    forall l | l in LinksFrom(ms, s.flag, 0) && l.key == k
      ensures IsKept(s, batch, k) && l in OwnLinks(s.rows, s.flag, k)
    {
      var j, q, c :| 0 <= j < |ms| && q in AssociatedQueries(ms[j], s.flag) && c in q.catalogs
        && l == Link(FiledUnderKey(ms[j]), Pair(q), c);
      assert ms[j] in Elems(ms);
      AssociatedExactly(ms[j], s.flag, q);
      LoadedRecords(s, batch, ms[j], k);
    }
    forall a | a in AsksFrom(ms, s.flag, 0) && a.key == k
      ensures IsKept(s, batch, k) && a in OwnAsks(s.rows, s.flag, k)
    {
      var j, q :| 0 <= j < |ms| && q in AssociatedQueries(ms[j], s.flag) && a == Ask(FiledUnderKey(ms[j]), Pair(q));
      assert ms[j] in Elems(ms);
      AssociatedExactly(ms[j], s.flag, q);
      LoadedRecords(s, batch, ms[j], k);
    }
  }

  lemma OwnLinksAreMet(s: Source, batch: set<string>, ms: seq<Metadata>, k: string)
    requires Coherent(s) && LoadedFor(s, batch, ms) && IsKept(s, batch, k)
    ensures OwnLinks(s.rows, s.flag, k) <= LinksFrom(ms, s.flag, 0)
    ensures OwnAsks(s.rows, s.flag, k) <= AsksFrom(ms, s.flag, 0)
  {
    forall l | l in OwnLinks(s.rows, s.flag, k)
      ensures l in LinksFrom(ms, s.flag, 0)
    {
      var m, q, c :| m in s.rows && Contributes(m, k) && CountsUnder(m, s.flag, q) && c in q.catalogs
        && l == Link(k, Pair(q), c);
      ContributorsAreLoaded(s, batch, m, k);
      AssociatedExactly(m, s.flag, q);
      var j :| 0 <= j < |ms| && ms[j] == m;
    }
    forall a | a in OwnAsks(s.rows, s.flag, k)
      ensures a in AsksFrom(ms, s.flag, 0)
    {
      var m, q :| m in s.rows && Contributes(m, k) && CountsUnder(m, s.flag, q) && a == Ask(k, Pair(q));
      ContributorsAreLoaded(s, batch, m, k);
      AssociatedExactly(m, s.flag, q);
      var j :| 0 <= j < |ms| && ms[j] == m;
    }
  }

  lemma SaidByKey(a0: set<Ask>, a1: set<Ask>, l0: set<Link>, l1: set<Link>, k: string)
    requires forall l: Link | l.key == k :: l in l0 <==> l in l1
    requires forall a: Ask | a.key == k :: a in a0 <==> a in a1
    ensures FacetsOf(Said(a0, l0, k)) == FacetsOf(Said(a1, l1, k))
  {
    assert CatalogsOf(l0, k) == CatalogsOf(l1, k);
    assert CustomersOf(l0, k) == CustomersOf(l1, k);
    assert AcademiesOf(l0, k) == AcademiesOf(l1, k);
    assert QueriesOf(a0, k) == QueriesOf(a1, k);
  }

  /** After the first pass a kept key holds its own facets, and any other key nothing. */
  lemma FirstPassResult(s: Source, batch: set<string>, ms: seq<Metadata>, k: string)
    requires Coherent(s) && LoadedFor(s, batch, ms)
    ensures FacetsOf(At(AddRecords(EMPTY_TABLES, ms, s.flag, 0), k))
            == if IsKept(s, batch, k) then OwnFacets(s, k) else NO_FACETS
  {
    FirstPassHolds(ms, s.flag, k);
    LinksAreOwn(s, batch, ms, k);
    var asks, links := AsksFrom(ms, s.flag, 0), LinksFrom(ms, s.flag, 0);
    if IsKept(s, batch, k) {
      OwnLinksAreMet(s, batch, ms, k);
      assert forall l | l in OwnLinks(s.rows, s.flag, k) :: l.key == k;
      assert forall a | a in OwnAsks(s.rows, s.flag, k) :: a.key == k;
      SaidByKey(asks, OwnAsks(s.rows, s.flag, k), links, OwnLinks(s.rows, s.flag, k), k);
    } else {
      SaidByKey(asks, {}, links, {}, k);
      NothingSaid(k);
    }
  }

  /** A row files the key under the query: its own row, or a run's under its parent, as the row counts. */
  ghost predicate Files(rows: set<Metadata>, flag: bool, k: string, m: Metadata, q: CatalogQuery) {
    && m in rows
    && (if m.contentType.CourseRun? then m.parentKey == Some(k) else m.key == k)
    && (if m.contentType.Course? && flag && !m.advertised then q in m.restrictedQueries else q in m.queries)
  }

  ghost predicate FilesUnder(rows: set<Metadata>, flag: bool, k: string, m: Metadata, q: CatalogQuery, c: Catalog) {
    Files(rows, flag, k, m, q) && c in q.catalogs
  }

  lemma FilesIffCounts(rows: set<Metadata>, flag: bool, k: string, m: Metadata, q: CatalogQuery)
    ensures Files(rows, flag, k, m, q) <==> m in rows && Contributes(m, k) && CountsUnder(m, flag, q)
  {
  }

  lemma LinkExactly(s: Source, k: string, l: Link)
    ensures l in OwnLinks(s.rows, s.flag, k)
            <==> && l.key == k
                 && exists m, q :: FilesUnder(s.rows, s.flag, k, m, q, l.catalog) && (q.uuid, q.title) == l.query
  {
    if l in OwnLinks(s.rows, s.flag, k) {
      var m, q, c :| m in s.rows && Contributes(m, k) && CountsUnder(m, s.flag, q) && c in q.catalogs
        && l == Link(k, Pair(q), c);
      FilesIffCounts(s.rows, s.flag, k, m, q);
      assert FilesUnder(s.rows, s.flag, k, m, q, l.catalog);
    }
    if m, q :| FilesUnder(s.rows, s.flag, k, m, q, l.catalog) && (q.uuid, q.title) == l.query {
      FilesIffCounts(s.rows, s.flag, k, m, q);
    }
  }

  lemma AskExactly(s: Source, k: string, a: Ask)
    ensures a in OwnAsks(s.rows, s.flag, k)
            <==> a.key == k && exists m, q :: Files(s.rows, s.flag, k, m, q) && (q.uuid, q.title) == a.query
  {
    if a in OwnAsks(s.rows, s.flag, k) {
      var m, q :| m in s.rows && Contributes(m, k) && CountsUnder(m, s.flag, q) && a == Ask(k, Pair(q));
      FilesIffCounts(s.rows, s.flag, k, m, q);
      assert Files(s.rows, s.flag, k, m, q);
    }
    if m, q :| Files(s.rows, s.flag, k, m, q) && (q.uuid, q.title) == a.query {
      FilesIffCounts(s.rows, s.flag, k, m, q);
    }
  }

  /** What a key's own rows say, entry by entry. */
  lemma OwnExactly(s: Source, k: string, u: string, p: QueryTuple)
    ensures u in OwnFacets(s, k).catalogs <==> exists m, q, c :: FilesUnder(s.rows, s.flag, k, m, q, c) && c.uuid == u
    ensures u in OwnFacets(s, k).customers
            <==> exists m, q, c :: FilesUnder(s.rows, s.flag, k, m, q, c) && c.customer == u
    ensures u in OwnFacets(s, k).academies
            <==> exists m, q, c :: FilesUnder(s.rows, s.flag, k, m, q, c) && u in c.academies
    ensures p in OwnFacets(s, k).queries <==> exists m, q :: Files(s.rows, s.flag, k, m, q) && (q.uuid, q.title) == p
  {
    var asks, links := OwnAsks(s.rows, s.flag, k), OwnLinks(s.rows, s.flag, k);
    forall l: Link
      ensures l in links
              <==> && l.key == k
                   && exists m, q :: FilesUnder(s.rows, s.flag, k, m, q, l.catalog) && (q.uuid, q.title) == l.query
    {
      LinkExactly(s, k, l);
    }
    forall m, q, c | FilesUnder(s.rows, s.flag, k, m, q, c)
      ensures Link(k, (q.uuid, q.title), c) in links
    {
      LinkExactly(s, k, Link(k, (q.uuid, q.title), c));
    }
    AskExactly(s, k, Ask(k, p));
    assert p in OwnFacets(s, k).queries <==> Ask(k, p) in asks by {
      forall a | a in asks
        ensures a.key == k
      {
        AskExactly(s, k, a);
      }
    }
  }

  lemma AgreesOnLoaded(s: Source, batch: set<string>, ms: seq<Metadata>)
    requires Coherent(s) && LoadedFor(s, batch, ms)
    ensures Agrees(LinksFrom(ms, s.flag, 0), s.world)
  {
    forall l | l in LinksFrom(ms, s.flag, 0)
      ensures l.query == s.world.query(l.catalog.uuid) && l.catalog.customer == s.world.customer(l.catalog.uuid)
      ensures l.catalog.academies == s.world.academies(l.catalog.uuid)
    {
      var j, q, c :| 0 <= j < |ms| && q in AssociatedQueries(ms[j], s.flag) && c in q.catalogs
        && l == Link(FiledUnderKey(ms[j]), Pair(q), c);
      assert ms[j] in Elems(ms);
    }
  }

  lemma MappingsAreApart(s: Source, batch: set<string>, ms: seq<Metadata>)
    requires Coherent(s) && LoadedFor(s, batch, ms)
    ensures Apart(ms, s.mappings.courses, Program) && Apart(ms, s.mappings.members, LearnerPathway)
  {
    forall m, n | m in ms && n in ms && m.contentType == Program && n.contentType == Program
      ensures n.key !in Get(s.mappings.courses, m.key)
    {
      assert n in Elems(ms);
      assert Get(s.mappings.courses, m.key) == CoursesOf(s.rows, m.key);
    }
    forall m, n | m in ms && n in ms && m.contentType == LearnerPathway && n.contentType == LearnerPathway
      ensures n.key !in Get(s.mappings.members, m.key)
    {
      assert n in Elems(ms);
      assert Get(s.mappings.members, m.key) == MembersOf(s.rows, m.key);
    }
  }

  lemma OccursMeansKind(s: Source, batch: set<string>, ms: seq<Metadata>, m: Metadata, kind: ContentType)
    requires Coherent(s) && LoadedFor(s, batch, ms) && m in Kept(s.rows, batch, s.mappings.indexable)
    ensures Occurs(ms, 0, kind, m.key) <==> m.contentType == kind
  {
    assert m in Elems(ms);
    if Occurs(ms, 0, kind, m.key) {
      var j :| 0 <= j < |ms| && ms[j].contentType == kind && ms[j].key == m.key;
      assert ms[j] in Elems(ms);
    }
  }

  // ---------------------------------------------------------------- courses and programs

  /** The catalogs that every course of the program is in, all of them indexable. */
  ghost function SharedCatalogs(s: Source, program: string): set<string> {
    var courses := CoursesOf(s.rows, program);
    set c, u | c in courses && u in OwnFacets(s, c).catalogs
               && (forall d | d in courses :: d in s.mappings.indexable && u in OwnFacets(s, d).catalogs) :: u
  }

  function WithCatalogs(f: Facets, catalogs: set<string>, w: World): Facets {
    Facets(f.catalogs + catalogs, f.customers + CustomersFor(catalogs, w), f.academies + AcademiesFor(catalogs, w),
           f.queries + QueriesFor(catalogs, w))
  }

  /** What the table alone says a course or program should show. */
  ghost function Deserved(s: Source, m: Metadata): Facets {
    if m.contentType.Program? then WithCatalogs(OwnFacets(s, m.key), SharedCatalogs(s, m.key), s.world)
    else OwnFacets(s, m.key)
  }

  /** All the courses of the program take part in the batch. */
  ghost predicate CoursesKept(s: Source, batch: set<string>, program: string) {
    forall c | c in CoursesOf(s.rows, program) :: IsKept(s, batch, c)
  }

  /** A program one of whose courses takes no part in the batch. */
  ghost predicate MissesOut(s: Source, batch: set<string>, m: Metadata) {
    m.contentType.Program? && !CoursesKept(s, batch, m.key)
  }

  /** What the second pass gives a kept course or program: a program that misses out shares nothing. */
  ghost function Found(s: Source, batch: set<string>, m: Metadata): Facets {
    if MissesOut(s, batch, m) then OwnFacets(s, m.key) else Deserved(s, m)
  }

  lemma SharedIsCommon(s: Source, batch: set<string>, ms: seq<Metadata>, program: string)
    requires Coherent(s) && LoadedFor(s, batch, ms)
    ensures CommonCatalogs(AddRecords(EMPTY_TABLES, ms, s.flag, 0).catalogs, Get(s.mappings.courses, program))
            == if CoursesKept(s, batch, program) then SharedCatalogs(s, program) else {}
  {
    var t, courses := AddRecords(EMPTY_TABLES, ms, s.flag, 0), CoursesOf(s.rows, program);
    assert Get(s.mappings.courses, program) == courses;
    forall c | c in courses
      ensures Get(t.catalogs, c) == if IsKept(s, batch, c) then OwnFacets(s, c).catalogs else {}
      ensures IsKept(s, batch, c) ==> c in s.mappings.indexable
    {
      FirstPassResult(s, batch, ms, c);
    }
  }

  lemma SecondPassResult(s: Source, batch: set<string>, ms: seq<Metadata>, m: Metadata)
    requires Coherent(s) && LoadedFor(s, batch, ms)
    requires m in Kept(s.rows, batch, s.mappings.indexable) && !m.contentType.LearnerPathway?
    ensures FacetsOf(At(SecondPass(AddRecords(EMPTY_TABLES, ms, s.flag, 0), ms, s.mappings.courses, 0), m.key))
            == Found(s, batch, m)
  {
    var t, k := AddRecords(EMPTY_TABLES, ms, s.flag, 0), m.key;
    MappingsAreApart(s, batch, ms);
    SecondPassAt(t, ms, s.mappings.courses, 0, k);
    OccursMeansKind(s, batch, ms, m, Program);
    FirstPassResult(s, batch, ms, k);
    if m.contentType.Program? {
      var common := CommonCatalogs(t.catalogs, Get(s.mappings.courses, k));
      SharedIsCommon(s, batch, ms, k);
      AgreesOnLoaded(s, batch, ms);
      FirstPassFaithful(ms, s.flag, s.world);
      forall u | u in common
        ensures Known(t, s.world, u)
      {
        var c :| c in Get(s.mappings.courses, k) && u in Get(t.catalogs, c);
      }
      ImagesOfKnown(t, s.world, common);
      NothingAdded(OwnFacets(s, k), s.world);
    }
  }

  lemma NothingAdded(f: Facets, w: World)
    ensures WithCatalogs(f, {}, w) == f
  {
    assert CustomersFor({}, w) == {} && AcademiesFor({}, w) == {} && QueriesFor({}, w) == {};
  }

  lemma UnindexableSharesNothing(s: Source, program: string, course: string)
    requires course in CoursesOf(s.rows, program) && course !in s.mappings.indexable
    ensures SharedCatalogs(s, program) == {}
  {
  }

  /** A program asked for brings all its indexable courses; one that is not indexable shares nothing anyway. */
  lemma RequestedFound(s: Source, batch: set<string>, m: Metadata)
    requires Coherent(s) && m in s.rows && m.key in batch
    ensures Found(s, batch, m) == Deserved(s, m)
  {
    if m.contentType.Program? && !CoursesKept(s, batch, m.key) {
      var c :| c in CoursesOf(s.rows, m.key) && !IsKept(s, batch, c);
      var n :| n in s.rows && n.contentType.Course? && ContentRef(Program, m.key) in n.associated && n.key == c;
      assert c in s.mappings.indexable ==> n in Kept(s.rows, batch, s.mappings.indexable);
      UnindexableSharesNothing(s, m.key, c);
      NothingAdded(OwnFacets(s, m.key), s.world);
    }
  }

  /** The third pass leaves a kept course or program with what the second pass found for it. */
  lemma KeptGetsFound(s: Source, batch: set<string>, ms: seq<Metadata>, m: Metadata)
    requires Coherent(s) && LoadedFor(s, batch, ms)
    requires m in Kept(s.rows, batch, s.mappings.indexable) && !m.contentType.LearnerPathway?
    ensures Result(s, ms, m.key) == Found(s, batch, m)
  {
    MappingsAreApart(s, batch, ms);
    SecondPassResult(s, batch, ms, m);
    OccursMeansKind(s, batch, ms, m, LearnerPathway);
    var t := SecondPass(AddRecords(EMPTY_TABLES, ms, s.flag, 0), ms, s.mappings.courses, 0);
    ThirdPassAt(t, ms, s.mappings.members, 0, m.key);
  }

  /** One course that is not indexable leaves its program with its own facets only, whatever its other courses share. */
  lemma UnindexableCourseBlocks(s: Source, batch: set<string>, ms: seq<Metadata>, program: Metadata, course: string)
    requires Coherent(s) && LoadedFor(s, batch, ms)
    requires program in Kept(s.rows, batch, s.mappings.indexable) && program.contentType.Program?
    requires course in CoursesOf(s.rows, program.key) && course !in s.mappings.indexable
    ensures Result(s, ms, program.key) == OwnFacets(s, program.key)
  {
    KeptGetsFound(s, batch, ms, program);
    UnindexableSharesNothing(s, program.key, course);
    NothingAdded(OwnFacets(s, program.key), s.world);
  }

  /** Whatever else is in the batch, a course or program that was asked for gets what the table says it should. */
  lemma RequestedGetsDeserved(s: Source, batch: set<string>, ms: seq<Metadata>, m: Metadata)
    requires Coherent(s) && LoadedFor(s, batch, ms)
    requires m in s.rows && m.key in batch && m.key in s.mappings.indexable && !m.contentType.LearnerPathway?
    ensures Result(s, ms, m.key) == Deserved(s, m)
  {
    KeptGetsFound(s, batch, ms, m);
    RequestedFound(s, batch, m);
  }

  /** Two batches that both ask for a course or program compute the same facets for it. */
  lemma SameInEveryBatch(s: Source, b0: set<string>, b1: set<string>, ms0: seq<Metadata>, ms1: seq<Metadata>,
                         m: Metadata)
    requires Coherent(s) && LoadedFor(s, b0, ms0) && LoadedFor(s, b1, ms1)
    requires m in s.rows && m.key in b0 && m.key in b1 && m.key in s.mappings.indexable
            && !m.contentType.LearnerPathway?
    ensures Result(s, ms0, m.key) == Result(s, ms1, m.key)
  {
    RequestedGetsDeserved(s, b0, ms0, m);
    RequestedGetsDeserved(s, b1, ms1, m);
  }

  // ---------------------------------------------------------------- pathways

  function IndexableMembers(s: Source, pathway: string): set<Metadata> {
    set m | m in s.rows && m.key in MembersOf(s.rows, pathway) && m.key in s.mappings.indexable
  }

  /** The facets of a pathway and of its members put together. */
  function Together(own: Facets, fs: set<Facets>): Facets {
    Facets(own.catalogs + CatalogsIn(fs), own.customers + CustomersIn(fs), own.academies + AcademiesIn(fs),
           own.queries + QueriesIn(fs))
  }

  function CatalogsIn(fs: set<Facets>): set<string> {
    set f, x | f in fs && x in f.catalogs :: x
  }

  function CustomersIn(fs: set<Facets>): set<string> {
    set f, x | f in fs && x in f.customers :: x
  }

  function AcademiesIn(fs: set<Facets>): set<string> {
    set f, x | f in fs && x in f.academies :: x
  }

  function QueriesIn(fs: set<Facets>): set<QueryTuple> {
    set f, x | f in fs && x in f.queries :: x
  }

  /** What a pathway should show: its own facets and all that its members should show. */
  ghost function PathwayDeserves(s: Source, pathway: string): Facets {
    Together(OwnFacets(s, pathway), MembersDeserve(s, pathway))
  }

  ghost function MembersDeserve(s: Source, pathway: string): set<Facets> {
    set m | m in IndexableMembers(s, pathway) :: Deserved(s, m)
  }

  ghost function MembersFound(s: Source, batch: set<string>, pathway: string): set<Facets> {
    set m | m in IndexableMembers(s, pathway) :: Found(s, batch, m)
  }

  /** What the second pass leaves at a key that was not kept. */
  lemma NotKeptStaysEmpty(s: Source, batch: set<string>, ms: seq<Metadata>, k: string)
    requires Coherent(s) && LoadedFor(s, batch, ms) && !IsKept(s, batch, k)
    requires exists m :: m in s.rows && m.key == k && !m.contentType.CourseRun?
    ensures FacetsOf(At(SecondPass(AddRecords(EMPTY_TABLES, ms, s.flag, 0), ms, s.mappings.courses, 0), k)) == NO_FACETS
  {
    MappingsAreApart(s, batch, ms);
    SecondPassAt(AddRecords(EMPTY_TABLES, ms, s.flag, 0), ms, s.mappings.courses, 0, k);
    FirstPassResult(s, batch, ms, k);
    assert forall m | m in Elems(ms) && m.contentType.Program? :: m in Kept(s.rows, batch, s.mappings.indexable);
  }

  lemma MemberResult(s: Source, batch: set<string>, ms: seq<Metadata>, pathway: string, m: Metadata)
    requires Coherent(s) && LoadedFor(s, batch, ms) && pathway in batch
    requires m in s.rows && m.key in MembersOf(s.rows, pathway)
    ensures FacetsOf(At(SecondPass(AddRecords(EMPTY_TABLES, ms, s.flag, 0), ms, s.mappings.courses, 0), m.key))
            == if m in IndexableMembers(s, pathway) then Found(s, batch, m) else NO_FACETS
  {
    var n :| n in s.rows && (n.contentType.Course? || n.contentType.Program?)
      && ContentRef(LearnerPathway, pathway) in n.associated && n.key == m.key;
    assert n == m;
    if m.key in s.mappings.indexable {
      assert m in Kept(s.rows, batch, s.mappings.indexable);
      SecondPassResult(s, batch, ms, m);
    } else {
      NotKeptStaysEmpty(s, batch, ms, m.key);
    }
  }

  /** Exactly what a pathway gets, whatever the batch: its own facets and what the second pass found for its members. */
  lemma PathwayResult(s: Source, batch: set<string>, ms: seq<Metadata>, w: Metadata)
    requires Coherent(s) && LoadedFor(s, batch, ms)
    requires w in s.rows && w.contentType.LearnerPathway? && w.key in batch
    ensures Result(s, ms, w.key) == Together(OwnFacets(s, w.key), MembersFound(s, batch, w.key))
  {
    var k := w.key;
    var t := SecondPass(AddRecords(EMPTY_TABLES, ms, s.flag, 0), ms, s.mappings.courses, 0);
    assert w.key in s.mappings.indexable;
    assert w in Kept(s.rows, batch, s.mappings.indexable);
    MappingsAreApart(s, batch, ms);
    ThirdPassAt(t, ms, s.mappings.members, 0, k);
    OccursMeansKind(s, batch, ms, w, LearnerPathway);
    OccursMeansKind(s, batch, ms, w, Program);
    SecondPassAt(AddRecords(EMPTY_TABLES, ms, s.flag, 0), ms, s.mappings.courses, 0, k);
    FirstPassResult(s, batch, ms, k);
    forall m | m in s.rows && m.key in MembersOf(s.rows, k)
      ensures FacetsOf(At(t, m.key)) == if m in IndexableMembers(s, k) then Found(s, batch, m) else NO_FACETS
    {
      MemberResult(s, batch, ms, k, m);
    }
    assert Get(s.mappings.members, k) == MembersOf(s.rows, k);
    MembersTogether(s, batch, t, k);
  }

  lemma ProgramsRequested(s: Source, batch: set<string>, pathway: string)
    requires Coherent(s)
    requires forall m | m in IndexableMembers(s, pathway) && m.contentType.Program? :: m.key in batch
    ensures MembersFound(s, batch, pathway) == MembersDeserve(s, pathway)
  {
    forall m | m in IndexableMembers(s, pathway)
      ensures Found(s, batch, m) == Deserved(s, m)
    {
      if m.contentType.Program? {
        RequestedFound(s, batch, m);
      }
    }
  }

  /** When its indexable programs are asked for too, a pathway gets what the table says it should. */
  lemma PathwayWithItsPrograms(s: Source, batch: set<string>, ms: seq<Metadata>, w: Metadata)
    requires Coherent(s) && LoadedFor(s, batch, ms)
    requires w in s.rows && w.contentType.LearnerPathway? && w.key in batch
    requires forall m | m in IndexableMembers(s, w.key) && m.contentType.Program? :: m.key in batch
    ensures Result(s, ms, w.key) == PathwayDeserves(s, w.key)
  {
    PathwayResult(s, batch, ms, w);
    ProgramsRequested(s, batch, w.key);
  }

  /** Every set of `f` is contained in the same set of `g`. */
  ghost predicate Within(f: Facets, g: Facets) {
    && f.catalogs <= g.catalogs && f.customers <= g.customers
    && f.academies <= g.academies && f.queries <= g.queries
  }

  lemma TogetherHolds(own: Facets, fs: set<Facets>)
    ensures Within(own, Together(own, fs)) && forall f | f in fs :: Within(f, Together(own, fs))
  {
    forall f | f in fs
      ensures Within(f, Together(own, fs))
    {
      assert f.catalogs <= CatalogsIn(fs) && f.customers <= CustomersIn(fs);
      assert f.academies <= AcademiesIn(fs) && f.queries <= QueriesIn(fs);
    }
  }

  lemma TogetherIsLeast(own: Facets, fs: set<Facets>, g: Facets)
    requires Within(own, g) && forall f | f in fs :: Within(f, g)
    ensures Within(Together(own, fs), g)
  {
  }

  /** Shared catalogs already shown bring nothing new: their customers, academies and queries are shown as well. */
  lemma SuppliedAnyway(f: Facets, catalogs: set<string>, g: Facets, w: World)
    requires Within(f, g) && catalogs <= g.catalogs
    requires g.customers == CustomersFor(g.catalogs, w) && g.academies == AcademiesFor(g.catalogs, w)
    requires QueriesFor(g.catalogs, w) <= g.queries
    ensures Within(WithCatalogs(f, catalogs, w), g)
  {
  }

  lemma ResultIsImaged(s: Source, batch: set<string>, ms: seq<Metadata>, k: string)
    requires Coherent(s) && LoadedFor(s, batch, ms)
    ensures var g := Result(s, ms, k);
            && g.customers == CustomersFor(g.catalogs, s.world) && g.academies == AcademiesFor(g.catalogs, s.world)
            && QueriesFor(g.catalogs, s.world) <= g.queries
  {
    AgreesOnLoaded(s, batch, ms);
    AllPassesFaithful(ms, s.mappings.courses, s.mappings.members, s.flag, s.world, k);
  }

  lemma FoundWithinDeserved(s: Source, batch: set<string>, m: Metadata)
    ensures Within(Found(s, batch, m), Deserved(s, m))
    ensures !MissesOut(s, batch, m) ==> Found(s, batch, m) == Deserved(s, m)
  {
  }

  /** What a pathway gets never exceeds what the table says it should get. */
  lemma ResultWithinDeserved(s: Source, batch: set<string>, ms: seq<Metadata>, w: Metadata)
    requires Coherent(s) && LoadedFor(s, batch, ms)
    requires w in s.rows && w.contentType.LearnerPathway? && w.key in batch
    ensures Within(Result(s, ms, w.key), PathwayDeserves(s, w.key))
  {
    var own, found, g := OwnFacets(s, w.key), MembersFound(s, batch, w.key), PathwayDeserves(s, w.key);
    PathwayResult(s, batch, ms, w);
    TogetherHolds(own, MembersDeserve(s, w.key));
    forall f | f in found
      ensures Within(f, g)
    {
      var m :| m in IndexableMembers(s, w.key) && f == Found(s, batch, m);
      FoundWithinDeserved(s, batch, m);
      assert Deserved(s, m) in MembersDeserve(s, w.key);
    }
    TogetherIsLeast(own, found, g);
  }

  /** A program that misses out still leaves nothing missing when its shared catalogs reach the pathway another way. */
  lemma DeservedWithinResult(s: Source, batch: set<string>, ms: seq<Metadata>, w: Metadata, m: Metadata)
    requires Coherent(s) && LoadedFor(s, batch, ms)
    requires w in s.rows && w.contentType.LearnerPathway? && w.key in batch && m in IndexableMembers(s, w.key)
    requires MissesOut(s, batch, m) ==> SharedCatalogs(s, m.key) <= Result(s, ms, w.key).catalogs
    ensures Within(Deserved(s, m), Result(s, ms, w.key))
  {
    var g := Result(s, ms, w.key);
    PathwayResult(s, batch, ms, w);
    assert Found(s, batch, m) in MembersFound(s, batch, w.key);
    TogetherHolds(OwnFacets(s, w.key), MembersFound(s, batch, w.key));
    assert Within(Found(s, batch, m), g);
    if MissesOut(s, batch, m) {
      ResultIsImaged(s, batch, ms, w.key);
      SuppliedAnyway(OwnFacets(s, m.key), SharedCatalogs(s, m.key), g, s.world);
    }
  }

  /**
   Every catalog that all the courses of a member program share, where one of those courses takes no part in the
   batch, is one of the pathway's own or of what the second pass found for some member.
   */
  ghost predicate SuppliedElsewhere(s: Source, batch: set<string>, pathway: string) {
    forall m | m in IndexableMembers(s, pathway) && MissesOut(s, batch, m) ::
      SharedCatalogs(s, m.key) <= Together(OwnFacets(s, pathway), MembersFound(s, batch, pathway)).catalogs
  }

  lemma SuppliedIsEnough(s: Source, batch: set<string>, ms: seq<Metadata>, w: Metadata)
    requires Coherent(s) && LoadedFor(s, batch, ms)
    requires w in s.rows && w.contentType.LearnerPathway? && w.key in batch && SuppliedElsewhere(s, batch, w.key)
    ensures Within(PathwayDeserves(s, w.key), Result(s, ms, w.key))
  {
    var g, own, fs := Result(s, ms, w.key), OwnFacets(s, w.key), MembersDeserve(s, w.key);
    PathwayResult(s, batch, ms, w);
    forall f | f in fs
      ensures Within(f, g)
    {
      var m :| m in IndexableMembers(s, w.key) && f == Deserved(s, m);
      DeservedWithinResult(s, batch, ms, w, m);
    }
    assert Within(own, g) by {
      TogetherHolds(own, MembersFound(s, batch, w.key));
    }
    TogetherIsLeast(own, fs, g);
  }

  lemma SuppliedIsNeeded(s: Source, batch: set<string>, pathway: string)
    requires Together(OwnFacets(s, pathway), MembersFound(s, batch, pathway)).catalogs
             == PathwayDeserves(s, pathway).catalogs
    ensures SuppliedElsewhere(s, batch, pathway)
  {
    TogetherHolds(OwnFacets(s, pathway), MembersDeserve(s, pathway));
    forall m | m in IndexableMembers(s, pathway) && MissesOut(s, batch, m)
      ensures SharedCatalogs(s, m.key) <= PathwayDeserves(s, pathway).catalogs
    {
      assert Deserved(s, m) in MembersDeserve(s, pathway);
    }
  }

  lemma WithinBothWays(f: Facets, g: Facets)
    requires Within(f, g) && Within(g, f)
    ensures f == g
  {
  }

  /**
   Exactly when a pathway gets all that the table says it should, in catalogs, customers, academies and queries alike.
   The condition looks only at the table and at which keys are in the batch.
   */
  lemma PathwayGetsDeservedExactly(s: Source, batch: set<string>, ms: seq<Metadata>, w: Metadata)
    requires Coherent(s) && LoadedFor(s, batch, ms)
    requires w in s.rows && w.contentType.LearnerPathway? && w.key in batch
    ensures Result(s, ms, w.key) == PathwayDeserves(s, w.key) <==> SuppliedElsewhere(s, batch, w.key)
    ensures Result(s, ms, w.key).catalogs == PathwayDeserves(s, w.key).catalogs <==> SuppliedElsewhere(s, batch, w.key)
  {
    if SuppliedElsewhere(s, batch, w.key) {
      SuppliedIsEnough(s, batch, ms, w);
      ResultWithinDeserved(s, batch, ms, w);
      WithinBothWays(Result(s, ms, w.key), PathwayDeserves(s, w.key));
    }
    if Result(s, ms, w.key).catalogs == PathwayDeserves(s, w.key).catalogs {
      PathwayResult(s, batch, ms, w);
      SuppliedIsNeeded(s, batch, w.key);
    }
  }

  lemma JoiningGainsNoMore(t: Tables, keys: set<string>, fs: set<Facets>)
    requires forall k | k in keys :: FacetsOf(At(t, k)) in fs + {NO_FACETS}
    ensures Image(t.catalogs, keys) <= CatalogsIn(fs) && Image(t.customers, keys) <= CustomersIn(fs)
    ensures Image(t.academies, keys) <= AcademiesIn(fs) && Image(t.queries, keys) <= QueriesIn(fs)
  {
    forall k | k in keys
      ensures FacetsOf(At(t, k)) == NO_FACETS || FacetsOf(At(t, k)) in fs
    {
    }
  }

  lemma JoiningGainsAll(t: Tables, keys: set<string>, fs: set<Facets>)
    requires forall f | f in fs :: exists k | k in keys :: FacetsOf(At(t, k)) == f
    ensures CatalogsIn(fs) <= Image(t.catalogs, keys) && CustomersIn(fs) <= Image(t.customers, keys)
    ensures AcademiesIn(fs) <= Image(t.academies, keys) && QueriesIn(fs) <= Image(t.queries, keys)
  {
    forall f | f in fs
      ensures f.catalogs <= Image(t.catalogs, keys) && f.customers <= Image(t.customers, keys)
      ensures f.academies <= Image(t.academies, keys) && f.queries <= Image(t.queries, keys)
    {
      var k :| k in keys && FacetsOf(At(t, k)) == f;
    }
  }

  /** Joining keys whose facets are those in `fs`, or none, joins the members of `fs`. */
  lemma JoiningFacets(t: Tables, pathway: string, keys: set<string>, fs: set<Facets>)
    requires forall k | k in keys :: FacetsOf(At(t, k)) in fs + {NO_FACETS}
    requires forall f | f in fs :: exists k | k in keys :: FacetsOf(At(t, k)) == f
    ensures FacetsOf(Joining(t, pathway, keys)) == Together(FacetsOf(At(t, pathway)), fs)
  {
    JoiningGainsNoMore(t, keys, fs);
    JoiningGainsAll(t, keys, fs);
  }

  lemma MembersTogether(s: Source, batch: set<string>, t: Tables, pathway: string)
    requires forall m | m in s.rows && m.key in MembersOf(s.rows, pathway) ::
               FacetsOf(At(t, m.key)) == if m in IndexableMembers(s, pathway) then Found(s, batch, m) else NO_FACETS
    ensures FacetsOf(Joining(t, pathway, MembersOf(s.rows, pathway)))
            == Together(FacetsOf(At(t, pathway)), MembersFound(s, batch, pathway))
  {
    var keys, fs := MembersOf(s.rows, pathway), MembersFound(s, batch, pathway);
    forall k | k in keys
      ensures FacetsOf(At(t, k)) in fs + {NO_FACETS}
    {
      var m :| m in s.rows && m.key == k;
      assert FacetsOf(At(t, m.key)) == if m in IndexableMembers(s, pathway) then Found(s, batch, m) else NO_FACETS;
    }
    forall f | f in fs
      ensures exists k | k in keys :: FacetsOf(At(t, k)) == f
    {
      var m :| m in IndexableMembers(s, pathway) && f == Found(s, batch, m);
      assert FacetsOf(At(t, m.key)) == f && m.key in keys;
    }
    JoiningFacets(t, pathway, keys, fs);
  }

  // ---------------------------------------------------------------- a pathway asked for without its program

  const THE_COURSE := Metadata("c", Course, None, [CatalogQuery("q", None, [Catalog("u", "e", {})])], [], true,
                               {ContentRef(Program, "p")})

  const THE_PROGRAM := Metadata("p", Program, None, [], [], false,
                                {ContentRef(Course, "c"), ContentRef(LearnerPathway, "w")})

  const THE_PATHWAY := Metadata("w", LearnerPathway, None, [], [], false, {ContentRef(Program, "p")})

  function OneOfEach(): Source {
    Source({THE_COURSE, THE_PROGRAM, THE_PATHWAY}, false,
           Mappings(map["p" := {"c"}], map["w" := {"p"}], {"c", "p", "w"}), {"c"}, {"p"},
           World(_ => ("q", None), _ => "e", _ => {}))
  }

  lemma OneOfEachMaps(k: string)
    ensures
      var s := OneOfEach();
      && CoursesOf(s.rows, k) == (if k == "p" then {"c"} else {})
      && MembersOf(s.rows, k) == (if k == "w" then {"p"} else {})
  {
    var s := OneOfEach();
    assert THE_COURSE in s.rows && THE_PROGRAM in s.rows && THE_PATHWAY in s.rows;
    if k == "p" {
      assert ContentRef(Program, k) in THE_COURSE.associated;
    }
    if k == "w" {
      assert ContentRef(LearnerPathway, k) in THE_PROGRAM.associated;
    }
  }

  lemma OneOfEachKinds()
    ensures
      var s := OneOfEach();
      KeysOf(s.rows, Course) == {"c"} && KeysOf(s.rows, Program) == {"p"} && KeysOf(s.rows, LearnerPathway) == {"w"}
  {
    var s := OneOfEach();
    assert THE_COURSE in s.rows && THE_PROGRAM in s.rows && THE_PATHWAY in s.rows;
  }

  lemma OneOfEachServes()
    ensures
      var s := OneOfEach();
      Serves(s.mappings, s.rows, s.indexableCourses, s.indexablePrograms)
  {
    var s := OneOfEach();
    forall k
      ensures Get(s.mappings.courses, k) == CoursesOf(s.rows, k)
      ensures Get(s.mappings.members, k) == MembersOf(s.rows, k)
      ensures k in s.mappings.courses <==> CoursesOf(s.rows, k) != {} || k in s.indexablePrograms
      ensures k in s.mappings.members <==> MembersOf(s.rows, k) != {} || k in KeysOf(s.rows, LearnerPathway)
    {
      OneOfEachMaps(k);
      OneOfEachKinds();
    }
    OneOfEachKinds();
  }

  lemma OneOfEachAgrees(m: Metadata, q: CatalogQuery, c: Catalog)
    requires m in OneOfEach().rows && CountsUnder(m, false, q) && c in q.catalogs
    ensures m == THE_COURSE && Pair(q) == ("q", None) && c == Catalog("u", "e", {})
  {
  }

  lemma OneOfEachIsTable()
    ensures IsTable(OneOfEach().rows)
  {
  }

  lemma OneOfEachIsDescribed()
    ensures
      var s := OneOfEach();
      Described(s.rows, s.flag, s.world)
  {
    var s := OneOfEach();
    forall m, q, c | m in s.rows && CountsUnder(m, s.flag, q) && c in q.catalogs
      ensures Pair(q) == s.world.query(c.uuid)
      ensures c.customer == s.world.customer(c.uuid) && c.academies == s.world.academies(c.uuid)
    {
      OneOfEachAgrees(m, q, c);
    }
  }

  lemma PartsAreCoherent(s: Source)
    requires IsTable(s.rows) && Serves(s.mappings, s.rows, s.indexableCourses, s.indexablePrograms)
    requires s.indexableCourses <= KeysOf(s.rows, Course) && s.indexablePrograms <= KeysOf(s.rows, Program)
    requires Described(s.rows, s.flag, s.world)
    ensures Coherent(s)
  {
  }

  lemma OneOfEachIsCoherent()
    ensures Coherent(OneOfEach())
  {
    OneOfEachIsTable();
    OneOfEachServes();
    OneOfEachKinds();
    OneOfEachIsDescribed();
    PartsAreCoherent(OneOfEach());
  }

  /**
   For a pathway the result does depend on the batch: asked for alone it misses a catalog that it shows when its
   program is asked for with it.
   */
  lemma PathwayDependsOnItsBatch()
    ensures
      var s := OneOfEach();
      && Coherent(s)
      && LoadedFor(s, {"w"}, [THE_PROGRAM, THE_PATHWAY])
      && LoadedFor(s, {"p", "w"}, [THE_COURSE, THE_PROGRAM, THE_PATHWAY])
      && "u" !in Result(s, [THE_PROGRAM, THE_PATHWAY], "w").catalogs
      && "u" in Result(s, [THE_COURSE, THE_PROGRAM, THE_PATHWAY], "w").catalogs
  {
    OneOfEachIsCoherent();
    LoadedAlone();
    LoadedTogether();
    ShownTogether();
    MissedAlone();
  }

  lemma LoadedAlone()
    ensures LoadedFor(OneOfEach(), {"w"}, [THE_PROGRAM, THE_PATHWAY])
  {
    var s := OneOfEach();
    assert ContentRef(LearnerPathway, "w") in THE_PROGRAM.associated;
    assert Kept(s.rows, {"w"}, s.mappings.indexable) == {THE_PROGRAM, THE_PATHWAY};
  }

  lemma LoadedTogether()
    ensures LoadedFor(OneOfEach(), {"p", "w"}, [THE_COURSE, THE_PROGRAM, THE_PATHWAY])
  {
    var s := OneOfEach();
    assert ContentRef(Program, "p") in THE_COURSE.associated;
    assert Kept(s.rows, {"p", "w"}, s.mappings.indexable) == s.rows;
  }

  lemma CourseIsInCatalog()
    ensures "u" in OwnFacets(OneOfEach(), "c").catalogs
  {
    var q := THE_COURSE.queries[0];
    assert q in AssociatedQueries(THE_COURSE, false) && q.catalogs[0] in q.catalogs;
    assert Link("c", Pair(q), q.catalogs[0]) in OwnLinks(OneOfEach().rows, false, "c");
  }

  lemma NowhereElse(k: string)
    requires k != "c"
    ensures OwnFacets(OneOfEach(), k).catalogs == {}
  {
    assert OwnLinks(OneOfEach().rows, false, k) == {};
  }

  lemma CatalogsTogether(own: Facets, fs: set<Facets>, u: string)
    ensures u in Together(own, fs).catalogs <==> u in own.catalogs || exists f | f in fs :: u in f.catalogs
  {
  }

  lemma ShownThrough(s: Source, batch: set<string>, ms: seq<Metadata>, w: Metadata, p: Metadata, c: string, u: string)
    requires Coherent(s) && LoadedFor(s, batch, ms) && w in s.rows && w.contentType.LearnerPathway? && w.key in batch
    requires IndexableMembers(s, w.key) == {p} && p.contentType.Program? && p.key in batch
    requires CoursesOf(s.rows, p.key) == {c} && c in s.mappings.indexable && u in OwnFacets(s, c).catalogs
    ensures u in Result(s, ms, w.key).catalogs
  {
    PathwayWithItsPrograms(s, batch, ms, w);
    SharedByAll(s, p, c, u);
    assert p in IndexableMembers(s, w.key);
    assert Deserved(s, p) in MembersDeserve(s, w.key);
    CatalogsTogether(OwnFacets(s, w.key), MembersDeserve(s, w.key), u);
  }

  lemma SharedByAll(s: Source, p: Metadata, c: string, u: string)
    requires p.contentType.Program? && CoursesOf(s.rows, p.key) == {c}
    requires c in s.mappings.indexable && u in OwnFacets(s, c).catalogs
    ensures u in Deserved(s, p).catalogs
  {
    assert u in SharedCatalogs(s, p.key);
  }

  lemma OnlyFound(s: Source, batch: set<string>, pathway: string, p: Metadata, c: string)
    requires IndexableMembers(s, pathway) == {p} && p.contentType.Program?
    requires CoursesOf(s.rows, p.key) == {c} && !IsKept(s, batch, c)
    ensures MembersFound(s, batch, pathway) == {OwnFacets(s, p.key)}
  {
    assert c in CoursesOf(s.rows, p.key);
    assert p in IndexableMembers(s, pathway) && Found(s, batch, p) == OwnFacets(s, p.key);
  }

  lemma MissedThrough(s: Source, batch: set<string>, ms: seq<Metadata>, w: Metadata, p: Metadata, c: string, u: string)
    requires Coherent(s) && LoadedFor(s, batch, ms) && w in s.rows && w.contentType.LearnerPathway? && w.key in batch
    requires IndexableMembers(s, w.key) == {p} && p.contentType.Program?
    requires CoursesOf(s.rows, p.key) == {c} && !IsKept(s, batch, c)
    requires u !in OwnFacets(s, w.key).catalogs && u !in OwnFacets(s, p.key).catalogs
    ensures u !in Result(s, ms, w.key).catalogs
  {
    PathwayResult(s, batch, ms, w);
    OnlyFound(s, batch, w.key, p, c);
    CatalogsTogether(OwnFacets(s, w.key), MembersFound(s, batch, w.key), u);
  }

  lemma OnlyMember()
    ensures IndexableMembers(OneOfEach(), "w") == {THE_PROGRAM}
  {
    OneOfEachMaps("w");
  }

  lemma ShownTogether()
    requires LoadedFor(OneOfEach(), {"p", "w"}, [THE_COURSE, THE_PROGRAM, THE_PATHWAY]) && Coherent(OneOfEach())
    ensures "u" in Result(OneOfEach(), [THE_COURSE, THE_PROGRAM, THE_PATHWAY], "w").catalogs
  {
    OneOfEachMaps("p");
    OnlyMember();
    CourseIsInCatalog();
    ShownThrough(OneOfEach(), {"p", "w"}, [THE_COURSE, THE_PROGRAM, THE_PATHWAY], THE_PATHWAY, THE_PROGRAM, "c", "u");
  }

  lemma CourseNotKept()
    ensures !IsKept(OneOfEach(), {"w"}, "c")
  {
  }

  lemma MissedAlone()
    requires LoadedFor(OneOfEach(), {"w"}, [THE_PROGRAM, THE_PATHWAY]) && Coherent(OneOfEach())
    ensures "u" !in Result(OneOfEach(), [THE_PROGRAM, THE_PATHWAY], "w").catalogs
  {
    OneOfEachMaps("p");
    OnlyMember();
    NowhereElse("w");
    NowhereElse("p");
    CourseNotKept();
    MissedThrough(OneOfEach(), {"w"}, [THE_PROGRAM, THE_PATHWAY], THE_PATHWAY, THE_PROGRAM, "c", "u");
  }
}
