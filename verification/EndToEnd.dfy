/**
 From the content table to the index: what a batch shows for the records it was asked for, through the facet passes,
 the shared dictionary of products, the cutting into objects, and the indexing task with its failures.
 */
module EndToEnd {
  import opened Prelude
  import opened ContentRefs
  import opened SearchIndex
  import opened IndexingStates
  import opened BatchIndexer
  import opened BatchEffects
  import opened ShardFacets
  import opened BatchIndependence
  import opened FacetEntries
  import opened Generator
  import opened Shards
  import opened ObjectIds
  import F = FacetTables
  import L = FacetLaws

  /** What the generator is called with: the table it reads, what it loads, and how records and videos are rendered. */
  datatype Call = Call(source: Source, loaded: seq<F.Metadata>, render: Renderer, titles: Titles, videos: seq<Shard>)

  function MakingOf(c: Call): Making {
    var s := c.source;
    Making(F.AllPasses(c.loaded, s.mappings.courses, s.mappings.members, s.flag), c.render, c.titles)
  }

  /** The task was handed what this call of the generator makes for its keys. */
  ghost predicate FedBy(r: Round, c: Call, reg: Registry) {
    && Coherent(c.source) && LoadedFor(c.source, Elems(r.task.keys), c.loaded)
    && Titled(c.loaded, c.source.flag, c.titles)
    && WellMade(MakingOf(c), c.loaded, c.videos, reg)
    && GeneratedFrom(r.task.generated, r.task.contentType, r.task.keys,
                     ProductsOf(MakingOf(c), c.loaded, c.videos))
  }

  /** A task over a well filed index, with complete tracking for one record, which it ended INDEXED. */
  ghost predicate EndsIndexed(rows: Rows, hosted: Hosted, r: Round, owner: Owner, i: nat) {
    && r.chunk > 0 && PlansFit(r.plans, r.task, rows, hosted, r.luck)
    && WellFiled(hosted, owner) && WellTracked(rows, owner)
    && i < |r.plans| && Fates(r)[i].outcome.Indexed?
    && TrackingComplete(rows, hosted, owner, r.plans[i].ref)
  }

  /** A query object has the titles of the queries it carries, and the two explore titles if the record has them. */
  ghost predicate TitledAfter(f: Facet, queries: set<F.QueryTuple>)
    requires f.QueryFacet?
  {
    forall t :: t in f.titles
      <==> (t != "" && exists q :: (q, Some(t)) in queries && q in f.uuids)
           || (t in {"A la carte", "Subscription"} && exists q :: (q, Some(t)) in queries)
  }

  ghost predicate Fits(shard: Shard, f: Facets) {
    && shard.body.academyUuids == f.academies
    && (shard.facet.QueryFacet? ==> TitledAfter(shard.facet, f.queries))
  }

  /**
   The index shows a record in exactly these catalogs, customers and queries, each object with these academies and, if
   it carries queries, with their titles.
   */
  ghost predicate ShownAs(hosted: Hosted, owner: Owner, ref: ContentRef, f: Facets) {
    && CatalogsShown(hosted, owner, ref) == f.catalogs
    && CustomersShown(hosted, owner, ref) == f.customers
    && QueriesShown(hosted, owner, ref) == UuidsIn(f.queries)
    && forall id | id in hosted && owner(id) == Some(ref) :: Fits(hosted[id], f)
  }

  /** So in each language the record has, with that language's body; in any other language nothing of it is there. */
  ghost predicate ShownInItsLanguages(hosted: Hosted, owner: Owner, ref: ContentRef, card: Card, f: Facets) {
    && (forall l | HasLanguage(card, l) :: ShownAs(InLanguage(hosted, l), owner, ref, f))
    && (forall l, id | id in InLanguage(hosted, l) && owner(id) == Some(ref) ::
          HasLanguage(card, l) && hosted[id].body == BodyIn(card, l))
  }

  /** The record of an indexable key that was asked for is among the loaded ones, and is no run. */
  lemma AskedForIsLoaded(s: Source, batch: set<string>, loaded: seq<F.Metadata>, record: F.Metadata)
    requires Coherent(s) && LoadedFor(s, batch, loaded)
    requires record in s.rows && record.key in batch && record.key in s.mappings.indexable
    ensures record in loaded && !record.contentType.CourseRun?
  {
    assert record in Elems(loaded);
    var n :| n in s.rows && n.key == record.key && !n.contentType.CourseRun?;
  }

  /** The generator's output suits the task, whose plan i is for its i-th key. */
  lemma AskedFor(rows: Rows, hosted: Hosted, r: Round, reg: Registry, i: nat, c: Call)
    requires EndsIndexed(rows, hosted, r, OwnerOf(reg), i) && FedBy(r, c, reg)
    ensures Legal(rows, hosted, r, OwnerOf(reg))
    ensures r.plans[i].ref.contentType == r.task.contentType && r.plans[i].ref.key in Elems(r.task.keys)
  {
    GeneratorIsWellBehaved(r, MakingOf(c), c.loaded, c.videos, reg);
    PlanAt(rows, hosted, r, OwnerOf(reg), i);
  }

  lemma TaskGetsItsObjects(r: Round, c: Call, reg: Registry, record: F.Metadata, shard: Shard)
    requires FedBy(r, c, reg) && record in c.source.rows && record.key in c.source.mappings.indexable
    requires record.contentType == r.task.contentType && record.key in Elems(r.task.keys)
    ensures shard in ShardsFor(r, RefOf(record)) <==> shard in ObjectsOf(MakingOf(c), record)
  {
    AskedForIsLoaded(c.source, Elems(r.task.keys), c.loaded, record);
    KeyGetsItsObjects(r.task.generated, r.task.contentType, r.task.keys, MakingOf(c), c.loaded, c.videos, reg,
                      record.key, shard);
  }

  /** The listed queries carry the titles of the collected ones. */
  lemma TitlesOfListing(t: F.Tables, k: string, titles: Titles, f: Facet)
    requires AllTitled(F.Get(t.queries, k), titles) && f.QueryFacet?
    requires TitlesFit(Listing(t, k, titles).queries, f)
    ensures TitledAfter(f, F.Get(t.queries, k))
  {
    var queries, listed := F.Get(t.queries, k), Listing(t, k, titles).queries;
    ListingHolds(t, k, titles);
    forall q: string, s: string
      ensures (q, Some(s)) in queries <==> Query(q, Some(s)) in listed
    {
      assert q in UuidsIn(queries) <==> q in UuidsOf(listed);
      UuidIn(listed, q);
      if (q, Some(s)) in queries {
        var p: Query :| p in listed && p.uuid == q;
        assert p == Query(q, Some(s));
      }
      if Query(q, Some(s)) in listed {
        var p :| p in queries && p.0 == q;
        assert p == (q, Some(s));
      }
    }
    forall s: string
      ensures SomeTitle(listed, s) <==> exists q :: (q, Some(s)) in queries
      ensures TitleCarried(listed, f, s) <==> exists q :: (q, Some(s)) in queries && q in f.uuids
    {
      if p: Query :| p in listed && p.title == Some(s) {
        assert p == Query(p.uuid, Some(s));
      }
    }
  }

  lemma ShowsTitles(
    rows: Rows, hosted: Hosted, r: Round, reg: Registry, i: nat, c: Call, record: F.Metadata, id: string)
    requires EndsIndexed(rows, hosted, r, OwnerOf(reg), i) && FedBy(r, c, reg)
    requires record in c.source.rows && RefOf(record) == r.plans[i].ref && record.key in c.source.mappings.indexable
    requires id in HostedAfter(hosted, r) && OwnerOf(reg)(id) == Some(r.plans[i].ref)
    requires HostedAfter(hosted, r)[id].facet.QueryFacet?
    ensures TitledAfter(HostedAfter(hosted, r)[id].facet, F.Get(MakingOf(c).tables.queries, record.key))
  {
    var g := MakingOf(c);
    AskedFor(rows, hosted, r, reg, i, c);
    forall shard: Shard
      ensures shard in ShardsFor(r, r.plans[i].ref) <==> shard in ObjectsOf(g, record)
    {
      TaskGetsItsObjects(r, c, reg, record, shard);
    }
    ListingHolds(g.tables, record.key, c.titles);
    IndexedShowsTitles(rows, hosted, r, OwnerOf(reg), i, c.render(record, F.Get(g.tables.academies, record.key)),
                       Listing(g.tables, record.key, c.titles), id);
    AllPassesTitled(c.loaded, c.source.mappings.courses, c.source.mappings.members, c.source.flag, c.titles);
    TitlesOfListing(g.tables, record.key, c.titles, HostedAfter(hosted, r)[id].facet);
  }

  lemma ShowsAcademies(
    rows: Rows, hosted: Hosted, r: Round, reg: Registry, i: nat, c: Call, record: F.Metadata, id: string)
    requires EndsIndexed(rows, hosted, r, OwnerOf(reg), i) && FedBy(r, c, reg)
    requires record in c.source.rows && RefOf(record) == r.plans[i].ref && record.key in c.source.mappings.indexable
    requires id in HostedAfter(hosted, r) && OwnerOf(reg)(id) == Some(r.plans[i].ref)
    ensures HostedAfter(hosted, r)[id].body.academyUuids == F.Get(MakingOf(c).tables.academies, record.key)
  {
    var shard := HostedAfter(hosted, r)[id];
    AskedFor(rows, hosted, r, reg, i, c);
    HostsWhatItIndexed(rows, hosted, r, OwnerOf(reg), i);
    TaskGetsItsObjects(r, c, reg, record, shard);
    AskedForIsLoaded(c.source, Elems(r.task.keys), c.loaded, record);
    assert IsOwn(MakingOf(c), c.loaded, record, shard);
    OwnObject(MakingOf(c), c.loaded, reg, record, shard);
  }

  /** Each hosted object of an INDEXED record has the academies and the titles that were collected for it. */
  lemma HostedFits(
    rows: Rows, hosted: Hosted, r: Round, reg: Registry, i: nat, c: Call, record: F.Metadata, id: string)
    requires EndsIndexed(rows, hosted, r, OwnerOf(reg), i) && FedBy(r, c, reg)
    requires record in c.source.rows && RefOf(record) == r.plans[i].ref && record.key in c.source.mappings.indexable
    requires id in HostedAfter(hosted, r) && OwnerOf(reg)(id) == Some(r.plans[i].ref)
    ensures Fits(HostedAfter(hosted, r)[id], Result(c.source, c.loaded, record.key))
  {
    ShowsAcademies(rows, hosted, r, reg, i, c, record, id);
    if HostedAfter(hosted, r)[id].facet.QueryFacet? {
      ShowsTitles(rows, hosted, r, reg, i, c, record, id);
    }
  }

  /** What is listed for a record in the whole index, or in the part of it in one language. */
  lemma ShowsListing(
    rows: Rows, hosted: Hosted, r: Round, reg: Registry, i: nat, c: Call, record: F.Metadata, l: Language)
    requires EndsIndexed(rows, hosted, r, OwnerOf(reg), i) && FedBy(r, c, reg)
    requires record in c.source.rows && RefOf(record) == r.plans[i].ref && record.key in c.source.mappings.indexable
    ensures var g, ref, after := MakingOf(c), r.plans[i].ref, HostedAfter(hosted, r);
            var card := c.render(record, F.Get(g.tables.academies, record.key));
            var listing := Listing(g.tables, record.key, c.titles);
            && Shows(after, OwnerOf(reg), ref, listing)
            && (HasLanguage(card, l) ==> Shows(InLanguage(after, l), OwnerOf(reg), ref, listing))
            && forall id | id in InLanguage(after, l) && OwnerOf(reg)(id) == Some(ref) ::
                 HasLanguage(card, l) && after[id].body == BodyIn(card, l)
  {
    var g, ref := MakingOf(c), r.plans[i].ref;
    var card := c.render(record, F.Get(g.tables.academies, record.key));
    var listing := Listing(g.tables, record.key, c.titles);
    AskedFor(rows, hosted, r, reg, i, c);
    forall shard: Shard
      ensures shard in ShardsFor(r, ref) <==> shard in ObjectsOf(g, record)
    {
      TaskGetsItsObjects(r, c, reg, record, shard);
    }
    AskedForIsLoaded(c.source, Elems(r.task.keys), c.loaded, record);
    IndexedShowsMemberships(rows, hosted, r, OwnerOf(reg), i, card, listing);
    IndexedShowsEachLanguage(rows, hosted, r, OwnerOf(reg), i, card, listing, l);
  }

  lemma ShownAsListed(hosted: Hosted, owner: Owner, ref: ContentRef, t: F.Tables, k: string, titles: Titles, f: Facets)
    requires Shows(hosted, owner, ref, Listing(t, k, titles)) && f == FacetsOf(L.At(t, k))
    requires forall id | id in hosted && owner(id) == Some(ref) :: Fits(hosted[id], f)
    ensures ShownAs(hosted, owner, ref, f)
  {
    ListingHolds(t, k, titles);
  }

  /** After an INDEXED outcome the index shows a record under exactly what the facet passes collected for it. */
  lemma IndexShowsResult(
    rows: Rows, hosted: Hosted, r: Round, reg: Registry, i: nat, c: Call, record: F.Metadata)
    requires EndsIndexed(rows, hosted, r, OwnerOf(reg), i) && FedBy(r, c, reg)
    requires record in c.source.rows && RefOf(record) == r.plans[i].ref && record.key in c.source.mappings.indexable
    ensures var f, ref := Result(c.source, c.loaded, record.key), r.plans[i].ref;
            && ShownAs(HostedAfter(hosted, r), OwnerOf(reg), ref, f)
            && ShownInItsLanguages(HostedAfter(hosted, r), OwnerOf(reg), ref, c.render(record, f.academies), f)
  {
    var f, ref, after := Result(c.source, c.loaded, record.key), r.plans[i].ref, HostedAfter(hosted, r);
    var t, card := MakingOf(c).tables, c.render(record, f.academies);
    forall id | id in after && OwnerOf(reg)(id) == Some(ref)
      ensures Fits(after[id], f)
    {
      HostedFits(rows, hosted, r, reg, i, c, record, id);
    }
    ShowsListing(rows, hosted, r, reg, i, c, record, English);
    ShownAsListed(after, OwnerOf(reg), ref, t, record.key, c.titles, f);
    forall l
      ensures HasLanguage(card, l) ==> ShownAs(InLanguage(after, l), OwnerOf(reg), ref, f)
      ensures forall id | id in InLanguage(after, l) && OwnerOf(reg)(id) == Some(ref) ::
                HasLanguage(card, l) && after[id].body == BodyIn(card, l)
    {
      ShowsListing(rows, hosted, r, reg, i, c, record, l);
      if HasLanguage(card, l) {
        ShownAsListed(InLanguage(after, l), OwnerOf(reg), ref, t, record.key, c.titles, f);
      }
    }
  }

  /**
   The index shows a course or program in exactly the catalogs, customers, queries and academies that the content table
   says it should be in. What it deserves mentions neither the batch, nor what was hosted before, nor what failed for
   other records.
   */
  lemma IndexShowsWhatTheTableSays(
    rows: Rows, hosted: Hosted, r: Round, reg: Registry, i: nat, c: Call, record: F.Metadata)
    requires EndsIndexed(rows, hosted, r, OwnerOf(reg), i) && FedBy(r, c, reg)
    requires record in c.source.rows && RefOf(record) == r.plans[i].ref && record.key in c.source.mappings.indexable
    requires !record.contentType.LearnerPathway?
    ensures var f, ref := Deserved(c.source, record), r.plans[i].ref;
            && ShownAs(HostedAfter(hosted, r), OwnerOf(reg), ref, f)
            && ShownInItsLanguages(HostedAfter(hosted, r), OwnerOf(reg), ref, c.render(record, f.academies), f)
  {
    IndexShowsResult(rows, hosted, r, reg, i, c, record);
    AskedFor(rows, hosted, r, reg, i, c);
    RequestedGetsDeserved(c.source, Elems(r.task.keys), c.loaded, record);
  }

  /** A pathway is shown as the table says if and only if its programs' shared catalogs reach it anyway. */
  lemma IndexShowsPathway(
    rows: Rows, hosted: Hosted, r: Round, reg: Registry, i: nat, c: Call, record: F.Metadata)
    requires EndsIndexed(rows, hosted, r, OwnerOf(reg), i) && FedBy(r, c, reg)
    requires record in c.source.rows && RefOf(record) == r.plans[i].ref && record.key in c.source.mappings.indexable
    requires record.contentType.LearnerPathway?
    ensures ShownAs(HostedAfter(hosted, r), OwnerOf(reg), r.plans[i].ref, PathwayDeserves(c.source, record.key))
            <==> SuppliedElsewhere(c.source, Elems(r.task.keys), record.key)
  {
    IndexShowsResult(rows, hosted, r, reg, i, c, record);
    AskedFor(rows, hosted, r, reg, i, c);
    PathwayGetsDeservedExactly(c.source, Elems(r.task.keys), c.loaded, record);
  }

  // ---------------------------------------------------------------- entry by entry

  /** Each entry shown is one the rows of the table call for, and each of those is shown. */
  ghost predicate ShownEntries(hosted: Hosted, owner: Owner, ref: ContentRef, s: Source, m: F.Metadata) {
    var k, shared := m.key, SharedFor(s, m);
    && (forall u :: u in CatalogsShown(hosted, owner, ref) <==> HasCatalog(s, k, shared, u))
    && (forall e :: e in CustomersShown(hosted, owner, ref) <==> HasCustomer(s, k, shared, e))
    && (forall q :: q in QueriesShown(hosted, owner, ref) <==> exists t :: HasQuery(s, k, shared, (q, t)))
    && (forall id, a | id in hosted && owner(id) == Some(ref) ::
          a in hosted[id].body.academyUuids <==> HasAcademy(s, k, shared, a))
    && (forall id, t | id in hosted && owner(id) == Some(ref) && hosted[id].facet.QueryFacet? ::
          t in hosted[id].facet.titles
          <==> (t != "" && exists q :: HasQuery(s, k, shared, (q, Some(t))) && q in hosted[id].facet.uuids)
               || (t in {"A la carte", "Subscription"} && exists q :: HasQuery(s, k, shared, (q, Some(t)))))
  }

  lemma EntriesShown(hosted: Hosted, owner: Owner, ref: ContentRef, s: Source, m: F.Metadata, f: Facets)
    requires ShownAs(hosted, owner, ref, f) && FiledAndShared(s, m.key, SharedFor(s, m), f)
    ensures ShownEntries(hosted, owner, ref, s, m)
  {
    forall q
      ensures q in QueriesShown(hosted, owner, ref) <==> exists t :: HasQuery(s, m.key, SharedFor(s, m), (q, t))
    {
      if q in UuidsIn(f.queries) {
        var p :| p in f.queries && p.0 == q;
        assert p == (q, p.1);
      }
      if t :| HasQuery(s, m.key, SharedFor(s, m), (q, t)) {
        assert (q, t) in f.queries;
      }
    }
  }

  /**
   After an INDEXED outcome a course is in a catalog exactly when one of its own rows, or a run of it, counts under a
   query of that catalog; a program also when all its courses are indexable and in it. So with customers, queries and
   academies, over the whole index and in each language the record has.
   */
  lemma IndexShowsEntries(
    rows: Rows, hosted: Hosted, r: Round, reg: Registry, i: nat, c: Call, record: F.Metadata)
    requires EndsIndexed(rows, hosted, r, OwnerOf(reg), i) && FedBy(r, c, reg)
    requires record in c.source.rows && RefOf(record) == r.plans[i].ref && record.key in c.source.mappings.indexable
    requires !record.contentType.LearnerPathway?
    ensures var after, card := HostedAfter(hosted, r), c.render(record, Deserved(c.source, record).academies);
            && ShownEntries(after, OwnerOf(reg), r.plans[i].ref, c.source, record)
            && (forall l | HasLanguage(card, l) ::
                  ShownEntries(InLanguage(after, l), OwnerOf(reg), r.plans[i].ref, c.source, record))
  {
    var after, f, ref := HostedAfter(hosted, r), Deserved(c.source, record), r.plans[i].ref;
    IndexShowsWhatTheTableSays(rows, hosted, r, reg, i, c, record);
    DeservedEntries(c.source, record);
    EntriesShown(after, OwnerOf(reg), ref, c.source, record, f);
    forall l | HasLanguage(c.render(record, f.academies), l)
      ensures ShownEntries(InLanguage(after, l), OwnerOf(reg), ref, c.source, record)
    {
      EntriesShown(InLanguage(after, l), OwnerOf(reg), ref, c.source, record, f);
    }
  }

  /** A pathway is in a catalog exactly when a row of its own is, or an indexable member is as this batch sees it. */
  lemma IndexShowsPathwayEntries(
    rows: Rows, hosted: Hosted, r: Round, reg: Registry, i: nat, c: Call, record: F.Metadata)
    requires EndsIndexed(rows, hosted, r, OwnerOf(reg), i) && FedBy(r, c, reg)
    requires record in c.source.rows && RefOf(record) == r.plans[i].ref && record.key in c.source.mappings.indexable
    requires record.contentType.LearnerPathway?
    ensures var f, ref := Result(c.source, c.loaded, record.key), r.plans[i].ref;
            && PathwayFiled(c.source, Elems(r.task.keys), record.key, f)
            && ShownAs(HostedAfter(hosted, r), OwnerOf(reg), ref, f)
            && ShownInItsLanguages(HostedAfter(hosted, r), OwnerOf(reg), ref, c.render(record, f.academies), f)
  {
    IndexShowsResult(rows, hosted, r, reg, i, c, record);
    AskedFor(rows, hosted, r, reg, i, c);
    PathwayEntries(c.source, Elems(r.task.keys), c.loaded, record);
  }
}
