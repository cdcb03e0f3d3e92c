/** What the objects of a record say together: its memberships, each once, and nothing that was dropped. */
module ShardFacets {
  import opened Prelude
  import opened ObjectIds
  import opened ContentRefs
  import opened SearchIndex
  import opened Slicing
  import opened Sorting
  import opened Shards
  import opened IndexingStates
  import opened BatchEffects

  // ---------------------------------------------------------------- plain uuid facets

  /** Catalog (or customer) slices hold 1 to 100 uuids, ceil(n / 100) of them, each uuid in exactly one. */
  lemma UuidSlicesPartition(uuids: seq<string>, u: string)
    requires NoDup(uuids)
    ensures var ss := Slices(uuids, UUID_BATCH_SIZE);
            && (forall i :: 0 <= i < |ss| ==> 1 <= |ss[i]| <= 100)
            && |uuids| <= |ss| * 100
            && (if uuids == [] then ss == [] else (|ss| - 1) * 100 < |uuids|)
            && (u in uuids <==> exists i :: 0 <= i < |ss| && u in ss[i])
            && forall i, j | 0 <= i < |ss| && 0 <= j < |ss| :: u in ss[i] && u in ss[j] ==> i == j
  {
    var ss := Slices(uuids, UUID_BATCH_SIZE);
    SliceCount(uuids, UUID_BATCH_SIZE, 0);
    SliceOfEntry(uuids, UUID_BATCH_SIZE, u);
    forall i | 0 <= i < |ss|
      ensures 1 <= |ss[i]| <= UUID_BATCH_SIZE
    {
      SliceShape(uuids, UUID_BATCH_SIZE, 0, i);
    }
  }

  // ---------------------------------------------------------------- query facets

  lemma {:induction false} TitlesAre(queries: seq<Query>, t: string)
    ensures t in TitlesOf(queries) <==> t != "" && exists q :: q in queries && q.title == Some(t)
    ensures t in ExploreTitles(queries)
            <==> t in EXPLORE_CATALOG_TITLES && exists q :: q in queries && q.title == Some(t)
  {
    if queries != [] {
      TitlesAre(queries[1..], t);
      assert forall q :: q in queries <==> q == queries[0] || q in queries[1..];
    }
  }

  lemma UuidIn(queries: seq<Query>, u: string)
    ensures u in UuidsOf(queries) <==> exists q :: q in queries && q.uuid == u
  {
    if u in UuidsOf(queries) {
      var i :| 0 <= i < |queries| && UuidsOf(queries)[i] == u;
      assert queries[i] in queries;
    }
    if q :| q in queries && q.uuid == u {
      var i :| 0 <= i < |queries| && queries[i] == q;
      assert UuidsOf(queries)[i] == u;
    }
  }

  /**
   One query slice: its uuids are those of its queries; its titles are the non-empty titles of its queries plus
   the explore titles found anywhere in the record, and no other.
   */
  lemma QuerySliceSays(m: Memberships, i: nat, u: string, t: string)
    requires i < SliceTotal(m, QueryUuids)
    ensures var slice, facet := Slices(m.queries, UUID_BATCH_SIZE)[i], FacetAt(m, QueryUuids, i);
            && 1 <= |slice| <= UUID_BATCH_SIZE
            && |facet.uuids| == |slice|
            && (u in facet.uuids <==> exists q :: q in slice && q.uuid == u)
            && (t in facet.titles <==>
                  || (t != "" && exists q :: q in slice && q.title == Some(t))
                  || (t in {"A la carte", "Subscription"} && exists q :: q in m.queries && q.title == Some(t)))
            && StrictlySorted(facet.titles) && Sorted(facet.uuids)
  {
    var slice := Slices(m.queries, UUID_BATCH_SIZE)[i];
    SliceShape(m.queries, UUID_BATCH_SIZE, 0, i);
    SortSorts(UuidsOf(slice));
    assert u in Elems(Sort(UuidsOf(slice))) <==> u in Elems(UuidsOf(slice));
    UuidIn(slice, u);
    var titles := TitlesOf(slice) + ExploreTitles(m.queries);
    SortedSetSorts(titles);
    assert t in Elems(SortedSet(titles)) <==> t in Elems(titles);
    TitlesAre(slice, t);
    TitlesAre(m.queries, t);
  }

  /** Each query of the record lies in exactly one slice, whose object carries its uuid and its title. */
  lemma QueryInOneSlice(m: Memberships, q: Query)
    requires NoDup(UuidsOf(m.queries)) && q in m.queries
    ensures exists i :: 0 <= i < SliceTotal(m, QueryUuids) && q.uuid in FacetAt(m, QueryUuids, i).uuids
    ensures forall i, j | 0 <= i < SliceTotal(m, QueryUuids) && 0 <= j < SliceTotal(m, QueryUuids) ::
      q.uuid in FacetAt(m, QueryUuids, i).uuids && q.uuid in FacetAt(m, QueryUuids, j).uuids ==> i == j
    ensures forall i | 0 <= i < SliceTotal(m, QueryUuids) ::
      q.uuid in FacetAt(m, QueryUuids, i).uuids && q.title.Some? && q.title.value != "" ==>
        q.title.value in FacetAt(m, QueryUuids, i).titles
  {
    var ss := Slices(m.queries, UUID_BATCH_SIZE);
    DistinctUuids(m.queries);
    SliceOfEntry(m.queries, UUID_BATCH_SIZE, q);
    forall i | 0 <= i < |ss|
      ensures q.uuid in FacetAt(m, QueryUuids, i).uuids <==> q in ss[i]
      ensures q in ss[i] && q.title.Some? && q.title.value != "" ==> q.title.value in FacetAt(m, QueryUuids, i).titles
    {
      QuerySliceSays(m, i, q.uuid, if q.title.Some? then q.title.value else "");
      forall p: Query | p in ss[i] && p.uuid == q.uuid
        ensures p == q
      {
        SlicesJoin(m.queries, UUID_BATCH_SIZE, 0);
        FlattenMembers(ss);
        assert m.queries[0..] == m.queries && p in m.queries;
        SameUuidSameQuery(m.queries, p, q);
      }
    }
    var i :| 0 <= i < |ss| && q in ss[i];
    assert q.uuid in FacetAt(m, QueryUuids, i).uuids;
  }

  lemma SameUuidSameQuery(queries: seq<Query>, p: Query, q: Query)
    requires NoDup(UuidsOf(queries)) && p in queries && q in queries && p.uuid == q.uuid
    ensures p == q
  {
    var i :| 0 <= i < |queries| && queries[i] == p;
    var j :| 0 <= j < |queries| && queries[j] == q;
    assert UuidsOf(queries)[i] == UuidsOf(queries)[j];
  }

  lemma DistinctUuids(queries: seq<Query>)
    requires NoDup(UuidsOf(queries))
    ensures NoDup(queries)
  {
    forall i, j | 0 <= i < j < |queries|
      ensures queries[i] != queries[j]
    {
      assert UuidsOf(queries)[i] != UuidsOf(queries)[j];
    }
  }

  // ---------------------------------------------------------------- what the index shows for a record

  /** The catalogs under which the index currently shows the record, over all its hosted objects. */
  ghost function CatalogsShown(hosted: Hosted, owner: Owner, ref: ContentRef): set<string> {
    set id, u | id in hosted && owner(id) == Some(ref) && hosted[id].facet.CatalogFacet?
      && u in hosted[id].facet.uuids :: u
  }

  ghost function CustomersShown(hosted: Hosted, owner: Owner, ref: ContentRef): set<string> {
    set id, u | id in hosted && owner(id) == Some(ref) && hosted[id].facet.CustomerFacet?
      && u in hosted[id].facet.uuids :: u
  }

  ghost function QueriesShown(hosted: Hosted, owner: Owner, ref: ContentRef): set<string> {
    set id, u | id in hosted && owner(id) == Some(ref) && hosted[id].facet.QueryFacet?
      && u in hosted[id].facet.uuids :: u
  }

  /** The hosted objects of a record are exactly those of a generator run. */
  ghost predicate HostsExactly(hosted: Hosted, owner: Owner, ref: ContentRef, shards: seq<Shard>) {
    && (forall shard :: shard in shards ==> Reflects(hosted, Put(shard)) && owner(shard.objectId) == Some(ref))
    && (forall id :: id in hosted && owner(id) == Some(ref) ==> hosted[id] in shards)
  }

  ghost predicate HostsFacet(hosted: Hosted, owner: Owner, ref: ContentRef, id: string, f: Facet) {
    id in hosted && owner(id) == Some(ref) && hosted[id].facet == f
  }

  ghost predicate SliceShown(hosted: Hosted, owner: Owner, ref: ContentRef, m: Memberships, k: ShardKind, i: nat)
    requires i < SliceTotal(m, k)
  {
    exists id :: HostsFacet(hosted, owner, ref, id, FacetAt(m, k, i))
  }

  ghost predicate IsFacet(m: Memberships, k: ShardKind, i: nat, f: Facet) {
    i < SliceTotal(m, k) && f == FacetAt(m, k, i)
  }

  /** The facet is one of the record's slices. */
  ghost predicate FromSlice(m: Memberships, f: Facet) {
    exists k, i :: IsFacet(m, k, i, f)
  }

  /** Each slice of each facet is on one of the record's hosted objects, and nothing else is. */
  ghost predicate HostsSlices(hosted: Hosted, owner: Owner, ref: ContentRef, m: Memberships) {
    && (forall k, i: nat | i < SliceTotal(m, k) :: SliceShown(hosted, owner, ref, m, k, i))
    && (forall id | id in hosted && owner(id) == Some(ref) :: FromSlice(m, hosted[id].facet))
  }

  lemma CatalogSlices(m: Memberships, f: Facet, u: string)
    requires f.CatalogFacet? && u in f.uuids && FromSlice(m, f)
    ensures u in m.catalogs
  {
    var k, i :| IsFacet(m, k, i, f);
    InSomeSlice(m.catalogs, u);
  }

  lemma CustomerSlices(m: Memberships, f: Facet, u: string)
    requires f.CustomerFacet? && u in f.uuids && FromSlice(m, f)
    ensures u in m.customers
  {
    var k, i :| IsFacet(m, k, i, f);
    InSomeSlice(m.customers, u);
  }

  lemma QuerySlices(m: Memberships, f: Facet, u: string)
    requires f.QueryFacet? && u in f.uuids && FromSlice(m, f)
    ensures u in UuidsOf(m.queries)
  {
    var k, i: nat :| IsFacet(m, k, i, f);
    var ss := Slices(m.queries, UUID_BATCH_SIZE);
    QuerySliceSays(m, i, u, "");
    var q: Query :| q in ss[i] && q.uuid == u;
    SlicesJoin(m.queries, UUID_BATCH_SIZE, 0);
    FlattenMembers(ss);
    assert m.queries[0..] == m.queries;
    UuidIn(m.queries, u);
  }

  lemma InSomeSlice(uuids: seq<string>, u: string)
    ensures var slices := Slices(uuids, UUID_BATCH_SIZE);
            u in uuids <==> exists i :: 0 <= i < |slices| && u in slices[i]
  {
    SlicesJoin(uuids, UUID_BATCH_SIZE, 0);
    FlattenMembers(Slices(uuids, UUID_BATCH_SIZE));
    assert uuids[0..] == uuids;
  }

  lemma CatalogShown(hosted: Hosted, owner: Owner, ref: ContentRef, m: Memberships, u: string)
    requires HostsSlices(hosted, owner, ref, m)
    ensures u in CatalogsShown(hosted, owner, ref) <==> u in m.catalogs
  {
    if u in m.catalogs {
      InSomeSlice(m.catalogs, u);
      var i :| 0 <= i < |Slices(m.catalogs, UUID_BATCH_SIZE)| && u in Slices(m.catalogs, UUID_BATCH_SIZE)[i];
      assert SliceShown(hosted, owner, ref, m, CatalogUuids, i);
      var id :| HostsFacet(hosted, owner, ref, id, FacetAt(m, CatalogUuids, i));
    }
    if u in CatalogsShown(hosted, owner, ref) {
      var id :| id in hosted && owner(id) == Some(ref) && hosted[id].facet.CatalogFacet? && u in hosted[id].facet.uuids;
      CatalogSlices(m, hosted[id].facet, u);
    }
  }

  lemma CustomerShown(hosted: Hosted, owner: Owner, ref: ContentRef, m: Memberships, u: string)
    requires HostsSlices(hosted, owner, ref, m)
    ensures u in CustomersShown(hosted, owner, ref) <==> u in m.customers
  {
    if u in m.customers {
      InSomeSlice(m.customers, u);
      var i :| 0 <= i < |Slices(m.customers, UUID_BATCH_SIZE)| && u in Slices(m.customers, UUID_BATCH_SIZE)[i];
      assert SliceShown(hosted, owner, ref, m, CustomerUuids, i);
      var id :| HostsFacet(hosted, owner, ref, id, FacetAt(m, CustomerUuids, i));
    }
    if u in CustomersShown(hosted, owner, ref) {
      var id :| id in hosted && owner(id) == Some(ref) && hosted[id].facet.CustomerFacet?
        && u in hosted[id].facet.uuids;
      CustomerSlices(m, hosted[id].facet, u);
    }
  }

  lemma QueryShown(hosted: Hosted, owner: Owner, ref: ContentRef, m: Memberships, u: string)
    requires HostsSlices(hosted, owner, ref, m)
    ensures u in QueriesShown(hosted, owner, ref) <==> u in UuidsOf(m.queries)
  {
    if u in UuidsOf(m.queries) {
      var i := QueryInSomeSlice(m, u);
      assert SliceShown(hosted, owner, ref, m, QueryUuids, i);
      var id :| HostsFacet(hosted, owner, ref, id, FacetAt(m, QueryUuids, i));
    }
    if u in QueriesShown(hosted, owner, ref) {
      var id :| id in hosted && owner(id) == Some(ref) && hosted[id].facet.QueryFacet? && u in hosted[id].facet.uuids;
      QuerySlices(m, hosted[id].facet, u);
    }
  }

  lemma QueryInSomeSlice(m: Memberships, u: string) returns (i: nat)
    requires u in UuidsOf(m.queries)
    ensures i < SliceTotal(m, QueryUuids) && u in FacetAt(m, QueryUuids, i).uuids
  {
    var ss := Slices(m.queries, UUID_BATCH_SIZE);
    SlicesJoin(m.queries, UUID_BATCH_SIZE, 0);
    FlattenMembers(ss);
    assert m.queries[0..] == m.queries;
    UuidIn(m.queries, u);
    var q :| q in m.queries && q.uuid == u;
    i :| 0 <= i < |ss| && q in ss[i];
    QuerySliceSays(m, i, u, "");
  }

  /** The record is shown under exactly its memberships. */
  ghost predicate Shows(hosted: Hosted, owner: Owner, ref: ContentRef, m: Memberships) {
    && CatalogsShown(hosted, owner, ref) == Elems(m.catalogs)
    && CustomersShown(hosted, owner, ref) == Elems(m.customers)
    && QueriesShown(hosted, owner, ref) == Elems(UuidsOf(m.queries))
  }

  lemma SlicesShow(hosted: Hosted, owner: Owner, ref: ContentRef, m: Memberships)
    requires HostsSlices(hosted, owner, ref, m)
    ensures Shows(hosted, owner, ref, m)
  {
    forall u: string
      ensures u in CatalogsShown(hosted, owner, ref) <==> u in m.catalogs
      ensures u in CustomersShown(hosted, owner, ref) <==> u in m.customers
      ensures u in QueriesShown(hosted, owner, ref) <==> u in UuidsOf(m.queries)
    {
      CatalogShown(hosted, owner, ref, m, u);
      CustomerShown(hosted, owner, ref, m, u);
      QueryShown(hosted, owner, ref, m, u);
    }
  }

  /** The text is the title of one of these queries. */
  ghost predicate SomeTitle(queries: seq<Query>, t: string) {
    exists q :: q in queries && q.title == Some(t)
  }

  /** The text is the title of one of these queries, and the facet carries that query. */
  ghost predicate TitleCarried(queries: seq<Query>, f: Facet, t: string) {
    exists q :: q in queries && q.uuid in f.uuids && q.title == Some(t)
  }

  /** A query facet shows the titles of the queries it carries, and the two explore titles if any query has them. */
  ghost predicate TitlesFit(queries: seq<Query>, f: Facet)
    requires f.QueryFacet?
  {
    forall t :: t in f.titles
      <==> (t != "" && TitleCarried(queries, f, t)) || (t in {"A la carte", "Subscription"} && SomeTitle(queries, t))
  }

  lemma SliceTitles(m: Memberships, f: Facet)
    requires f.QueryFacet? && FromSlice(m, f) && NoDup(UuidsOf(m.queries))
    ensures TitlesFit(m.queries, f)
  {
    var k, i: nat :| IsFacet(m, k, i, f);
    var slice := Slices(m.queries, UUID_BATCH_SIZE)[i];
    SlicesJoin(m.queries, UUID_BATCH_SIZE, 0);
    FlattenMembers(Slices(m.queries, UUID_BATCH_SIZE));
    assert m.queries[0..] == m.queries;
    forall t: string
      ensures (exists q :: q in slice && q.title == Some(t)) <==> TitleCarried(m.queries, f, t)
    {
      SliceCarries(m, i, f, slice, t);
    }
    forall t: string
      ensures t in f.titles <==> (t != "" && exists q :: q in slice && q.title == Some(t))
                                 || (t in {"A la carte", "Subscription"} && SomeTitle(m.queries, t))
    {
      QuerySliceSays(m, i, "", t);
    }
  }

  lemma SliceCarries(m: Memberships, i: nat, f: Facet, slice: seq<Query>, t: string)
    requires NoDup(UuidsOf(m.queries)) && i < SliceTotal(m, QueryUuids) && f == FacetAt(m, QueryUuids, i)
    requires slice == Slices(m.queries, UUID_BATCH_SIZE)[i] && forall q | q in slice :: q in m.queries
    ensures (exists q :: q in slice && q.title == Some(t)) <==> TitleCarried(m.queries, f, t)
  {
    if q: Query :| q in slice && q.title == Some(t) {
      QuerySliceSays(m, i, q.uuid, t);
      assert q in m.queries && q.uuid in f.uuids;
    }
    if q: Query :| q in m.queries && q.uuid in f.uuids && q.title == Some(t) {
      QuerySliceSays(m, i, q.uuid, t);
      var p: Query :| p in slice && p.uuid == q.uuid;
      SameUuidSameQuery(m.queries, p, q);
    }
  }

  /** The part of the index whose ids are printed in one language: the index of that language. */
  ghost function InLanguage(hosted: Hosted, l: Language): Hosted {
    map id | id in hosted && Parse(id).Some? && Parse(id).value.language == l :: hosted[id]
  }

  lemma HostedSlice(hosted: Hosted, owner: Owner, ref: ContentRef, card: Card, m: Memberships,
                    l: Language, k: ShardKind, i: nat) returns (id: string)
    requires !card.oversize && HostsExactly(hosted, owner, ref, AllShards(card, m))
    requires HasLanguage(card, l) && i < SliceTotal(m, k)
    ensures id == SliceText(BaseText(card.contentType, card.uuid), l, k, i)
    ensures HostsFacet(hosted, owner, ref, id, FacetAt(m, k, i)) && hosted[id].body == BodyIn(card, l)
  {
    SliceIsMade(card, m, l, k, i);
    id := ShardAt(card, BodyIn(card, l), m, l, k, i).objectId;
  }

  /** When the index hosts exactly a record's objects, it shows the record under exactly its memberships. */
  lemma ShowsExactlyMemberships(hosted: Hosted, owner: Owner, ref: ContentRef, card: Card, m: Memberships)
    requires !card.oversize && HostsExactly(hosted, owner, ref, AllShards(card, m))
    ensures Shows(hosted, owner, ref, m)
  {
    forall k, i: nat | i < SliceTotal(m, k)
      ensures SliceShown(hosted, owner, ref, m, k, i)
    {
      var id := HostedSlice(hosted, owner, ref, card, m, English, k, i);
    }
    forall id | id in hosted && owner(id) == Some(ref)
      ensures FromSlice(m, hosted[id].facet)
    {
      var _, _, k, i := ShardIsSlice(card, m, hosted[id]);
      assert IsFacet(m, k, i, hosted[id].facet);
    }
    SlicesShow(hosted, owner, ref, m);
  }

  /** And in each language it has it shows the record so, with that language's body; in any other it shows nothing. */
  lemma ShowsInEachLanguage(
    hosted: Hosted, owner: Owner, ref: ContentRef, card: Card, m: Memberships, l: Language)
    requires !card.oversize && HostsExactly(hosted, owner, ref, AllShards(card, m))
    requires card.uuid.Some? && IsUuid(card.uuid.value) && forall id :: id in hosted ==> hosted[id].objectId == id
    ensures HasLanguage(card, l) ==> Shows(InLanguage(hosted, l), owner, ref, m)
    ensures forall id | id in InLanguage(hosted, l) && owner(id) == Some(ref) ::
              HasLanguage(card, l) && hosted[id].body == BodyIn(card, l)
  {
    var part := InLanguage(hosted, l);
    if HasLanguage(card, l) {
      forall k, i: nat | i < SliceTotal(m, k)
        ensures SliceShown(part, owner, ref, m, k, i)
      {
        var id := HostedSlice(hosted, owner, ref, card, m, l, k, i);
        ParseOfPrint(ShardId(card.contentType, card.uuid.value, l, k, i));
        assert HostsFacet(part, owner, ref, id, FacetAt(m, k, i));
      }
    }
    forall id | id in part && owner(id) == Some(ref)
      ensures HasLanguage(card, l) && hosted[id].body == BodyIn(card, l)
      ensures FromSlice(m, part[id].facet)
    {
      var body, l', k, i := ShardIsSlice(card, m, hosted[id]);
      ParseOfPrint(ShardId(card.contentType, card.uuid.value, l', k, i));
      assert IsFacet(m, k, i, hosted[id].facet);
    }
    if HasLanguage(card, l) {
      SlicesShow(part, owner, ref, m);
    }
  }

  lemma HostsWhatItIndexed(rows: Rows, hosted: Hosted, r: Round, owner: Owner, i: nat)
    requires Legal(rows, hosted, r, owner) && i < |r.plans| && Fates(r)[i].outcome.Indexed?
    requires TrackingComplete(rows, hosted, owner, r.plans[i].ref)
    ensures HostsExactly(HostedAfter(hosted, r), owner, r.plans[i].ref, ShardsFor(r, r.plans[i].ref))
    ensures ShardsFor(r, r.plans[i].ref) != []
  {
    IndexedExactly(rows, hosted, r, owner, i);
    PlanAt(rows, hosted, r, owner, i);
  }

  /**
   The end-to-end statement: with complete tracking, once a record ends INDEXED the index shows it under exactly
   its current memberships, so a dropped membership is gone even when fewer slices are needed than before.
   */
  lemma IndexedShowsMemberships(
    rows: Rows, hosted: Hosted, r: Round, owner: Owner, i: nat, card: Card, m: Memberships)
    requires Legal(rows, hosted, r, owner) && i < |r.plans| && Fates(r)[i].outcome.Indexed?
    requires TrackingComplete(rows, hosted, owner, r.plans[i].ref)
    requires forall shard :: shard in ShardsFor(r, r.plans[i].ref) <==> shard in AllShards(card, m)
    ensures Shows(HostedAfter(hosted, r), owner, r.plans[i].ref, m)
  {
    HostsAllShards(rows, hosted, r, owner, i, card, m);
    ShowsExactlyMemberships(HostedAfter(hosted, r), owner, r.plans[i].ref, card, m);
  }

  /** And each of its query objects carries the right titles. */
  lemma IndexedShowsTitles(
    rows: Rows, hosted: Hosted, r: Round, owner: Owner, i: nat, card: Card, m: Memberships, id: string)
    requires Legal(rows, hosted, r, owner) && i < |r.plans| && Fates(r)[i].outcome.Indexed?
    requires TrackingComplete(rows, hosted, owner, r.plans[i].ref)
    requires forall shard :: shard in ShardsFor(r, r.plans[i].ref) <==> shard in AllShards(card, m)
    requires NoDup(UuidsOf(m.queries)) && id in HostedAfter(hosted, r) && owner(id) == Some(r.plans[i].ref)
    requires HostedAfter(hosted, r)[id].facet.QueryFacet?
    ensures TitlesFit(m.queries, HostedAfter(hosted, r)[id].facet)
  {
    HostsAllShards(rows, hosted, r, owner, i, card, m);
    var _, _, k, n := ShardIsSlice(card, m, HostedAfter(hosted, r)[id]);
    assert IsFacet(m, k, n, HostedAfter(hosted, r)[id].facet);
    SliceTitles(m, HostedAfter(hosted, r)[id].facet);
  }

  lemma HostsAllShards(
    rows: Rows, hosted: Hosted, r: Round, owner: Owner, i: nat, card: Card, m: Memberships)
    requires Legal(rows, hosted, r, owner) && i < |r.plans| && Fates(r)[i].outcome.Indexed?
    requires TrackingComplete(rows, hosted, owner, r.plans[i].ref)
    requires forall shard :: shard in ShardsFor(r, r.plans[i].ref) <==> shard in AllShards(card, m)
    ensures !card.oversize && HostsExactly(HostedAfter(hosted, r), owner, r.plans[i].ref, AllShards(card, m))
  {
    HostsWhatItIndexed(rows, hosted, r, owner, i);
    assert ShardsFor(r, r.plans[i].ref)[0] in AllShards(card, m);
  }

  /** The same in each language the record has; in another language nothing of it is hosted. */
  lemma IndexedShowsEachLanguage(
    rows: Rows, hosted: Hosted, r: Round, owner: Owner, i: nat, card: Card, m: Memberships, l: Language)
    requires Legal(rows, hosted, r, owner) && i < |r.plans| && Fates(r)[i].outcome.Indexed?
    requires TrackingComplete(rows, hosted, owner, r.plans[i].ref)
    requires forall shard :: shard in ShardsFor(r, r.plans[i].ref) <==> shard in AllShards(card, m)
    requires card.uuid.Some? && IsUuid(card.uuid.value)
    ensures HasLanguage(card, l) ==> Shows(InLanguage(HostedAfter(hosted, r), l), owner, r.plans[i].ref, m)
    ensures forall id | id in InLanguage(HostedAfter(hosted, r), l) && owner(id) == Some(r.plans[i].ref) ::
              HasLanguage(card, l) && HostedAfter(hosted, r)[id].body == BodyIn(card, l)
  {
    HostsAllShards(rows, hosted, r, owner, i, card, m);
    StaysWellFiled(rows, hosted, r, owner);
    ShowsInEachLanguage(HostedAfter(hosted, r), owner, r.plans[i].ref, card, m, l);
  }

  // ---------------------------------------------------------------- reading an id's record off the id

  /** A record's registry entry: the uuid under which its objects are printed. */
  type Registry = map<ContentRef, string>

  ghost predicate GoodRegistry(reg: Registry) {
    && (forall ref :: ref in reg ==> IsUuid(reg[ref]))
    && (forall a, b :: a in reg && b in reg && a.contentType == b.contentType && reg[a] == reg[b] ==> a == b)
  }

  /** The owner of an objectID, read off the id itself. */
  ghost function OwnerOf(reg: Registry): Owner {
    (id: string) =>
      match Parse(id)
      case None => None
      case Some(s) =>
        if exists ref :: ref in reg && ref.contentType == s.contentType && reg[ref] == s.uuid
        then var ref :| ref in reg && ref.contentType == s.contentType && reg[ref] == s.uuid; Some(ref)
        else None
  }
}
