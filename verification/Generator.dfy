/**
 The generator's last loop: the objects of every loaded record, entered by objectID into one dictionary shared by the
 whole batch, and the filter that hands each requested key the objects filed under its own aggregation key.
 */
module Generator {
  import opened Prelude
  import opened ObjectIds
  import opened ContentRefs
  import opened SearchIndex
  import opened Sorting
  import opened Shards
  import opened ShardFacets
  import opened BatchEffects
  import opened FacetTables
  import opened FacetLaws
  import opened FacetInheritance

  /** What is rendered of a record and its collected academies: everything its objects carry but their facet. */
  type Renderer = (Metadata, set<string>) -> Card

  /** The title of each query. The uuids of catalog queries are unique in the database. */
  type Titles = string -> Option<string>

  ghost predicate Titled(ms: seq<Metadata>, flag: bool, titles: Titles) {
    forall m, q | m in ms && CountsUnder(m, flag, q) :: q.title == titles(q.uuid)
  }

  // ---------------------------------------------------------------- the lists handed to the sharding

  function UuidsIn(queries: set<QueryTuple>): set<string> {
    set q | q in queries :: q.0
  }

  ghost predicate AllTitled(queries: set<QueryTuple>, titles: Titles) {
    forall q | q in queries :: q.1 == titles(q.0)
  }

  /** Distinct queries have distinct uuids, so that sorting the pairs is sorting by uuid. */
  ghost function QueryList(queries: set<QueryTuple>, titles: Titles): (r: seq<Query>)
    ensures UuidsOf(r) == SortedOf(UuidsIn(queries))
  {
    var uuids := SortedOf(UuidsIn(queries));
    seq(|uuids|, i requires 0 <= i < |uuids| => Query(uuids[i], titles(uuids[i])))
  }

  ghost function Listing(t: Tables, k: string, titles: Titles): Memberships {
    Memberships(SortedOf(Get(t.catalogs, k)), SortedOf(Get(t.customers, k)), QueryList(Get(t.queries, k), titles))
  }

  /** The lists hold the collected sets, each entry once. */
  lemma ListingHolds(t: Tables, k: string, titles: Titles)
    ensures var m := Listing(t, k, titles);
            && Elems(m.catalogs) == Get(t.catalogs, k) && NoDup(m.catalogs)
            && Elems(m.customers) == Get(t.customers, k) && NoDup(m.customers)
            && Elems(UuidsOf(m.queries)) == UuidsIn(Get(t.queries, k)) && NoDup(UuidsOf(m.queries))
            && forall q | q in m.queries :: q.title == titles(q.uuid)
  {
    var m := Listing(t, k, titles);
    StrictImpliesNoDup(m.catalogs);
    StrictImpliesNoDup(m.customers);
    StrictImpliesNoDup(UuidsOf(m.queries));
  }

  method ListQueries(queries: set<QueryTuple>, ghost titles: Titles) returns (r: seq<Query>)
    requires AllTitled(queries, titles)
    ensures r == QueryList(queries, titles)
  {
    var uuids := SortedList(set q | q in queries :: q.0);
    r := [];
    for i := 0 to |uuids|
      invariant r == QueryList(queries, titles)[..i]
    {
      assert uuids[i] in Elems(uuids);
      var q :| q in queries && q.0 == uuids[i];
      r := r + [Query(q.0, q.1)];
    }
  }

  // ---------------------------------------------------------------- the titles of collected queries

  /** Every query tuple anywhere in the dictionaries carries its query's title. */
  ghost predicate TablesTitled(t: Tables, titles: Titles) {
    forall x :: AllTitled(Get(t.queries, x), titles) && AllTitled(Get(t.queryByCatalog, x), titles)
  }

  lemma FirstPassTitled(ms: seq<Metadata>, flag: bool, titles: Titles)
    requires Titled(ms, flag, titles)
    ensures TablesTitled(AddRecords(EMPTY_TABLES, ms, flag, 0), titles)
  {
    var t, asks, links := AddRecords(EMPTY_TABLES, ms, flag, 0), AsksFrom(ms, flag, 0), LinksFrom(ms, flag, 0);
    forall m, q | m in ms && q in AssociatedQueries(m, flag)
      ensures q.title == titles(q.uuid)
    {
      AssociatedExactly(m, flag, q);
    }
    forall x: string
      ensures AllTitled(Get(t.queries, x), titles) && AllTitled(Get(t.queryByCatalog, x), titles)
    {
      FirstPassHolds(ms, flag, x);
      assert Get(t.queries, x) == QueriesOf(asks, x) && Get(t.queryByCatalog, x) == QueryOfCatalog(links, x);
    }
  }

  lemma {:induction false} SecondPassTitled(
    t: Tables, ms: seq<Metadata>, courses: Multimap<string>, i: nat, titles: Titles)
    requires i <= |ms| && TablesTitled(t, titles)
    ensures TablesTitled(SecondPass(t, ms, courses, i), titles)
    decreases |ms| - i
  {
    if i < |ms| {
      var next := if ms[i].contentType.Program? then AbsorbCommon(t, ms[i].key, Get(courses, ms[i].key)) else t;
      forall x: string
        ensures AllTitled(Get(next.queries, x), titles) && AllTitled(Get(next.queryByCatalog, x), titles)
      {
        assert AllTitled(Get(t.queries, x), titles) && AllTitled(Get(t.queryByCatalog, x), titles);
        assert forall u :: AllTitled(Get(t.queryByCatalog, u), titles);
      }
      SecondPassTitled(next, ms, courses, i + 1, titles);
    }
  }

  lemma {:induction false} ThirdPassTitled(
    t: Tables, ms: seq<Metadata>, members: Multimap<string>, i: nat, titles: Titles)
    requires i <= |ms| && TablesTitled(t, titles)
    ensures TablesTitled(ThirdPass(t, ms, members, i), titles)
    decreases |ms| - i
  {
    if i < |ms| {
      var next :=
        if ms[i].contentType.LearnerPathway? then AbsorbMembers(t, ms[i].key, Get(members, ms[i].key)) else t;
      forall x: string
        ensures AllTitled(Get(next.queries, x), titles) && AllTitled(Get(next.queryByCatalog, x), titles)
      {
        assert AllTitled(Get(t.queries, x), titles) && AllTitled(Get(t.queryByCatalog, x), titles);
        assert forall u :: AllTitled(Get(t.queries, u), titles);
      }
      ThirdPassTitled(next, ms, members, i + 1, titles);
    }
  }

  lemma AllPassesTitled(ms: seq<Metadata>, courses: Multimap<string>, members: Multimap<string>, flag: bool,
                        titles: Titles)
    requires Titled(ms, flag, titles)
    ensures TablesTitled(AllPasses(ms, courses, members, flag), titles)
  {
    var t := AddRecords(EMPTY_TABLES, ms, flag, 0);
    FirstPassTitled(ms, flag, titles);
    SecondPassTitled(t, ms, courses, 0, titles);
    ThirdPassTitled(SecondPass(t, ms, courses, 0), ms, members, 0, titles);
  }

  // ---------------------------------------------------------------- the shared dictionary

  /** What one call of the generator works with: the collected dictionaries, the rendering and the titles. */
  datatype Making = Making(tables: Tables, render: Renderer, titles: Titles)

  ghost function ObjectsOf(g: Making, m: Metadata): seq<Shard> {
    AllShards(g.render(m, Get(g.tables.academies, m.key)), Listing(g.tables, m.key, g.titles))
  }

  /** The objects of each record in turn; runs have none of their own. */
  ghost function ObjectLists(g: Making, ms: seq<Metadata>): (lists: seq<seq<Shard>>)
    ensures |lists| == |ms|
    ensures forall i :: 0 <= i < |ms| ==> lists[i] == if ms[i].contentType.CourseRun? then [] else ObjectsOf(g, ms[i])
  {
    seq(|ms|, i requires 0 <= i < |ms| => if ms[i].contentType.CourseRun? then [] else ObjectsOf(g, ms[i]))
  }

  ghost function AllObjects(g: Making, ms: seq<Metadata>): seq<Shard> {
    Flatten(ObjectLists(g, ms))
  }

  /** The dictionary of the whole batch; the objects of videos are entered last. */
  ghost function ProductsOf(g: Making, ms: seq<Metadata>, videos: seq<Shard>): Hosted {
    Gathered(map[], AllObjects(g, ms) + videos)
  }

  method ListMemberships(t: Tables, k: string, ghost titles: Titles) returns (m: Memberships)
    requires AllTitled(Get(t.queries, k), titles)
    ensures m == Listing(t, k, titles)
  {
    var catalogs := SortedList(Get(t.catalogs, k));
    var customers := SortedList(Get(t.customers, k));
    var queries := ListQueries(Get(t.queries, k), titles);
    m := Memberships(catalogs, customers, queries);
  }

  method EnterRecord(table: ProductTable, m: Metadata, t: Tables, render: Renderer, ghost titles: Titles)
    requires TablesTitled(t, titles)
    modifies table
    ensures table.products == Gathered(old(table.products), ObjectsOf(Making(t, render, titles), m))
  {
    assert AllTitled(Get(t.queries, m.key), titles);
    var listing := ListMemberships(t, m.key, titles);
    table.AddMetadata(render(m, Get(t.academies, m.key)), listing);
  }

  method EnterRecords(table: ProductTable, ms: seq<Metadata>, t: Tables, render: Renderer, ghost titles: Titles)
    requires TablesTitled(t, titles) && table.products == map[]
    modifies table
    ensures table.products == Gathered(map[], AllObjects(Making(t, render, titles), ms))
  {
    ghost var g := Making(t, render, titles);
    ghost var lists := ObjectLists(g, ms);
    for i := 0 to |ms|
      invariant table.products == Gathered(map[], Flatten(lists[..i]))
    {
      assert lists[..i + 1][..i] == lists[..i];
      GatheredConcat(map[], Flatten(lists[..i]), lists[i]);
      if !ms[i].contentType.CourseRun? {
        EnterRecord(table, ms[i], t, render, titles);
      }
    }
    assert lists[..|ms|] == lists;
  }

  /**
   `_get_algolia_products_for_batch`, from the loaded records on. The discarding of objects generated by an earlier
   batch never finds any here: each incremental batch starts with an empty set of generated ids.
   */
  method ProductsForBatch(
    ms: seq<Metadata>, courses: Multimap<string>, members: Multimap<string>, flag: bool, render: Renderer,
    videos: seq<Shard>, ghost titles: Titles)
    returns (products: Hosted)
    requires forall m :: m in ms && m.contentType.Program? ==> m.key in courses
    requires forall m :: m in ms && m.contentType.LearnerPathway? ==> m.key in members
    requires Titled(ms, flag, titles)
    ensures products == ProductsOf(Making(AllPasses(ms, courses, members, flag), render, titles), ms, videos)
  {
    var collector := new FacetCollector();
    collector.CollectAll(ms, courses, members, flag);
    var t := collector.Value();
    AllPassesTitled(ms, courses, members, flag, titles);
    var table := new ProductTable();
    EnterRecords(table, ms, t, render, titles);
    table.AddByObjectId(videos);
    GatheredConcat(map[], AllObjects(Making(t, render, titles), ms), videos);
    products := table.products;
  }

  // ---------------------------------------------------------------- handing each key its objects

  /** The dictionary's values, each once, in some order. */
  method Values(products: Hosted) returns (objects: seq<Shard>)
    requires forall id | id in products :: products[id].objectId == id
    ensures NoDup(objects) && Elems(objects) == set id | id in products :: products[id]
  {
    objects := [];
    var rest := products.Keys;
    while rest != {}
      invariant rest <= products.Keys && NoDup(objects)
      invariant Elems(objects) == set id | id in products && id !in rest :: products[id]
      decreases rest
    {
      var id :| id in rest;
      assert products[id] !in Elems(objects);
      objects := objects + [products[id]];
      rest := rest - {id};
    }
  }

  function Picked(objects: seq<Shard>, aggregationKey: string): seq<Shard> {
    if objects == [] then []
    else
      var (init, last) := (objects[..|objects| - 1], objects[|objects| - 1]);
      Picked(init, aggregationKey) + if last.aggregationKey == aggregationKey then [last] else []
  }

  function ListFor(generated: map<string, seq<Shard>>, key: string): seq<Shard> {
    if key in generated then generated[key] else []
  }

  ghost predicate BucketOf(generated: map<string, seq<Shard>>, contentType: ContentType, keys: seq<string>,
                           objects: seq<Shard>, key: string)
  {
    ListFor(generated, key)
    == if key in keys then Picked(objects, AggregationKeyFor(ContentRef(contentType, key))) else []
  }

  ghost predicate Bucketed(
    generated: map<string, seq<Shard>>, contentType: ContentType, keys: seq<string>, objects: seq<Shard>)
  {
    forall key :: BucketOf(generated, contentType, keys, objects, key)
  }

  /** `_build_objects_by_content_key`: one bucket a requested key, everything filed under another key left out. */
  method BucketByContentKey(contentType: ContentType, keys: seq<string>, objects: seq<Shard>)
    returns (generated: map<string, seq<Shard>>)
    ensures Bucketed(generated, contentType, keys, objects)
  {
    var keyOf := KeysByAggregationKey(contentType, keys);
    generated := map[];
    for i := 0 to |objects|
      invariant Bucketed(generated, contentType, keys, objects[..i])
    {
      ghost var before, seen := generated, objects[..i + 1];
      if objects[i].aggregationKey in keyOf {
        var key := keyOf[objects[i].aggregationKey];
        generated := generated[key := ListFor(generated, key) + [objects[i]]];
      }
      forall key: string
        ensures BucketOf(generated, contentType, keys, seen, key)
      {
        assert BucketOf(before, contentType, keys, objects[..i], key);
        PickedOneMore(objects, i, AggregationKeyFor(ContentRef(contentType, key)));
      }
    }
    assert objects[..|objects|] == objects;
  }

  lemma PickedOneMore(objects: seq<Shard>, i: nat, aggregationKey: string)
    requires i < |objects|
    ensures Picked(objects[..i + 1], aggregationKey)
            == Picked(objects[..i], aggregationKey)
               + if objects[i].aggregationKey == aggregationKey then [objects[i]] else []
  {
    assert objects[..i + 1][..i] == objects[..i];
  }

  method KeysByAggregationKey(contentType: ContentType, keys: seq<string>) returns (keyOf: map<string, string>)
    ensures forall a | a in keyOf :: keyOf[a] in keys && AggregationKeyFor(ContentRef(contentType, keyOf[a])) == a
    ensures forall key | key in keys :: AggregationKeyFor(ContentRef(contentType, key)) in keyOf
              && keyOf[AggregationKeyFor(ContentRef(contentType, key))] == key
  {
    keyOf := map[];
    for i := 0 to |keys|
      invariant forall a | a in keyOf :: keyOf[a] in keys && AggregationKeyFor(ContentRef(contentType, keyOf[a])) == a
      invariant forall key | key in keys[..i] :: AggregationKeyFor(ContentRef(contentType, key)) in keyOf
    {
      assert keys[..i + 1] == keys[..i] + [keys[i]];
      keyOf := keyOf[AggregationKeyFor(ContentRef(contentType, keys[i])) := keys[i]];
    }
    assert keys[..|keys|] == keys;
    forall key | key in keys
      ensures keyOf[AggregationKeyFor(ContentRef(contentType, key))] == key
    {
      var other := keyOf[AggregationKeyFor(ContentRef(contentType, key))];
      AggregationKeyInjective(ContentRef(contentType, other), ContentRef(contentType, key));
    }
  }

  ghost predicate SelfKeyed(products: Hosted) {
    forall id | id in products :: products[id].objectId == id
  }

  ghost predicate FiledAs(products: Hosted, ref: ContentRef, shard: Shard) {
    && shard.objectId in products && products[shard.objectId] == shard
    && shard.aggregationKey == AggregationKeyFor(ref)
  }

  /** Each requested key is given exactly the products filed under it, each once; any other key is given nothing. */
  ghost predicate GeneratedFrom(
    generated: map<string, seq<Shard>>, contentType: ContentType, keys: seq<string>, products: Hosted)
  {
    && (forall key :: NoDup(ListFor(generated, key)))
    && forall key, shard :: shard in ListFor(generated, key)
                            <==> key in keys && FiledAs(products, ContentRef(contentType, key), shard)
  }

  lemma {:induction false} PickedMembers(objects: seq<Shard>, aggregationKey: string)
    ensures forall shard :: shard in Picked(objects, aggregationKey)
                            <==> shard in objects && shard.aggregationKey == aggregationKey
    ensures NoDup(objects) ==> NoDup(Picked(objects, aggregationKey))
  {
    if objects != [] {
      var init, last := objects[..|objects| - 1], objects[|objects| - 1];
      assert objects == init + [last];
      PickedMembers(init, aggregationKey);
      if NoDup(objects) {
        assert last !in init;
      }
    }
  }

  /** Whatever is in a dictionary was entered into it, under its own id. */
  lemma {:induction false} Entries(shards: seq<Shard>)
    ensures SelfKeyed(Gathered(map[], shards))
    ensures forall id | id in Gathered(map[], shards) :: Gathered(map[], shards)[id] in shards
  {
    if shards != [] {
      var init, last := shards[..|shards| - 1], shards[|shards| - 1];
      assert Puts(shards)[..|shards| - 1] == Puts(init);
      Entries(init);
      assert shards == init + [last];
    }
  }

  /** `_build_objects_by_content_key` from the loaded records on. */
  method ObjectsByContentKey(
    contentType: ContentType, keys: seq<string>, ms: seq<Metadata>, courses: Multimap<string>,
    members: Multimap<string>, flag: bool, render: Renderer, videos: seq<Shard>, ghost titles: Titles)
    returns (generated: map<string, seq<Shard>>)
    requires forall m :: m in ms && m.contentType.Program? ==> m.key in courses
    requires forall m :: m in ms && m.contentType.LearnerPathway? ==> m.key in members
    requires Titled(ms, flag, titles)
    ensures GeneratedFrom(generated, contentType, keys,
                          ProductsOf(Making(AllPasses(ms, courses, members, flag), render, titles), ms, videos))
  {
    var products := ProductsForBatch(ms, courses, members, flag, render, videos, titles);
    ghost var g := Making(AllPasses(ms, courses, members, flag), render, titles);
    Entries(AllObjects(g, ms) + videos);
    var objects := Values(products);
    generated := BucketByContentKey(contentType, keys, objects);
    BucketsAreFiled(generated, contentType, keys, objects, products);
  }

  lemma BucketsAreFiled(generated: map<string, seq<Shard>>, contentType: ContentType, keys: seq<string>,
                        objects: seq<Shard>, products: Hosted)
    requires SelfKeyed(products) && Bucketed(generated, contentType, keys, objects)
    requires NoDup(objects) && Elems(objects) == set id | id in products :: products[id]
    ensures GeneratedFrom(generated, contentType, keys, products)
  {
    forall key
      ensures NoDup(ListFor(generated, key))
      ensures forall shard :: shard in ListFor(generated, key)
                              <==> key in keys && FiledAs(products, ContentRef(contentType, key), shard)
    {
      assert BucketOf(generated, contentType, keys, objects, key);
      PickedMembers(objects, AggregationKeyFor(ContentRef(contentType, key)));
      forall shard: Shard
        ensures shard in objects <==> shard.objectId in products && products[shard.objectId] == shard
      {
        assert shard in objects <==> shard in Elems(objects);
      }
    }
  }

  // ---------------------------------------------------------------- whose products they are

  function RefOf(m: Metadata): ContentRef {
    ContentRef(m.contentType, m.key)
  }

  predicate Carries(card: Card, academies: set<string>) {
    card.english.academyUuids == academies && (card.spanish.Some? ==> card.spanish.value.academyUuids == academies)
  }

  /**
   Records have distinct keys, and each is rendered under its own type, aggregation key and registered uuid, with the
   collected academies in every language.
   */
  ghost predicate Rendered(g: Making, ms: seq<Metadata>, reg: Registry) {
    && (forall m, n | m in ms && n in ms && m.key == n.key :: m == n)
    && (forall m | m in ms && !m.contentType.CourseRun? :: RefOf(m) in reg)
    && forall m, a | m in ms && !m.contentType.CourseRun? ::
         && g.render(m, a).contentType == m.contentType
         && g.render(m, a).uuid == Some(reg[RefOf(m)])
         && g.render(m, a).aggregationKey == AggregationKeyFor(RefOf(m))
         && Carries(g.render(m, a), a)
  }

  /** A video's object has an id of its own kind and is filed under the video. */
  ghost predicate VideosApart(videos: seq<Shard>) {
    forall v | v in videos :: Parse(v.objectId).None? && forall ref :: v.aggregationKey != AggregationKeyFor(ref)
  }

  ghost predicate WellMade(g: Making, ms: seq<Metadata>, videos: seq<Shard>, reg: Registry) {
    GoodRegistry(reg) && Rendered(g, ms, reg) && VideosApart(videos)
  }

  ghost predicate IsOwn(g: Making, ms: seq<Metadata>, m: Metadata, shard: Shard) {
    m in ms && !m.contentType.CourseRun? && shard in ObjectsOf(g, m)
  }

  lemma WhoseObject(g: Making, ms: seq<Metadata>, shard: Shard)
    ensures shard in AllObjects(g, ms) <==> exists m :: IsOwn(g, ms, m, shard)
  {
    var lists := ObjectLists(g, ms);
    FlattenMembers(lists);
    if i :| 0 <= i < |lists| && shard in lists[i] {
      assert IsOwn(g, ms, ms[i], shard);
    }
    if m :| IsOwn(g, ms, m, shard) {
      var i :| 0 <= i < |ms| && ms[i] == m;
      assert shard in lists[i];
    }
  }

  lemma OwnerIs(reg: Registry, ref: ContentRef, id: string)
    requires GoodRegistry(reg) && ref in reg && Parse(id).Some?
    requires Parse(id).value.contentType == ref.contentType && Parse(id).value.uuid == reg[ref]
    ensures OwnerOf(reg)(id) == Some(ref)
  {
  }

  /** An object tells whose it is: its id by the uuid, its aggregation key by the content key. */
  lemma OwnObject(g: Making, ms: seq<Metadata>, reg: Registry, m: Metadata, shard: Shard)
    requires GoodRegistry(reg) && Rendered(g, ms, reg) && IsOwn(g, ms, m, shard)
    ensures Parse(shard.objectId).Some? && OwnerOf(reg)(shard.objectId) == Some(RefOf(m))
    ensures shard.aggregationKey == AggregationKeyFor(RefOf(m))
    ensures shard.body.academyUuids == Get(g.tables.academies, m.key)
    ensures forall other :: other in ObjectsOf(g, m) && other.objectId == shard.objectId ==> other == shard
  {
    var card, listing := g.render(m, Get(g.tables.academies, m.key)), Listing(g.tables, m.key, g.titles);
    ShardIdsIdentify(card, listing, shard);
    var _, _, _, _ := ShardIsSlice(card, listing, shard);
    OwnerIs(reg, RefOf(m), shard.objectId);
  }

  lemma SameIdSameObject(g: Making, ms: seq<Metadata>, reg: Registry, m: Metadata, n: Metadata, a: Shard, b: Shard)
    requires GoodRegistry(reg) && Rendered(g, ms, reg)
    requires IsOwn(g, ms, m, a) && IsOwn(g, ms, n, b) && a.objectId == b.objectId
    ensures a == b
  {
    OwnObject(g, ms, reg, m, a);
    OwnObject(g, ms, reg, n, b);
  }

  lemma PutOf(shards: seq<Shard>, w: Write)
    ensures w in Puts(shards) <==> w.Put? && w.shard in shards
  {
    if w.Put? && w.shard in shards {
      var i :| 0 <= i < |shards| && shards[i] == w.shard;
      assert Puts(shards)[i] == w;
    }
  }

  lemma ObjectsConsistent(g: Making, ms: seq<Metadata>, reg: Registry)
    requires GoodRegistry(reg) && Rendered(g, ms, reg)
    ensures Consistent(Puts(AllObjects(g, ms)))
  {
    var objects := AllObjects(g, ms);
    forall v, w | v in Puts(objects) && w in Puts(objects) && v.Target() == w.Target()
      ensures v == w
    {
      PutOf(objects, v);
      PutOf(objects, w);
      WhoseObject(g, ms, v.shard);
      WhoseObject(g, ms, w.shard);
      var m :| IsOwn(g, ms, m, v.shard);
      var n :| IsOwn(g, ms, n, w.shard);
      SameIdSameObject(g, ms, reg, m, n, v.shard, w.shard);
    }
  }

  /** Every record's objects are in the dictionary as generated, whatever else was entered before and after them. */
  lemma OwnIsProduct(g: Making, ms: seq<Metadata>, videos: seq<Shard>, reg: Registry, m: Metadata, shard: Shard)
    requires WellMade(g, ms, videos, reg) && IsOwn(g, ms, m, shard)
    ensures FiledAs(ProductsOf(g, ms, videos), RefOf(m), shard)
  {
    var objects := AllObjects(g, ms);
    var before := Gathered(map[], objects);
    WhoseObject(g, ms, shard);
    PutOf(objects, Put(shard));
    ObjectsConsistent(g, ms, reg);
    ConsistentSettles(map[], Puts(objects), Put(shard));
    OwnObject(g, ms, reg, m, shard);
    forall w | w in Puts(videos)
      ensures w.Target() != shard.objectId
    {
      PutOf(videos, w);
    }
    UntouchedStays(before, Puts(videos), shard.objectId);
    GatheredConcat(map[], objects, videos);
    assert SameAt(before, ProductsOf(g, ms, videos), shard.objectId);
  }

  /** What the dictionary files under a record's aggregation key is exactly that record's objects. */
  lemma ProductsFiled(g: Making, ms: seq<Metadata>, videos: seq<Shard>, reg: Registry, ref: ContentRef, shard: Shard)
    requires WellMade(g, ms, videos, reg)
    ensures FiledAs(ProductsOf(g, ms, videos), ref, shard) <==> exists m :: RefOf(m) == ref && IsOwn(g, ms, m, shard)
  {
    if FiledAs(ProductsOf(g, ms, videos), ref, shard) {
      Entries(AllObjects(g, ms) + videos);
      assert shard in AllObjects(g, ms) + videos;
      assert shard !in videos;
      WhoseObject(g, ms, shard);
      var m :| IsOwn(g, ms, m, shard);
      OwnObject(g, ms, reg, m, shard);
      AggregationKeyInjective(RefOf(m), ref);
    }
    if m :| RefOf(m) == ref && IsOwn(g, ms, m, shard) {
      OwnIsProduct(g, ms, videos, reg, m, shard);
    }
  }

  /**
   A requested key is given exactly the objects of its own record, though they went through one dictionary together
   with those of every other loaded record; and nothing, if no such record was loaded.
   */
  lemma KeyGetsItsObjects(generated: map<string, seq<Shard>>, contentType: ContentType, keys: seq<string>,
                          g: Making, ms: seq<Metadata>, videos: seq<Shard>, reg: Registry, key: string, shard: Shard)
    requires WellMade(g, ms, videos, reg) && key in keys && !contentType.CourseRun?
    requires GeneratedFrom(generated, contentType, keys, ProductsOf(g, ms, videos))
    ensures forall m | m in ms && RefOf(m) == ContentRef(contentType, key) ::
              shard in ListFor(generated, key) <==> shard in ObjectsOf(g, m)
    ensures (forall m | m in ms :: RefOf(m) != ContentRef(contentType, key)) ==> shard !in ListFor(generated, key)
  {
    ProductsFiled(g, ms, videos, reg, ContentRef(contentType, key), shard);
    forall m | m in ms && RefOf(m) == ContentRef(contentType, key)
      ensures shard in ListFor(generated, key) <==> shard in ObjectsOf(g, m)
    {
      if shard in ObjectsOf(g, m) {
        assert IsOwn(g, ms, m, shard);
      }
    }
  }

  /** The indexer's assumptions about its generator hold of what the generator makes. */
  lemma GeneratorIsWellBehaved(r: Round, g: Making, ms: seq<Metadata>, videos: seq<Shard>, reg: Registry)
    requires WellMade(g, ms, videos, reg)
    requires GeneratedFrom(r.task.generated, r.task.contentType, r.task.keys, ProductsOf(g, ms, videos))
    ensures WellGenerated(r, OwnerOf(reg))
  {
    forall key, shard | key in r.task.generated && shard in r.task.generated[key]
      ensures var ref := ContentRef(r.task.contentType, key);
              && OwnerOf(reg)(shard.objectId) == Some(ref)
              && shard.aggregationKey == AggregationKeyFor(ref)
              && (forall other :: other in r.task.generated[key] && other.objectId == shard.objectId ==> other == shard)
    {
      var ref := ContentRef(r.task.contentType, key);
      assert shard in ListFor(r.task.generated, key);
      ProductsFiled(g, ms, videos, reg, ref, shard);
      var m :| RefOf(m) == ref && IsOwn(g, ms, m, shard);
      OwnObject(g, ms, reg, m, shard);
      forall other | other in r.task.generated[key] && other.objectId == shard.objectId
        ensures other == shard
      {
        assert other in ListFor(r.task.generated, key);
      }
    }
  }
}
