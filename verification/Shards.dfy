/** Cutting one record's memberships into index objects of at most a hundred entries each. */
module Shards {
  import opened Prelude
  import opened ObjectIds
  import opened SearchIndex
  import opened Slicing
  import opened Sorting

  const UUID_BATCH_SIZE: nat := 100

  const EXPLORE_CATALOG_TITLES: seq<string> := ["A la carte", "Subscription"]

  // ---------------------------------------------------------------- one record's objects

  /** A catalog query by uuid; its title may be missing. */
  datatype Query = Query(uuid: string, title: Option<string>)

  /** What the generator takes from one record. `spanish` is absent when no translation was computed. */
  datatype Card = Card(
    contentType: ContentType,
    uuid: Option<string>,
    aggregationKey: string,
    english: Body,
    spanish: Option<Body>,
    oversize: bool)

  /** The record's memberships, each list already sorted. */
  datatype Memberships = Memberships(catalogs: seq<string>, customers: seq<string>, queries: seq<Query>)

  function UuidsOf(queries: seq<Query>): (r: seq<string>)
    ensures |r| == |queries|
  {
    seq(|queries|, i requires 0 <= i < |queries| => queries[i].uuid)
  }

  /** The titles that are present and not empty, in order. */
  function TitlesOf(queries: seq<Query>): seq<string> {
    if queries == [] then []
    else
      var rest := TitlesOf(queries[1..]);
      match queries[0].title
      case Some(t) => if t == "" then rest else [t] + rest
      case None => rest
  }

  function ExploreTitles(queries: seq<Query>): seq<string> {
    if queries == [] then []
    else
      var rest := ExploreTitles(queries[1..]);
      match queries[0].title
      case Some(t) => if t in EXPLORE_CATALOG_TITLES then [t] + rest else rest
      case None => rest
  }

  function SliceTotal(m: Memberships, k: ShardKind): nat {
    match k
    case CatalogUuids => |Slices(m.catalogs, UUID_BATCH_SIZE)|
    case CustomerUuids => |Slices(m.customers, UUID_BATCH_SIZE)|
    case QueryUuids => |Slices(m.queries, UUID_BATCH_SIZE)|
  }

  /** What slice i of a facet carries. Every query slice repeats the explore titles of the whole record. */
  function FacetAt(m: Memberships, k: ShardKind, i: nat): Facet
    requires i < SliceTotal(m, k)
  {
    match k
    case CatalogUuids => CatalogFacet(Slices(m.catalogs, UUID_BATCH_SIZE)[i])
    case CustomerUuids => CustomerFacet(Slices(m.customers, UUID_BATCH_SIZE)[i])
    case QueryUuids =>
      var slice := Slices(m.queries, UUID_BATCH_SIZE)[i];
      QueryFacet(Sort(UuidsOf(slice)), SortedSet(TitlesOf(slice) + ExploreTitles(m.queries)))
  }

  function ShardAt(card: Card, body: Body, m: Memberships, l: Language, k: ShardKind, i: nat): Shard
    requires i < SliceTotal(m, k)
  {
    Shard(SliceText(BaseText(card.contentType, card.uuid), l, k, i), card.aggregationKey, body, FacetAt(m, k, i))
  }

  function FacetShards(card: Card, body: Body, m: Memberships, l: Language, k: ShardKind): (r: seq<Shard>)
    ensures |r| == SliceTotal(m, k)
    ensures forall i :: 0 <= i < |r| ==> r[i] == ShardAt(card, body, m, l, k, i)
  {
    seq(SliceTotal(m, k), i requires 0 <= i < SliceTotal(m, k) => ShardAt(card, body, m, l, k, i))
  }

  function LanguageShards(card: Card, body: Body, m: Memberships, l: Language): seq<Shard> {
    FacetShards(card, body, m, l, CatalogUuids)
    + FacetShards(card, body, m, l, CustomerUuids)
    + FacetShards(card, body, m, l, QueryUuids)
  }

  /** All objects of one record: nothing if it is oversize, and a second set when it has a translation. */
  function AllShards(card: Card, m: Memberships): seq<Shard> {
    if card.oversize then []
    else
      LanguageShards(card, card.english, m, English)
      + (match card.spanish case Some(body) => LanguageShards(card, body, m, Spanish) case None => [])
  }

  function Gathered(products: Hosted, shards: seq<Shard>): Hosted {
    Apply(products, Puts(shards))
  }

  // ---------------------------------------------------------------- building them

  lemma OneMoreShard(card: Card, body: Body, m: Memberships, l: Language, k: ShardKind, i: nat)
    requires i < SliceTotal(m, k)
    ensures FacetShards(card, body, m, l, k)[..i + 1]
            == FacetShards(card, body, m, l, k)[..i] + [ShardAt(card, body, m, l, k, i)]
  {
  }

  method BatchedMetadata(card: Card, body: Body, m: Memberships, l: Language, k: ShardKind) returns (shards: seq<Shard>)
    requires k != QueryUuids
    ensures shards == FacetShards(card, body, m, l, k)
  {
    var slices := Batch(if k.CatalogUuids? then m.catalogs else m.customers, UUID_BATCH_SIZE);
    ghost var all := FacetShards(card, body, m, l, k);
    shards := [];
    for i := 0 to |slices|
      invariant shards == all[..i]
    {
      var facet := if k.CatalogUuids? then CatalogFacet(slices[i]) else CustomerFacet(slices[i]);
      var id := SliceText(BaseText(card.contentType, card.uuid), l, k, i);
      OneMoreShard(card, body, m, l, k, i);
      shards := shards + [Shard(id, card.aggregationKey, body, facet)];
    }
    assert all[..|slices|] == all;
  }

  method BatchedMetadataWithQueries(card: Card, body: Body, m: Memberships, l: Language) returns (shards: seq<Shard>)
    ensures shards == FacetShards(card, body, m, l, QueryUuids)
  {
    var explore := ExploreTitles(m.queries);
    var slices := Batch(m.queries, UUID_BATCH_SIZE);
    ghost var all := FacetShards(card, body, m, l, QueryUuids);
    shards := [];
    for i := 0 to |slices|
      invariant shards == all[..i]
    {
      var titles := SortedSet(TitlesOf(slices[i]) + explore);
      var id := SliceText(BaseText(card.contentType, card.uuid), l, QueryUuids, i);
      OneMoreShard(card, body, m, l, QueryUuids, i);
      shards := shards + [Shard(id, card.aggregationKey, body, QueryFacet(Sort(UuidsOf(slices[i])), titles))];
    }
    assert all[..|slices|] == all;
  }

  /** The dictionary of products being gathered for a whole batch, keyed by objectID. */
  class ProductTable {
    var products: Hosted

    constructor ()
      ensures products == map[]
    {
      products := map[];
    }

    method AddByObjectId(shards: seq<Shard>)
      modifies this
      ensures products == Gathered(old(products), shards)
    {
      assert Puts(shards)[..0] == [];
      for i := 0 to |shards|
        invariant products == Apply(old(products), Puts(shards)[..i])
      {
        assert Puts(shards)[..i + 1][..i] == Puts(shards)[..i];
        products := products[shards[i].objectId := shards[i]];
      }
      assert Puts(shards)[..|shards|] == Puts(shards);
    }

    method AddLanguage(card: Card, body: Body, m: Memberships, l: Language)
      modifies this
      ensures products == Gathered(old(products), LanguageShards(card, body, m, l))
    {
      var catalogs := BatchedMetadata(card, body, m, l, CatalogUuids);
      AddByObjectId(catalogs);
      var customers := BatchedMetadata(card, body, m, l, CustomerUuids);
      AddByObjectId(customers);
      GatheredConcat(old(products), catalogs, customers);
      var queries := BatchedMetadataWithQueries(card, body, m, l);
      AddByObjectId(queries);
      GatheredConcat(old(products), catalogs + customers, queries);
    }

    /** `add_metadata_to_algolia_objects`. */
    method AddMetadata(card: Card, m: Memberships)
      modifies this
      ensures products == Gathered(old(products), AllShards(card, m))
    {
      if card.oversize {
        return;
      }
      AddLanguage(card, card.english, m, English);
      match card.spanish {
        case None =>
          assert AllShards(card, m) == LanguageShards(card, card.english, m, English);
        case Some(body) =>
          AddLanguage(card, body, m, Spanish);
          GatheredConcat(old(products), LanguageShards(card, card.english, m, English),
                         LanguageShards(card, body, m, Spanish));
      }
    }
  }

  lemma GatheredConcat(products: Hosted, a: seq<Shard>, b: seq<Shard>)
    ensures Gathered(products, a + b) == Gathered(Gathered(products, a), b)
  {
    ApplyConcat(products, Puts(a), Puts(b));
    assert Puts(a + b) == Puts(a) + Puts(b);
  }

  // ---------------------------------------------------------------- identity of the objects

  /** Each object of the record is one slice of one facet in one language. */
  lemma ShardIsSlice(card: Card, m: Memberships, shard: Shard) returns (body: Body, l: Language, k: ShardKind, i: nat)
    requires shard in AllShards(card, m)
    ensures i < SliceTotal(m, k) && shard == ShardAt(card, body, m, l, k, i)
    ensures l.English? ==> body == card.english
    ensures l.Spanish? ==> card.spanish == Some(body)
  {
    if shard in LanguageShards(card, card.english, m, English) {
      body, l := card.english, English;
    } else {
      body, l := card.spanish.value, Spanish;
    }
    assert shard in LanguageShards(card, body, m, l);
    k := if shard in FacetShards(card, body, m, l, CatalogUuids) then CatalogUuids
         else if shard in FacetShards(card, body, m, l, CustomerUuids) then CustomerUuids
         else QueryUuids;
    assert shard in FacetShards(card, body, m, l, k);
    i :| 0 <= i < SliceTotal(m, k) && FacetShards(card, body, m, l, k)[i] == shard;
  }

  /** English always, Spanish when a translation was computed. */
  ghost predicate HasLanguage(card: Card, l: Language) {
    l.English? || card.spanish.Some?
  }

  ghost function BodyIn(card: Card, l: Language): Body
    requires HasLanguage(card, l)
  {
    if l.English? then card.english else card.spanish.value
  }

  /** The object of slice i of a facet in one of the record's languages. */
  ghost predicate IsSlice(card: Card, m: Memberships, shard: Shard, l: Language, k: ShardKind, i: nat) {
    && HasLanguage(card, l) && i < SliceTotal(m, k)
    && shard.objectId == SliceText(BaseText(card.contentType, card.uuid), l, k, i)
    && shard.aggregationKey == card.aggregationKey
    && shard.body == BodyIn(card, l)
    && shard.facet == FacetAt(m, k, i)
  }

  /** The objects of a record that is not oversize: one for each language it has, facet and slice, and no other. */
  lemma ShardsExactly(card: Card, m: Memberships, shard: Shard)
    ensures shard in AllShards(card, m) <==> !card.oversize && exists l, k, i :: IsSlice(card, m, shard, l, k, i)
  {
    if shard in AllShards(card, m) {
      var body, l, k, i := ShardIsSlice(card, m, shard);
      assert IsSlice(card, m, shard, l, k, i);
    }
    if !card.oversize {
      if l, k, i :| IsSlice(card, m, shard, l, k, i) {
        SliceIsMade(card, m, l, k, i);
        assert shard == ShardAt(card, BodyIn(card, l), m, l, k, i);
      }
    }
  }

  lemma SliceIsMade(card: Card, m: Memberships, l: Language, k: ShardKind, i: nat)
    requires !card.oversize && HasLanguage(card, l) && i < SliceTotal(m, k)
    ensures ShardAt(card, BodyIn(card, l), m, l, k, i) in AllShards(card, m)
  {
    var body := BodyIn(card, l);
    assert FacetShards(card, body, m, l, k)[i] == ShardAt(card, body, m, l, k, i);
    assert ShardAt(card, body, m, l, k, i) in LanguageShards(card, body, m, l);
  }

  /** What each facet's slices are: at most a hundred entries of the list, in order. */
  lemma SlicesAre(m: Memberships, i: nat)
    ensures i < SliceTotal(m, CatalogUuids) <==> i < |Slices(m.catalogs, 100)|
    ensures i < SliceTotal(m, CustomerUuids) <==> i < |Slices(m.customers, 100)|
    ensures i < SliceTotal(m, QueryUuids) <==> i < |Slices(m.queries, 100)|
    ensures i < SliceTotal(m, CatalogUuids) ==>
              FacetAt(m, CatalogUuids, i) == CatalogFacet(Slices(m.catalogs, 100)[i])
    ensures i < SliceTotal(m, CustomerUuids) ==>
              FacetAt(m, CustomerUuids, i) == CustomerFacet(Slices(m.customers, 100)[i])
    ensures i < SliceTotal(m, QueryUuids) ==> FacetAt(m, QueryUuids, i).QueryFacet?
  {
  }

  /** From any object of a record with a uuid one reads whose it is, and no two of its objects share an id. */
  lemma ShardIdsIdentify(card: Card, m: Memberships, shard: Shard)
    requires card.uuid.Some? && IsUuid(card.uuid.value) && shard in AllShards(card, m)
    ensures Parse(shard.objectId).Some?
    ensures Parse(shard.objectId).value.contentType == card.contentType
    ensures Parse(shard.objectId).value.uuid == card.uuid.value
    ensures forall other :: other in AllShards(card, m) && other.objectId == shard.objectId ==> other == shard
  {
    var body, l, k, i := ShardIsSlice(card, m, shard);
    ParseOfPrint(ShardId(card.contentType, card.uuid.value, l, k, i));
    forall other | other in AllShards(card, m) && other.objectId == shard.objectId
      ensures other == shard
    {
      var body', l', k', i' := ShardIsSlice(card, m, other);
      ParseOfPrint(ShardId(card.contentType, card.uuid.value, l', k', i'));
    }
  }

  /** The generator emits nothing exactly when the record is oversize or belongs nowhere. */
  lemma NoShardsIffNowhere(card: Card, m: Memberships)
    ensures AllShards(card, m) == [] <==>
      card.oversize || (m.catalogs == [] && m.customers == [] && m.queries == [])
  {
    SliceCount(m.catalogs, UUID_BATCH_SIZE, 0);
    SliceCount(m.customers, UUID_BATCH_SIZE, 0);
    SliceCount(m.queries, UUID_BATCH_SIZE, 0);
    if !card.oversize {
      var english := LanguageShards(card, card.english, m, English);
      assert AllShards(card, m)[..|english|] == english;
      assert |english| == SliceTotal(m, CatalogUuids) + SliceTotal(m, CustomerUuids) + SliceTotal(m, QueryUuids);
    }
  }
}
