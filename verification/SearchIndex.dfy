/**
 The search index as a map from objectID to shard, the two chunked bulk calls of the client, and the
 algebra of write lists that the batch indexer's failure handling rests on.
 */
module SearchIndex {
  import opened Prelude

  /** The record's own fields: an opaque text, and the academies it is shown under. */
  datatype Body = Body(text: string, academyUuids: set<string>)

  datatype Facet =
    | CatalogFacet(uuids: seq<string>)
    | CustomerFacet(uuids: seq<string>)
    | QueryFacet(uuids: seq<string>, titles: seq<string>)

  datatype Shard = Shard(objectId: string, aggregationKey: string, body: Body, facet: Facet)

  type Hosted = map<string, Shard>

  /** One object upserted or deleted; a bulk call is a list of these. */
  datatype Write = Put(shard: Shard) | Drop(id: string) {
    function Target(): string {
      match this
      case Put(shard) => shard.objectId
      case Drop(id) => id
    }
  }

  function ApplyOne(h: Hosted, w: Write): Hosted {
    match w
    case Put(shard) => h[shard.objectId := shard]
    case Drop(id) => h - {id}
  }

  function Apply(h: Hosted, ws: seq<Write>): Hosted {
    if ws == [] then h else ApplyOne(Apply(h, ws[..|ws| - 1]), ws[|ws| - 1])
  }

  function Puts(shards: seq<Shard>): (ws: seq<Write>)
    ensures |ws| == |shards|
  {
    seq(|shards|, i requires 0 <= i < |shards| => Put(shards[i]))
  }

  function Drops(ids: seq<string>): (ws: seq<Write>)
    ensures |ws| == |ids|
  {
    seq(|ids|, i requires 0 <= i < |ids| => Drop(ids[i]))
  }

  function Targets(ws: seq<Write>): set<string> {
    set w | w in ws :: w.Target()
  }

  ghost predicate SameAt(h1: Hosted, h2: Hosted, id: string) {
    (id in h1 <==> id in h2) && (id in h1 ==> h1[id] == h2[id])
  }

  ghost predicate Reflects(h: Hosted, w: Write) {
    match w
    case Put(shard) => shard.objectId in h && h[shard.objectId] == shard
    case Drop(id) => id !in h
  }

  /** No two writes of the list disagree about an objectID. */
  ghost predicate Consistent(ws: seq<Write>) {
    forall v, w :: v in ws && w in ws && v.Target() == w.Target() ==> v == w
  }

  // ---------------------------------------------------------------- write lists

  lemma {:induction false} ApplyConcat(h: Hosted, a: seq<Write>, b: seq<Write>)
    ensures Apply(h, a + b) == Apply(Apply(h, a), b)
  {
    if b == [] {
      assert a + b == a;
    } else {
      var b' := b[..|b| - 1];
      assert (a + b)[..|a + b| - 1] == a + b';
      ApplyConcat(h, a, b');
    }
  }

  /** A write list touches its targets and nothing else. */
  lemma {:induction false} UntouchedStays(h: Hosted, ws: seq<Write>, id: string)
    requires id !in Targets(ws)
    ensures SameAt(h, Apply(h, ws), id)
  {
    if ws != [] {
      var init, last := ws[..|ws| - 1], ws[|ws| - 1];
      assert last in ws && forall w :: w in init ==> w in ws;
      assert last.Target() != id;
      UntouchedStays(h, init, id);
    }
  }

  /** Two indexes that agree off a list's targets are made equal by the list. */
  lemma {:induction false} Overwrites(h1: Hosted, h2: Hosted, ws: seq<Write>, id: string)
    requires SameAt(h1, h2, id) || id in Targets(ws)
    ensures SameAt(Apply(h1, ws), Apply(h2, ws), id)
  {
    if ws != [] {
      var init, last := ws[..|ws| - 1], ws[|ws| - 1];
      if last.Target() != id {
        assert id in Targets(ws) ==> id in Targets(init);
        Overwrites(h1, h2, init, id);
      }
    }
  }

  lemma SameEverywhere(h1: Hosted, h2: Hosted)
    requires forall id :: SameAt(h1, h2, id)
    ensures h1 == h2
  {
    forall id: string
      ensures id in h1 <==> id in h2
    {
      assert SameAt(h1, h2, id);
    }
    assert h1.Keys == h2.Keys;
    forall id | id in h1
      ensures h1[id] == h2[id]
    {
      assert SameAt(h1, h2, id);
    }
  }

  /** A retry of the whole list after any part of it was accepted ends as if nothing had failed. */
  lemma ReplayAfterPrefix(h: Hosted, ws: seq<Write>, n: nat)
    requires n <= |ws|
    ensures Apply(h, ws[..n] + ws) == Apply(h, ws)
  {
    ApplyConcat(h, ws[..n], ws);
    var partial := Apply(h, ws[..n]);
    forall id: string
      ensures SameAt(Apply(partial, ws), Apply(h, ws), id)
    {
      if id !in Targets(ws) {
        assert id !in Targets(ws[..n]);
        UntouchedStays(h, ws[..n], id);
      }
      Overwrites(partial, h, ws, id);
    }
    SameEverywhere(Apply(partial, ws), Apply(h, ws));
  }

  /** In a consistent list every write is visible at the end, wherever it stands and however often. */
  lemma {:induction false} ConsistentSettles(h: Hosted, ws: seq<Write>, w: Write)
    requires Consistent(ws) && w in ws
    ensures Reflects(Apply(h, ws), w)
  {
    var init, last := ws[..|ws| - 1], ws[|ws| - 1];
    if last.Target() == w.Target() {
      assert last in ws;
    } else {
      assert forall v :: v in init ==> v in ws;
      ConsistentSettles(h, init, w);
    }
  }

  // ---------------------------------------------------------------- chunked delivery

  /** How the index answers one chunk: accepted, refused, or accepted with the wait for it raising. */
  datatype Verdict = Accepted | Refused | AcceptedThenRaised

  /** The answers to the successive chunks of one bulk call. */
  type Weather = nat -> Verdict

  /** How many leading items took effect, and whether the call returned normally. */
  datatype Delivery = Delivery(sent: nat, ok: bool)

  function Deliver(n: nat, chunk: nat, weather: Weather, from: nat, request: nat): (d: Delivery)
    requires chunk > 0 && from <= n
    ensures from <= d.sent <= n && (d.ok ==> d.sent == n)
    decreases n - from
  {
    if from == n then Delivery(n, true)
    else
      var next := if from + chunk < n then from + chunk else n;
      match weather(request)
      case Accepted => Deliver(n, chunk, weather, next, request + 1)
      case Refused => Delivery(from, false)
      case AcceptedThenRaised => Delivery(next, false)
  }

  /** A call goes through exactly when every one of its ceil(n / chunk) requests is accepted. */
  lemma {:induction false} DeliveredIffAllAccepted(n: nat, chunk: nat, weather: Weather, from: nat, request: nat)
    requires chunk > 0 && from <= n
    ensures Deliver(n, chunk, weather, from, request).ok
            <==> forall j: nat :: j * chunk < n - from ==> weather(request + j).Accepted?
    decreases n - from
  {
    if from == n {
      assert forall j: nat :: j * chunk >= 0;
    } else {
      var next := if from + chunk < n then from + chunk else n;
      DeliveredIffAllAccepted(n, chunk, weather, next, request + 1);
      assert 0 * chunk < n - from;
      if forall j: nat :: j * chunk < n - from ==> weather(request + j).Accepted? {
        assert weather(request + 0).Accepted?;
        forall j: nat | j * chunk < n - next
          ensures weather(request + 1 + j).Accepted?
        {
          assert (j + 1) * chunk == j * chunk + chunk;
          assert weather(request + (j + 1)).Accepted?;
        }
      }
      if weather(request).Accepted? && Deliver(n, chunk, weather, next, request + 1).ok {
        forall j: nat | j * chunk < n - from
          ensures weather(request + j).Accepted?
        {
          if j > 0 {
            assert j * chunk == (j - 1) * chunk + chunk;
            assert weather(request + 1 + (j - 1)).Accepted?;
          }
        }
      }
    }
  }

  /**
   When a request is not accepted, what took effect is the items of the accepted requests before it, and its own items
   if only the wait for it raised.
   */
  lemma {:induction false} SentExactly(n: nat, chunk: nat, weather: Weather, from: nat, request: nat, k: nat)
    requires chunk > 0 && from <= n && k * chunk < n - from
    requires forall j: nat | request <= j < request + k :: weather(j).Accepted?
    requires !weather(request + k).Accepted?
    ensures var whole := if weather(request + k).AcceptedThenRaised? then (k + 1) * chunk else k * chunk;
            Deliver(n, chunk, weather, from, request)
            == Delivery(if from + whole < n then from + whole else n, false)
    decreases k
  {
    if k > 0 {
      assert weather(request).Accepted?;
      assert k * chunk == (k - 1) * chunk + chunk && (k + 1) * chunk == k * chunk + chunk;
      assert 0 <= (k - 1) * chunk;
      SentExactly(n, chunk, weather, from + chunk, request + 1, k - 1);
    }
  }

  lemma Split<T>(s: seq<T>, from: nat, to: nat)
    requires from <= to <= |s|
    ensures s[..from] + s[from..to] == s[..to]
  {
  }

  // ---------------------------------------------------------------- the client

  class AlgoliaIndex {
    var hosted: Hosted
    const chunkSize: nat
    /** Every write the index has accepted so far, for statements about intermediate states. */
    ghost var log: seq<Write>
    ghost const origin: Hosted

    ghost predicate Valid()
      reads this
    {
      chunkSize > 0 && hosted == Apply(origin, log)
    }

    constructor (hosted: Hosted, chunkSize: nat)
      requires chunkSize > 0
      ensures Valid() && this.hosted == hosted && this.chunkSize == chunkSize
      ensures log == [] && origin == hosted
    {
      this.hosted, this.chunkSize := hosted, chunkSize;
      log, origin := [], hosted;
    }

    /** Accepting more writes takes the index from what it hosts to what those writes make of it. */
    lemma LogExtended(before: seq<Write>, more: seq<Write>)
      requires Valid() && log == before + more
      ensures hosted == Apply(Apply(origin, before), more)
    {
      ApplyConcat(origin, before, more);
    }

    /** One request: all of the chunk takes effect. */
    method Accept(ws: seq<Write>)
      requires Valid()
      modifies this
      ensures Valid() && log == old(log) + ws
    {
      ApplyConcat(origin, log, ws);
      var i := 0;
      assert ws[..0] == [];
      while i < |ws|
        invariant 0 <= i <= |ws|
        invariant hosted == Apply(old(hosted), ws[..i])
        invariant log == old(log)
      {
        assert ws[..i + 1][..i] == ws[..i];
        hosted := ApplyOne(hosted, ws[i]);
        i := i + 1;
      }
      assert ws[..|ws|] == ws;
      log := log + ws;
    }

    /** The loop shared by the bulk save and the bulk delete: one request a chunk, stopping at the first that raises. */
    method Send(ws: seq<Write>, weather: Weather) returns (ok: bool)
      requires Valid()
      modifies this
      ensures Valid()
      ensures ok == Deliver(|ws|, chunkSize, weather, 0, 0).ok
      ensures log == old(log) + ws[..Deliver(|ws|, chunkSize, weather, 0, 0).sent]
    {
      ghost var d := Deliver(|ws|, chunkSize, weather, 0, 0);
      var from, request := 0, 0;
      while from < |ws|
        invariant 0 <= from <= |ws|
        invariant Valid()
        invariant log == old(log) + ws[..from]
        invariant d == Deliver(|ws|, chunkSize, weather, from, request)
      {
        var next := if from + chunkSize < |ws| then from + chunkSize else |ws|;
        var verdict := weather(request);
        if verdict.Refused? {
          return false;
        }
        Split(ws, from, next);
        ConcatAssociates(old(log), ws[..from], ws[from..next]);
        Accept(ws[from..next]);
        if verdict.AcceptedThenRaised? {
          return false;
        }
        from, request := next, request + 1;
      }
      return true;
    }

    method SaveObjectsBatch(objects: seq<Shard>, weather: Weather) returns (ok: bool)
      requires Valid()
      modifies this
      ensures Valid()
      ensures ok == Deliver(|objects|, chunkSize, weather, 0, 0).ok
      ensures log == old(log) + Puts(objects)[..Deliver(|objects|, chunkSize, weather, 0, 0).sent]
    {
      ok := Send(Puts(objects), weather);
    }

    method DeleteObjectsBatch(ids: seq<string>, weather: Weather) returns (ok: bool)
      requires Valid()
      modifies this
      ensures Valid()
      ensures ok == Deliver(|ids|, chunkSize, weather, 0, 0).ok
      ensures log == old(log) + Drops(ids)[..Deliver(|ids|, chunkSize, weather, 0, 0).sent]
    {
      ok := Send(Drops(ids), weather);
    }

    /** The browse: every hosted objectID filed under the aggregation key, in some order. */
    method ObjectIdsForAggregationKey(aggregationKey: string) returns (ids: seq<string>)
      ensures Elems(ids) == FiledUnder(hosted, aggregationKey)
    {
      ids := [];
      var rest := hosted.Keys;
      while rest != {}
        invariant rest <= hosted.Keys
        invariant Elems(ids) == set id | id in hosted && id !in rest && hosted[id].aggregationKey == aggregationKey
        decreases rest
      {
        var id :| id in rest;
        rest := rest - {id};
        if hosted[id].aggregationKey == aggregationKey {
          ids := ids + [id];
        }
      }
    }
  }

  function FiledUnder(h: Hosted, aggregationKey: string): set<string> {
    set id | id in h && h[id].aggregationKey == aggregationKey
  }
}
