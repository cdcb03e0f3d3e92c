/**
 Refreshing a catalog query: every allowed search result is taken into the content table batch by batch, failed batches
 are retried one entry at a time, and the query's membership is replaced unless the guardrail objects.
 */
module CatalogRefresh {
  import opened Prelude
  import opened ContentSync
  import opened BatchSync
  import opened Slicing
  import opened IndexingStates
  import Dispatcher

  /** What a sync cannot control: which entries are allowed, how times parse, and what happens during each call. */
  datatype Env = Env(allow: Entry -> bool, parse: Parser, trouble: nat -> Trouble, clock: nat -> int)

  function Allowed(batch: seq<Entry>, env: Env): seq<Entry> {
    if batch == [] then []
    else
      var front, last := Allowed(batch[..|batch| - 1], env), batch[|batch| - 1];
      if env.allow(last) then front + [last] else front
  }

  /** One step for each call, `left` of them, in order. */
  function Repeat(s: Store, step: (Store, nat) -> Store, call: nat, left: nat): Store {
    if left == 0 then s else step(Repeat(s, step, call, left - 1), call + left - 1)
  }

  /** Call i takes in the allowed entries of slice i. */
  function TakeSlice(s: Store, slices: seq<seq<Entry>>, env: Env, i: nat): Store {
    if i < |slices| then Process(s, Allowed(slices[i], env), env.trouble(i), env.parse, env.clock(i)) else s
  }

  function SliceIn(slices: seq<seq<Entry>>, env: Env): (Store, nat) -> Store {
    (s: Store, i: nat) => TakeSlice(s, slices, env, i)
  }

  /** The store after the first n slices. */
  function SyncTo(s: Store, slices: seq<seq<Entry>>, env: Env, n: nat): Store {
    Repeat(s, SliceIn(slices, env), 0, n)
  }

  /** The first entry of the queue goes through on its own; when it fails again it joins the end. */
  function Retry(s: Store, env: Env, call: nat): Store {
    if s.retries == [] then s
    else Process(s.(retries := s.retries[1..]), [s.retries[0]], env.trouble(call), env.parse, env.clock(call))
  }

  function RetryIn(env: Env): (Store, nat) -> Store {
    (s: Store, call: nat) => Retry(s, env, call)
  }

  /** The store after at most `left` retries, the first of them being this call. */
  function RetryFrom(s: Store, env: Env, call: nat, left: nat): Store {
    Repeat(s, RetryIn(env), call, left)
  }

  function Sync(table: Table, metadata: seq<Entry>, size: nat, retryMax: nat, env: Env): Store
    requires size > 0
  {
    var slices := Slices(metadata, size);
    RetryFrom(SyncTo(Store(table, [], []), slices, env, |slices|), env, |slices|, retryMax)
  }

  lemma SliceNext(s: Store, slices: seq<seq<Entry>>, env: Env, n: nat, now: Store) returns (next: Store)
    requires now == SyncTo(s, slices, env, n)
    ensures next == SyncTo(s, slices, env, n + 1) && next == TakeSlice(now, slices, env, n)
  {
    next := TakeSlice(now, slices, env, n);
  }

  method SyncSlices(store: ContentStore, slices: seq<seq<Entry>>, env: Env)
    modifies store
    ensures store.Value() == SyncTo(old(store.Value()), slices, env, |slices|)
  {
    ghost var start, now := store.Value(), store.Value();
    for i := 0 to |slices|
      invariant store.Value() == now == SyncTo(start, slices, env, i)
    {
      now := SliceNext(start, slices, env, i, now);
      var allowed := FilterAllowed(slices[i], env);
      store.UpdateOrCreate(allowed, env.trouble(i), env.parse, env.clock(i));
    }
  }

  /** One round of the retry loop. */
  method RetryFirst(store: ContentStore, env: Env, call: nat)
    requires store.retries != []
    modifies store
    ensures store.Value() == Retry(old(store.Value()), env, call)
  {
    var entry := store.retries[0];
    store.retries := store.retries[1..];
    store.UpdateOrCreate([entry], env.trouble(call), env.parse, env.clock(call));
  }

  /** What each step keeps, all of them keep. */
  lemma {:induction false} RepeatKeeps(
    s: Store, step: (Store, nat) -> Store, call: nat, left: nat, inv: (Store, nat) -> bool)
    requires inv(s, call) && forall x, n: nat | call <= n < call + left && inv(x, n) :: inv(step(x, n), n + 1)
    ensures inv(Repeat(s, step, call, left), call + left)
  {
    if left > 0 {
      RepeatKeeps(s, step, call, left - 1, inv);
    }
  }

  lemma {:induction false} RepeatSplit(s: Store, step: (Store, nat) -> Store, call: nat, done: nat, more: nat)
    ensures Repeat(s, step, call, done + more) == Repeat(Repeat(s, step, call, done), step, call + done, more)
  {
    if more > 0 {
      RepeatSplit(s, step, call, done, more - 1);
    }
  }

  /** From a store that no step changes, nothing more happens. */
  lemma {:induction false} RepeatSettles(s: Store, step: (Store, nat) -> Store, call: nat, done: nat, left: nat)
    requires done <= left
    requires done < left ==> forall n: nat :: step(Repeat(s, step, call, done), n) == Repeat(s, step, call, done)
    ensures Repeat(s, step, call, left) == Repeat(s, step, call, done)
    decreases left
  {
    if done < left {
      RepeatSettles(s, step, call, done, left - 1);
    }
  }

  lemma NothingToRetry(s: Store, env: Env)
    requires s.retries == []
    ensures forall n: nat :: RetryIn(env)(s, n) == s
  {
  }

  lemma RetryNext(s: Store, env: Env, call: nat, done: nat, now: Store) returns (next: Store)
    requires now == RetryFrom(s, env, call, done)
    ensures next == RetryFrom(s, env, call, done + 1) && next == Retry(now, env, call + done)
  {
    next := Retry(now, env, call + done);
  }

  /** With an empty queue there is nothing more to retry. */
  lemma RetryStops(s: Store, env: Env, call: nat, done: nat, left: nat)
    requires done <= left && (RetryFrom(s, env, call, done).retries == [] || done == left)
    ensures RetryFrom(s, env, call, left) == RetryFrom(s, env, call, done)
  {
    if done < left {
      NothingToRetry(RetryFrom(s, env, call, done), env);
    }
    RepeatSettles(s, RetryIn(env), call, done, left);
  }

  /** The loop ends after at most `retryMax` rounds, whatever fails. */
  method RetryLoop(store: ContentStore, env: Env, call: nat, retryMax: nat)
    modifies store
    ensures store.Value() == RetryFrom(old(store.Value()), env, call, retryMax)
  {
    var retryCount := 0;
    ghost var start, now := store.Value(), store.Value();
    while store.retries != [] && retryCount < retryMax
      invariant retryCount <= retryMax
      invariant store.Value() == now == RetryFrom(start, env, call, retryCount)
      decreases retryMax - retryCount
    {
      now := RetryNext(start, env, call, retryCount, now);
      RetryFirst(store, env, call + retryCount);
      retryCount := retryCount + 1;
    }
    RetryStops(start, env, call, retryCount, retryMax);
  }

  method CreateContentMetadata(store: ContentStore, metadata: seq<Entry>, size: nat, retryMax: nat, env: Env)
    requires size > 0 && store.returned == [] && store.retries == []
    modifies store
    ensures store.Value() == Sync(old(store.table), metadata, size, retryMax, env)
  {
    var slices := Batch(metadata, size);
    SyncSlices(store, slices, env);
    RetryLoop(store, env, |slices|, retryMax);
  }

  method FilterAllowed(batch: seq<Entry>, env: Env) returns (allowed: seq<Entry>)
    ensures allowed == Allowed(batch, env)
  {
    allowed := [];
    for i := 0 to |batch|
      invariant allowed == Allowed(batch[..i], env)
    {
      assert batch[..i + 1][..i] == batch[..i];
      if env.allow(batch[i]) {
        allowed := allowed + [batch[i]];
      }
    }
    assert batch[..|batch|] == batch;
  }

  // ---------------------------------------------------------------- the invariant of a sync

  /** The record of an entry is what the entry makes of the record the sync found. */
  ghost predicate Settled(start: Table, t: Table, e: Entry, parse: Parser) {
    KeyText(e) in t && t[KeyText(e)] == RecordAfter(start, e, parse, t[KeyText(e)].modified)
  }

  ghost predicate Untouched(start: Table, t: Table, k: string) {
    (k in t <==> k in start) && (k in t ==> t[k] == start[k])
  }

  /** Each of `all` is handed back exactly once, or queued, or still to come, and the table says the same. */
  ghost predicate Accounted(start: Table, all: seq<Entry>, pending: seq<Entry>, s: Store, parse: Parser) {
    && multiset(s.returned) + multiset(Keys(s.retries)) + multiset(Keys(pending)) == multiset(Keys(all))
    && (forall e | e in pending || e in s.retries :: e in all)
    && (forall e | e in all && KeyText(e) in s.returned :: Settled(start, s.table, e, parse))
    && (forall k | k !in s.returned :: Untouched(start, s.table, k))
  }

  lemma KeysConcat(a: seq<Entry>, b: seq<Entry>)
    ensures Keys(a + b) == Keys(a) + Keys(b)
    ensures multiset(Keys(a + b)) == multiset(Keys(a)) + multiset(Keys(b))
  {
    assert Keys(a + b) == Keys(a) + Keys(b);
  }

  lemma {:induction false} NoDupCounts(s: seq<string>)
    ensures NoDup(s) <==> forall x :: multiset(s)[x] <= 1
  {
    if s != [] {
      var front, last := s[..|s| - 1], s[|s| - 1];
      NoDupCounts(front);
      assert s == front + [last];
      MultisetSnoc(front, last);
      if NoDup(s) {
        assert NoDup(front) && last !in front;
      }
      if forall x :: multiset(s)[x] <= 1 {
        assert forall x :: multiset(front)[x] <= multiset(s)[x];
        assert multiset(s)[last] == multiset(front)[last] + 1;
        assert last !in front;
        assert forall i | 0 <= i < |front| :: s[i] == front[i];
      }
    }
  }

  /** What is still to come has distinct keys, none of them handed back. */
  lemma PendingIsFresh(start: Table, all: seq<Entry>, batch: seq<Entry>, rest: seq<Entry>, s: Store, parse: Parser)
    requires Distinct(all) && Accounted(start, all, batch + rest, s, parse)
    ensures Distinct(batch) && forall k | k in Keys(batch) :: k !in s.returned
  {
    KeysConcat(batch, rest);
    NoDupCounts(Keys(all));
    forall k
      ensures multiset(Keys(batch))[k] <= 1 && (k in Keys(batch) ==> k !in s.returned)
    {
      assert multiset(s.returned)[k] + multiset(Keys(s.retries))[k] + multiset(Keys(batch))[k] + multiset(Keys(rest))[k]
            == multiset(Keys(all))[k] <= 1;
      assert k in Keys(batch) <==> multiset(Keys(batch))[k] > 0;
      assert k in s.returned <==> multiset(s.returned)[k] > 0;
    }
    NoDupCounts(Keys(batch));
    forall e | e in batch
      ensures KeyOf(e).Some?
    {
      assert e in batch + rest;
    }
  }

  /** A record not yet touched gives the same result as the record the sync found. */
  lemma SameResult(start: Table, t: Table, e: Entry, parse: Parser, at: int)
    requires KeyOf(e).Some? && Untouched(start, t, KeyText(e))
    ensures RecordAfter(t, e, parse, at) == RecordAfter(start, e, parse, at)
    ensures RecordAfter(start, e, parse, at) == RecordAfter(start, e, parse, RecordAfter(start, e, parse, at).modified)
  {
  }

  lemma ProcessedTable(start: Table, all: seq<Entry>, batch: seq<Entry>, rest: seq<Entry>, s: Store, s': Store,
                       parse: Parser, at: int)
    requires Distinct(all) && Accounted(start, all, batch + rest, s, parse)
    requires s' == Process(s, batch, NoTrouble, parse, at)
    ensures forall e | e in all && KeyText(e) in s'.returned :: Settled(start, s'.table, e, parse)
    ensures forall k | k !in s'.returned :: Untouched(start, s'.table, k)
    ensures s'.retries == s.retries && multiset(s'.returned) == multiset(s.returned) + multiset(Keys(batch))
  {
    PendingIsFresh(start, all, batch, rest, s, parse);
    ProcessEffect(s, batch, parse, at);
    forall k
      ensures k in s'.returned <==> k in s.returned || k in Keys(batch)
    {
      assert k in s'.returned <==> k in multiset(s'.returned);
      assert k in s.returned <==> k in multiset(s.returned);
      assert k in Keys(batch) <==> k in multiset(Keys(batch));
    }
    forall e | e in all && KeyText(e) in s'.returned
      ensures Settled(start, s'.table, e, parse)
    {
      if KeyText(e) in Keys(batch) {
        SameKeySameEntry(all, batch, rest, e);
        SameResult(start, s.table, e, parse, at);
      }
    }
  }

  lemma SameKeySameEntry(all: seq<Entry>, batch: seq<Entry>, rest: seq<Entry>, e: Entry)
    requires Distinct(all) && e in all && KeyText(e) in Keys(batch)
    requires forall f | f in batch + rest :: f in all
    ensures e in batch
  {
    var i :| 0 <= i < |batch| && Keys(batch)[i] == KeyText(e);
    assert batch[i] in batch + rest;
    var p :| 0 <= p < |all| && all[p] == e;
    var q :| 0 <= q < |all| && all[q] == batch[i];
    assert Keys(all)[p] == Keys(all)[q];
    assert p == q;
  }

  /** One call, with or without a database error, keeps the account. */
  lemma ProcessKeepsAccount(start: Table, all: seq<Entry>, batch: seq<Entry>, rest: seq<Entry>, s: Store,
                            trouble: Trouble, parse: Parser, at: int)
    requires Distinct(all) && Accounted(start, all, batch + rest, s, parse) && !trouble.InsertConflict?
    ensures Accounted(start, all, rest, Process(s, batch, trouble, parse, at), parse)
  {
    var s' := Process(s, batch, trouble, parse, at);
    KeysConcat(batch, rest);
    assert forall e | e in batch || e in rest :: e in batch + rest;
    if trouble.UpdateFails? {
      KeysConcat(s.retries, batch);
    } else {
      ProcessedTable(start, all, batch, rest, s, s', parse, at);
    }
  }

  // ---------------------------------------------------------------- whole syncs

  function AllowedFrom(slices: seq<seq<Entry>>, env: Env, i: nat): seq<Entry>
    requires i <= |slices|
    decreases |slices| - i
  {
    if i == |slices| then [] else Allowed(slices[i], env) + AllowedFrom(slices, env, i + 1)
  }

  /** After the first n slices, what they and the slices to come hold is accounted for. */
  ghost predicate Underway(start: Table, all: seq<Entry>, s: Store, slices: seq<seq<Entry>>, env: Env, n: nat) {
    n <= |slices| && Distinct(all) && Accounted(start, all, AllowedFrom(slices, env, n), s, env.parse)
  }

  lemma SliceKeepsAccount(start: Table, all: seq<Entry>, s: Store, slices: seq<seq<Entry>>, env: Env, i: nat)
    requires Underway(start, all, s, slices, env, i) && i < |slices| && !env.trouble(i).InsertConflict?
    ensures Underway(start, all, TakeSlice(s, slices, env, i), slices, env, i + 1)
  {
    ProcessKeepsAccount(start, all, Allowed(slices[i], env), AllowedFrom(slices, env, i + 1), s, env.trouble(i),
      env.parse, env.clock(i));
  }

  lemma SyncGoesOn(start: Table, all: seq<Entry>, s: Store, slices: seq<seq<Entry>>, env: Env)
    requires Underway(start, all, s, slices, env, 0) && forall n :: !env.trouble(n).InsertConflict?
    ensures Underway(start, all, SyncTo(s, slices, env, |slices|), slices, env, |slices|)
  {
    var inv := (x: Store, n: nat) => Underway(start, all, x, slices, env, n);
    forall x, n: nat | n < |slices| && inv(x, n)
      ensures inv(SliceIn(slices, env)(x, n), n + 1)
    {
      SliceKeepsAccount(start, all, x, slices, env, n);
    }
    RepeatKeeps(s, SliceIn(slices, env), 0, |slices|, inv);
  }

  lemma SyncKeepsAccount(start: Table, all: seq<Entry>, s: Store, slices: seq<seq<Entry>>, env: Env)
    requires Underway(start, all, s, slices, env, 0) && forall n :: !env.trouble(n).InsertConflict?
    ensures Accounted(start, all, [], SyncTo(s, slices, env, |slices|), env.parse)
  {
    SyncGoesOn(start, all, s, slices, env);
  }

  lemma Requeue(start: Table, all: seq<Entry>, s: Store, parse: Parser)
    requires Accounted(start, all, [], s, parse) && s.retries != []
    ensures Accounted(start, all, [s.retries[0]] + [], s.(retries := s.retries[1..]), parse)
  {
    assert s.retries == [s.retries[0]] + s.retries[1..];
    KeysConcat([s.retries[0]], s.retries[1..]);
    assert [s.retries[0]] + [] == [s.retries[0]];
  }

  lemma RetryKeepsAccount(start: Table, all: seq<Entry>, s: Store, env: Env, call: nat)
    requires Distinct(all) && Accounted(start, all, [], s, env.parse) && !env.trouble(call).InsertConflict?
    ensures Accounted(start, all, [], Retry(s, env, call), env.parse)
  {
    if s.retries != [] {
      Requeue(start, all, s, env.parse);
      ProcessKeepsAccount(start, all, [s.retries[0]], [], s.(retries := s.retries[1..]), env.trouble(call),
        env.parse, env.clock(call));
    }
  }

  lemma RetriesKeepAccount(start: Table, all: seq<Entry>, s: Store, env: Env, call: nat, left: nat)
    requires Distinct(all) && Accounted(start, all, [], s, env.parse)
    requires forall n :: !env.trouble(n).InsertConflict?
    ensures Accounted(start, all, [], RetryFrom(s, env, call, left), env.parse)
  {
    var inv := (x: Store, _: nat) => Accounted(start, all, [], x, env.parse);
    forall x, n: nat | inv(x, n)
      ensures inv(RetryIn(env)(x, n), n + 1)
    {
      RetryKeepsAccount(start, all, x, env, n);
    }
    RepeatKeeps(s, RetryIn(env), call, left, inv);
  }

  /** The allowed entries of the slices are those of the whole list, wherever it is cut. */
  lemma {:induction false} AllowedConcat(a: seq<Entry>, b: seq<Entry>, env: Env)
    ensures Allowed(a + b, env) == Allowed(a, env) + Allowed(b, env)
  {
    if b == [] {
      assert a + b == a;
    } else {
      AllowedConcat(a, b[..|b| - 1], env);
      assert (a + b)[..|a + b| - 1] == a + b[..|b| - 1];
    }
  }

  lemma {:induction false} AllowedOfSlices(metadata: seq<Entry>, size: nat, from: nat, env: Env)
    requires size > 0 && from <= |metadata|
    ensures AllowedFrom(SlicesFrom(metadata, size, from), env, 0) == Allowed(metadata[from..], env)
    decreases |metadata| - from
  {
    if from < |metadata| {
      var to := if from + size < |metadata| then from + size else |metadata|;
      var slices := SlicesFrom(metadata, size, from);
      AllowedOfSlices(metadata, size, to, env);
      AllowedShift(slices, env, 1);
      assert slices[1..] == SlicesFrom(metadata, size, to);
      AllowedConcat(metadata[from..to], metadata[to..], env);
      assert metadata[from..] == metadata[from..to] + metadata[to..];
    } else {
      assert metadata[from..] == [];
    }
  }

  lemma {:induction false} AllowedShift(slices: seq<seq<Entry>>, env: Env, i: nat)
    requires 0 < i <= |slices|
    ensures AllowedFrom(slices, env, i) == AllowedFrom(slices[1..], env, i - 1)
    decreases |slices| - i
  {
    if i < |slices| {
      AllowedShift(slices, env, i + 1);
    }
  }

  /**
   Conservation: every allowed entry ends handed back exactly once or still queued, its record is what the entry makes
   of the one the sync found, and no other record changes; wherever the list was cut and whichever updates failed.
   */
  lemma SyncAccountsForAll(table: Table, metadata: seq<Entry>, size: nat, retryMax: nat, env: Env)
    requires size > 0 && Distinct(Allowed(metadata, env)) && forall n :: !env.trouble(n).InsertConflict?
    ensures Accounted(table, Allowed(metadata, env), [], Sync(table, metadata, size, retryMax, env), env.parse)
  {
    var all, slices := Allowed(metadata, env), Slices(metadata, size);
    AllowedOfSlices(metadata, size, 0, env);
    assert metadata[0..] == metadata;
    assert Underway(table, all, Store(table, [], []), slices, env, 0);
    SyncKeepsAccount(table, all, Store(table, [], []), slices, env);
    RetriesKeepAccount(table, all, SyncTo(Store(table, [], []), slices, env, |slices|), env, |slices|, retryMax);
  }

  /** When the queue drains, what is handed back is the allowed keys, each once. */
  lemma DrainedMeansAll(table: Table, metadata: seq<Entry>, size: nat, retryMax: nat, env: Env)
    requires size > 0 && Distinct(Allowed(metadata, env)) && forall n :: !env.trouble(n).InsertConflict?
    requires Sync(table, metadata, size, retryMax, env).retries == []
    ensures multiset(Sync(table, metadata, size, retryMax, env).returned) == multiset(Keys(Allowed(metadata, env)))
  {
    SyncAccountsForAll(table, metadata, size, retryMax, env);
    assert Keys([]) == [];
  }

  /** Two syncs of one payload that both drain leave the same content behind, but for the times of the stamps. */
  lemma DrainedSyncsAgree(table: Table, metadata: seq<Entry>, size0: nat, size1: nat, max0: nat, max1: nat,
                          env0: Env, env1: Env, e: Entry)
    requires size0 > 0 && size1 > 0 && env0.allow == env1.allow && env0.parse == env1.parse
    requires Distinct(Allowed(metadata, env0)) && Allowed(metadata, env0) == Allowed(metadata, env1)
    requires forall n :: !env0.trouble(n).InsertConflict? && !env1.trouble(n).InsertConflict?
    requires Sync(table, metadata, size0, max0, env0).retries == []
    requires Sync(table, metadata, size1, max1, env1).retries == []
    requires e in Allowed(metadata, env0)
    ensures var t0 := Sync(table, metadata, size0, max0, env0).table;
            var t1 := Sync(table, metadata, size1, max1, env1).table;
            && KeyText(e) in t0 && KeyText(e) in t1
            && t0[KeyText(e)] == t1[KeyText(e)].(modified := t0[KeyText(e)].modified)
  {
    var s0, s1 := Sync(table, metadata, size0, max0, env0), Sync(table, metadata, size1, max1, env1);
    SyncAccountsForAll(table, metadata, size0, max0, env0);
    SyncAccountsForAll(table, metadata, size1, max1, env1);
    DrainedReturnsKey(table, metadata, size0, max0, env0, e);
    DrainedReturnsKey(table, metadata, size1, max1, env1, e);
    assert Settled(table, s0.table, e, env0.parse) && Settled(table, s1.table, e, env0.parse);
  }

  lemma DrainedReturnsKey(table: Table, metadata: seq<Entry>, size: nat, retryMax: nat, env: Env, e: Entry)
    requires size > 0 && Distinct(Allowed(metadata, env)) && forall n :: !env.trouble(n).InsertConflict?
    requires Sync(table, metadata, size, retryMax, env).retries == [] && e in Allowed(metadata, env)
    ensures KeyText(e) in Sync(table, metadata, size, retryMax, env).returned
  {
    DrainedMeansAll(table, metadata, size, retryMax, env);
    KeyListed(Allowed(metadata, env), e);
    assert KeyText(e) in multiset(Keys(Allowed(metadata, env)));
  }

  // ---------------------------------------------------------------- no churn

  /**
   Syncing the same payload again leaves every course whose `modified` parses exactly as it was, time stamp included,
   whatever fails the second time.
   */
  lemma SecondSyncWritesNoCourse(table: Table, metadata: seq<Entry>, size0: nat, size1: nat, max0: nat, max1: nat,
                                 env0: Env, env1: Env, e: Entry)
    requires size0 > 0 && size1 > 0 && env0.parse == env1.parse && Allowed(metadata, env0) == Allowed(metadata, env1)
    requires Distinct(Allowed(metadata, env0)) && e in Allowed(metadata, env0)
    requires forall n :: !env0.trouble(n).InsertConflict? && !env1.trouble(n).InsertConflict?
    requires TypeOf(e) == COURSE && ParseTime(Field(e, MODIFIED), env0.parse).Some?
    requires KeyText(e) in Sync(table, metadata, size0, max0, env0).returned
    ensures var t0 := Sync(table, metadata, size0, max0, env0).table;
            var t1 := Sync(t0, metadata, size1, max1, env1).table;
            KeyText(e) in t0 && KeyText(e) in t1 && t1[KeyText(e)] == t0[KeyText(e)]
  {
    var s0 := Sync(table, metadata, size0, max0, env0);
    var s1 := Sync(s0.table, metadata, size1, max1, env1);
    SyncAccountsForAll(table, metadata, size0, max0, env0);
    SyncAccountsForAll(s0.table, metadata, size1, max1, env1);
    assert Settled(table, s0.table, e, env0.parse);
    SettledCourseIsSkipped(table, e, env0.parse, s0.table[KeyText(e)].modified);
    assert Skipped(s0.table, e, env0.parse);
    if KeyText(e) in s1.returned {
      assert Settled(s0.table, s1.table, e, env0.parse);
    } else {
      assert Untouched(s0.table, s1.table, KeyText(e));
    }
  }

  /**
   So nothing newly becomes due for dispatch: whatever a course's indexing row says, it is due after the second sync
   as before it.
   */
  lemma SecondSyncMakesNothingDue(table: Table, metadata: seq<Entry>, size0: nat, size1: nat, max0: nat, max1: nat,
                                  env0: Env, env1: Env, e: Entry, row: Row, includeFailed: bool)
    requires size0 > 0 && size1 > 0 && env0.parse == env1.parse && Allowed(metadata, env0) == Allowed(metadata, env1)
    requires Distinct(Allowed(metadata, env0)) && e in Allowed(metadata, env0)
    requires forall n :: !env0.trouble(n).InsertConflict? && !env1.trouble(n).InsertConflict?
    requires TypeOf(e) == COURSE && ParseTime(Field(e, MODIFIED), env0.parse).Some?
    requires KeyText(e) in Sync(table, metadata, size0, max0, env0).returned
    ensures var t0 := Sync(table, metadata, size0, max0, env0).table;
            var t1 := Sync(t0, metadata, size1, max1, env1).table;
            && KeyText(e) in t0 && KeyText(e) in t1
            && Dispatcher.Due(row, t1[KeyText(e)].modified, includeFailed)
              == Dispatcher.Due(row, t0[KeyText(e)].modified, includeFailed)
  {
    SecondSyncWritesNoCourse(table, metadata, size0, size1, max0, max1, env0, env1, e);
  }

  /** In any sync, an existing course keeps every field but the plucked ones and `modified`. */
  lemma SyncKeepsOtherCourseFields(table: Table, metadata: seq<Entry>, size: nat, retryMax: nat, env: Env, e: Entry,
                                   name: string)
    requires size > 0 && Distinct(Allowed(metadata, env)) && forall n :: !env.trouble(n).InsertConflict?
    requires e in Allowed(metadata, env) && InTable(table, e) && TypeOf(e) == COURSE
    requires name !in PLUCKED && name != MODIFIED
    ensures var after := Sync(table, metadata, size, retryMax, env).table;
            KeyText(e) in after && Field(after[KeyText(e)].json, name) == Field(table[KeyText(e)].json, name)
  {
    var s := Sync(table, metadata, size, retryMax, env);
    SyncAccountsForAll(table, metadata, size, retryMax, env);
    if KeyText(e) in s.returned {
      assert Settled(table, s.table, e, env.parse);
      CourseUpdateKeepsOtherFields(table, e, env.parse, s.table[KeyText(e)].modified, name);
    } else {
      assert Untouched(table, s.table, KeyText(e));
    }
  }

  // ---------------------------------------------------------------- the guardrail

  const CONSIDERATION_FLOOR: nat := 50

  /** The allowable relative change is eight tenths; both sides are multiplied out to stay with whole numbers. */
  predicate Blocked(existing: nat, proposed: nat, modifiedToday: bool) {
    || (existing > 0 && proposed == 0)
    || (existing > CONSIDERATION_FLOOR && !modifiedToday && 10 * Distance(existing, proposed) > 8 * existing)
  }

  function Distance(a: nat, b: nat): nat {
    if a < b then b - a else a - b
  }

  /**
   For a large query not modified today the guardrail lets through from a fifth to nine fifths of its size; small
   queries only have to keep something.
   */
  lemma GuardrailWindow(existing: nat, proposed: nat)
    ensures existing > 50 ==>
              (!Blocked(existing, proposed, false) <==> existing <= 5 * proposed <= 9 * existing)
    ensures existing <= 50 ==> (Blocked(existing, proposed, false) <==> existing > 0 && proposed == 0)
    ensures Blocked(existing, proposed, true) <==> existing > 0 && proposed == 0
  {
  }

  /**
   What the replacement of the membership meets: the keys that are stored, and whether the database refuses a relation
   to a row that is not stored. One that does not refuse it leaves it out.
   */
  datatype Relations = Relations(stored: set<string>, strict: bool)

  /** A refused relation undoes the whole replacement. */
  function Replaced(members: set<string>, proposed: seq<string>, relations: Relations): set<string> {
    if relations.strict && !(Elems(proposed) <= relations.stored) then members else Elems(proposed) * relations.stored
  }

  function Membership(members: set<string>, proposed: seq<string>, modifiedToday: bool, relations: Relations)
      : set<string>
  {
    if Blocked(|members|, |proposed|, modifiedToday) then members else Replaced(members, proposed, relations)
  }

  /** `set` with `clear`: the old relations go, the new ones are entered one by one, all in one transaction. */
  method SetRelations(members: set<string>, proposed: seq<string>, relations: Relations)
      returns (members': set<string>, raised: bool)
    ensures members' == Replaced(members, proposed, relations)
    ensures raised <==> relations.strict && !(Elems(proposed) <= relations.stored)
  {
    members' := {};
    for i := 0 to |proposed|
      invariant members' == Elems(proposed[..i]) * relations.stored
      invariant relations.strict ==> Elems(proposed[..i]) <= relations.stored
    {
      assert proposed[..i + 1] == proposed[..i] + [proposed[i]];
      if proposed[i] in relations.stored {
        members' := members' + {proposed[i]};
      } else if relations.strict {
        assert proposed[i] in Elems(proposed);
        return members, true;
      }
    }
    assert proposed[..|proposed|] == proposed;
    raised := false;
  }

  /** One refresh of one query: a sync, then the guardrail, then the replacement of the whole membership. */
  method AssociateWithQuery(store: ContentStore, members: set<string>, metadata: seq<Entry>, size: nat, retryMax: nat,
                            modifiedToday: bool, strict: bool, env: Env)
      returns (members': set<string>, raised: bool)
    requires size > 0 && store.returned == [] && store.retries == []
    modifies store
    ensures store.Value() == Sync(old(store.table), metadata, size, retryMax, env)
    ensures members' == Membership(members, store.returned, modifiedToday, Relations(store.table.Keys, strict))
    ensures raised <==> && !Blocked(|members|, |store.returned|, modifiedToday) && strict
                        && !(Elems(store.returned) <= store.table.Keys)
  {
    CreateContentMetadata(store, metadata, size, retryMax, env);
    var existing, proposed := |members|, |store.returned|;
    if existing > 0 && proposed == 0 {
      return members, false;
    }
    if existing > CONSIDERATION_FLOOR && !modifiedToday {
      var change := if proposed < existing then existing - proposed else proposed - existing;
      if 10 * change > 8 * existing {
        return members, false;
      }
    }
    members', raised := SetRelations(members, store.returned, Relations(store.table.Keys, strict));
  }

  lemma {:induction false} ElemsOfDistinct(s: seq<string>)
    requires NoDup(s)
    ensures |Elems(s)| == |s|
  {
    if s != [] {
      var front, last := s[..|s| - 1], s[|s| - 1];
      assert NoDup(front) && last !in front;
      ElemsOfDistinct(front);
      assert s == front + [last];
      assert Elems(s) == Elems(front) + {last};
    }
  }

  /** Without a refused insert every key that is handed back has its row. */
  lemma ReturnedIsStored(table: Table, metadata: seq<Entry>, size: nat, retryMax: nat, env: Env, k: string)
    requires size > 0 && Distinct(Allowed(metadata, env)) && forall n :: !env.trouble(n).InsertConflict?
    requires k in Sync(table, metadata, size, retryMax, env).returned
    ensures k in Sync(table, metadata, size, retryMax, env).table
  {
    var s, all := Sync(table, metadata, size, retryMax, env), Allowed(metadata, env);
    SyncAccountsForAll(table, metadata, size, retryMax, env);
    assert k in multiset(s.returned);
    assert k in multiset(Keys(all));
    assert k in Keys(all);
    var i :| 0 <= i < |all| && Keys(all)[i] == k;
    assert all[i] in all && KeyText(all[i]) == k;
    assert Settled(table, s.table, all[i], env.parse);
  }

  /** One refresh: the keys handed back, whether the query was modified today, and what the replacement meets. */
  datatype Refresh = Refresh(proposed: seq<string>, modifiedToday: bool, relations: Relations)

  function AfterRefresh(members: set<string>, f: Refresh): set<string> {
    Membership(members, f.proposed, f.modifiedToday, f.relations)
  }

  /** None of the keys handed back is stored, and the database lets that pass. */
  ghost predicate AllLost(f: Refresh) {
    !f.relations.strict && f.proposed != [] && forall k | k in f.proposed :: k !in f.relations.stored
  }

  /** Exactly when one refresh empties a query that has members: the guardrail counts keys, not stored rows. */
  lemma EmptiedExactly(members: set<string>, f: Refresh)
    requires members != {}
    ensures AfterRefresh(members, f) == {} <==> AllLost(f) && !Blocked(|members|, |f.proposed|, f.modifiedToday)
  {
    if f.proposed != [] {
      assert f.proposed[0] in Elems(f.proposed);
    }
    if k :| k in f.proposed && k in f.relations.stored {
      assert k in Elems(f.proposed) * f.relations.stored;
    }
  }

  /** And it can happen: of two new entries the second is refused, and the row of the only key handed back is undone. */
  lemma ARefreshCanEmpty(table: Table, member: string, env: Env)
    requires member in table && "a" !in table && "b" !in table
    requires env.trouble(0) == InsertConflict(1) && env.allow(FIRST) && env.allow(SECOND)
    ensures var s := Sync(table, [FIRST, SECOND], 2, 0, env);
            AfterRefresh({member}, Refresh(s.returned, false, Relations(s.table.Keys, false))) == {}
  {
    var batch := [FIRST, SECOND];
    assert batch[..1] == [FIRST] && [FIRST][..0] == [];
    assert Allowed([FIRST], env) == [] + [FIRST] == [FIRST];
    assert Allowed(batch, env) == [FIRST] + [SECOND] == batch;
    assert SlicesFrom(batch, 2, 2) == [] && batch[0..2] == batch;
    assert Slices(batch, 2) == [batch] + SlicesFrom(batch, 2, 2) == [batch];
    AnUndoneKeyIsHandedBack(table, env.parse, env.clock(0));
    var s := Process(Store(table, [], []), batch, env.trouble(0), env.parse, env.clock(0));
    var taken := SliceNext(Store(table, [], []), [batch], env, 0, Store(table, [], []));
    assert taken == s;
    assert Sync(table, batch, 2, 0, env) == s;
    EmptiedExactly({member}, Refresh(["a"], false, Relations(table.Keys, false)));
  }

  /** A query that has members keeps having some, whatever the refreshes bring, unless one loses all its rows. */
  lemma {:induction false} NeverEmptied(members: set<string>, refreshes: seq<Refresh>)
    requires members != {} && forall f | f in refreshes :: !AllLost(f)
    ensures AfterRefreshes(members, refreshes) != {}
    decreases |refreshes|
  {
    if refreshes != [] {
      EmptiedExactly(members, refreshes[0]);
      NeverEmptied(AfterRefresh(members, refreshes[0]), refreshes[1..]);
    }
  }

  function AfterRefreshes(members: set<string>, refreshes: seq<Refresh>): set<string>
    decreases |refreshes|
  {
    if refreshes == [] then members else AfterRefreshes(AfterRefresh(members, refreshes[0]), refreshes[1..])
  }

  /**
   A large query not modified today does not change, or is proposed a list within eight tenths of its size and of at
   least eleven keys, and takes of it what is stored: all of it, if the database refuses anything less.
   */
  lemma LargeQueriesChangeSlowly(members: set<string>, proposed: seq<string>, relations: Relations)
    requires |members| > CONSIDERATION_FLOOR && NoDup(proposed)
    ensures var after := Membership(members, proposed, false, relations);
            || after == members
            || (&& 10 * Distance(|members|, |proposed|) <= 8 * |members| && |proposed| >= 11
                && after == Elems(proposed) * relations.stored
                && (relations.strict || Elems(proposed) <= relations.stored ==> |after| == |proposed|))
  {
    ElemsOfDistinct(proposed);
    if Elems(proposed) <= relations.stored {
      assert Elems(proposed) * relations.stored == Elems(proposed);
    }
  }
}
