/**
 What a refresh comes to, in terms of the payload, of what the query allows and of which calls failed: which keys are
 handed back or left queued, when the queue drains, which stamp each record carries, and who is a member afterwards.
 */
module RefreshOutcomes {
  import opened Prelude
  import opened ContentSync
  import opened BatchSync
  import opened CatalogRefresh
  import opened Slicing

  /** An entry of the payload that the query allows, under this key. */
  ghost predicate Admits(metadata: seq<Entry>, env: Env, e: Entry, k: string) {
    e in metadata && env.allow(e) && KeyOf(e) == Some(k)
  }

  /** The allowed entries of the payload have keys, no two the same. */
  ghost predicate DistinctlyKeyed(metadata: seq<Entry>, env: Env) {
    && (forall i | 0 <= i < |metadata| && env.allow(metadata[i]) :: KeyOf(metadata[i]).Some?)
    && forall i, j | 0 <= i < j < |metadata| && env.allow(metadata[i]) && env.allow(metadata[j]) ::
         KeyOf(metadata[i]) != KeyOf(metadata[j])
  }

  lemma {:induction false} AllowedMembers(batch: seq<Entry>, env: Env, e: Entry)
    ensures e in Allowed(batch, env) <==> e in batch && env.allow(e)
  {
    if batch != [] {
      AllowedMembers(batch[..|batch| - 1], env, e);
      assert batch == batch[..|batch| - 1] + [batch[|batch| - 1]];
    }
  }

  /** The allowed entries, in their order: those of one list after those of another, and of one entry itself or none. */
  lemma AllowedInOrder(a: seq<Entry>, b: seq<Entry>, e: Entry, env: Env)
    ensures Allowed(a + b, env) == Allowed(a, env) + Allowed(b, env)
    ensures Allowed([e], env) == if env.allow(e) then [e] else []
  {
    AllowedConcat(a, b, env);
    assert [e][..0] == [];
  }

  lemma KeysHave(batch: seq<Entry>, k: string)
    requires forall e | e in batch :: KeyOf(e).Some?
    ensures k in Keys(batch) <==> exists e :: e in batch && KeyOf(e) == Some(k)
  {
    if k in Keys(batch) {
      var i :| 0 <= i < |batch| && Keys(batch)[i] == k;
      assert batch[i] in batch && KeyOf(batch[i]) == Some(k);
    }
    if e :| e in batch && KeyOf(e) == Some(k) {
      KeyListed(batch, e);
    }
  }

  lemma AllowedKeys(metadata: seq<Entry>, env: Env, k: string)
    requires forall e | e in metadata && env.allow(e) :: KeyOf(e).Some?
    ensures k in Keys(Allowed(metadata, env)) <==> exists e :: Admits(metadata, env, e, k)
  {
    forall e: Entry
      ensures e in Allowed(metadata, env) <==> e in metadata && env.allow(e)
    {
      AllowedMembers(metadata, env, e);
    }
    KeysHave(Allowed(metadata, env), k);
    if e :| e in Allowed(metadata, env) && KeyOf(e) == Some(k) {
      assert Admits(metadata, env, e, k);
    }
  }

  lemma NotAmongOthers(metadata: seq<Entry>, env: Env)
    requires metadata != [] && DistinctlyKeyed(metadata, env) && env.allow(metadata[|metadata| - 1])
    ensures var front, k := metadata[..|metadata| - 1], KeyText(metadata[|metadata| - 1]);
            forall e :: !Admits(front, env, e, k)
  {
    forall e | e in metadata[..|metadata| - 1] && env.allow(e)
      ensures KeyOf(e) != KeyOf(metadata[|metadata| - 1])
    {
      var i :| 0 <= i < |metadata| - 1 && metadata[i] == e;
    }
  }

  lemma {:induction false} DistinctExactly(metadata: seq<Entry>, env: Env)
    requires DistinctlyKeyed(metadata, env)
    ensures Distinct(Allowed(metadata, env))
  {
    if metadata != [] {
      var front, last := metadata[..|metadata| - 1], metadata[|metadata| - 1];
      DistinctExactly(front, env);
      if env.allow(last) {
        AllowedKeys(front, env, KeyText(last));
        NotAmongOthers(metadata, env);
        assert Keys(Allowed(metadata, env)) == Keys(Allowed(front, env)) + [KeyText(last)];
      }
    }
  }

  // ---------------------------------------------------------------- handed back or queued

  /** The record is what the entry makes of the one the sync found, stamped at some time. */
  ghost predicate Took(start: Table, t: Table, e: Entry, k: string, parse: Parser) {
    k in t && t[k] == RecordAfter(start, e, parse, t[k].modified)
  }

  /**
   After a sync without a refused insert, a key is handed back or still queued exactly when it is the key of an entry of
   the payload that the query allows: handed back with its record taken from the entry, queued with its record as it
   was. Any other record is as it was.
   */
  lemma SyncExactly(table: Table, metadata: seq<Entry>, size: nat, retryMax: nat, env: Env, k: string)
    requires size > 0 && DistinctlyKeyed(metadata, env) && forall n :: !env.trouble(n).InsertConflict?
    ensures var s := Sync(table, metadata, size, retryMax, env);
            && (k in s.returned || (exists e :: e in s.retries && KeyOf(e) == Some(k))
                <==> exists e :: Admits(metadata, env, e, k))
            && !(k in s.returned && exists e :: e in s.retries && KeyOf(e) == Some(k))
            && (forall e | Admits(metadata, env, e, k) && k in s.returned :: Took(table, s.table, e, k, env.parse))
            && (k !in s.returned ==> Untouched(table, s.table, k))
            && NoDup(s.returned)
  {
    var s, all := Sync(table, metadata, size, retryMax, env), Allowed(metadata, env);
    DistinctExactly(metadata, env);
    SyncAccountsForAll(table, metadata, size, retryMax, env);
    AllowedKeys(metadata, env, k);
    KeysHave(s.retries, k);
    CountedOnce(s.returned, Keys(s.retries), Keys(all), k);
    forall e | Admits(metadata, env, e, k) && k in s.returned
      ensures Took(table, s.table, e, k, env.parse)
    {
      AllowedMembers(metadata, env, e);
      assert Settled(table, s.table, e, env.parse);
    }
  }

  lemma CountedOnce(a: seq<string>, b: seq<string>, all: seq<string>, k: string)
    requires multiset(a) + multiset(b) + multiset(Keys([])) == multiset(all) && NoDup(all)
    ensures k in all <==> k in a || k in b
    ensures !(k in a && k in b) && NoDup(a)
  {
    assert Keys([]) == [];
    NoDupCounts(all);
    NoDupCounts(a);
    forall x
      ensures multiset(a)[x] + multiset(b)[x] == multiset(all)[x] <= 1
    {
    }
    assert k in all <==> multiset(all)[k] > 0;
    assert k in a <==> multiset(a)[k] > 0;
    assert k in b <==> multiset(b)[k] > 0;
  }

  // ---------------------------------------------------------------- when the queue drains

  /** How many of the calls from one on, up to another, meet no error. */
  function Successes(env: Env, from: nat, upto: nat): nat {
    if upto <= from then 0
    else Successes(env, from, upto - 1) + if env.trouble(upto - 1).UpdateFails? then 0 else 1
  }

  function Less(queued: nat, done: nat): nat {
    if done < queued then queued - done else 0
  }

  ghost predicate QueueIs(s: Store, env: Env, queued: nat, from: nat, call: nat) {
    from <= call && |s.retries| == Less(queued, Successes(env, from, call))
  }

  lemma QueueAfterOne(s: Store, env: Env, queued: nat, from: nat, call: nat)
    requires QueueIs(s, env, queued, from, call)
    ensures QueueIs(Retry(s, env, call), env, queued, from, call + 1)
  {
  }

  /** Each retry that meets no error shortens the queue by one, until it is empty; no other does. */
  lemma QueueAfter(s: Store, env: Env, call: nat, left: nat)
    ensures |RetryFrom(s, env, call, left).retries| == Less(|s.retries|, Successes(env, call, call + left))
  {
    var inv := (x: Store, n: nat) => QueueIs(x, env, |s.retries|, call, n);
    forall x, n: nat | inv(x, n)
      ensures inv(RetryIn(env)(x, n), n + 1)
    {
      QueueAfterOne(x, env, |s.retries|, call, n);
    }
    RepeatKeeps(s, RetryIn(env), call, left, inv);
  }

  /** One retry takes the first entry of the queue, alone; when it fails the entry joins the end. */
  lemma RetryTakesFirst(s: Store, env: Env, call: nat)
    requires s.retries != []
    ensures var first, rest := s.retries[0], s.retries[1..];
            RetryFrom(s, env, call, 1)
            == if env.trouble(call).UpdateFails? then s.(retries := rest + [first])
               else Process(s.(retries := rest), [first], env.trouble(call), env.parse, env.clock(call))
  {
    assert Repeat(s, RetryIn(env), call, 0) == s;
  }

  /** Retrying goes on where it stopped, one call later each time, and stops when the queue is empty. */
  lemma RetriesGoOn(s: Store, env: Env, call: nat, left: nat, more: nat)
    ensures RetryFrom(s, env, call, left + more) == RetryFrom(RetryFrom(s, env, call, left), env, call + left, more)
    ensures s.retries == [] || left == 0 ==> RetryFrom(s, env, call, left) == s
  {
    RepeatSplit(s, RetryIn(env), call, left, more);
    if s.retries == [] {
      RetryStops(s, env, call, 0, left);
    }
  }

  /** How many allowed entries from place n on lie in a slice whose call fails. */
  function QueuedFrom(metadata: seq<Entry>, size: nat, env: Env, n: nat): nat
    requires size > 0
    decreases |metadata| - n
  {
    if n >= |metadata| then 0
    else
      (if env.allow(metadata[n]) && env.trouble(n / size).UpdateFails? then 1 else 0)
      + QueuedFrom(metadata, size, env, n + 1)
  }

  lemma Scaled(a: nat, b: nat, size: nat)
    requires a <= b
    ensures a * size <= b * size
  {
  }

  lemma PlaceInSlice(n: nat, size: nat, i: nat)
    requires size > 0 && i * size <= n < (i + 1) * size
    ensures n / size == i
  {
    assert n / size * size <= n < (n / size + 1) * size;
    if n / size < i {
      Scaled(n / size + 1, i, size);
    }
  }

  lemma {:induction false} QueuedInSlice(metadata: seq<Entry>, size: nat, env: Env, i: nat, from: nat, end: nat)
    requires size > 0 && i * size <= from <= end <= |metadata| && end <= (i + 1) * size
    ensures QueuedFrom(metadata, size, env, from)
            == (if env.trouble(i).UpdateFails? then |Allowed(metadata[from..end], env)| else 0)
               + QueuedFrom(metadata, size, env, end)
    decreases end - from
  {
    if from < end {
      PlaceInSlice(from, size, i);
      QueuedInSlice(metadata, size, env, i, from + 1, end);
      assert metadata[from..end] == [metadata[from]] + metadata[from + 1..end];
      AllowedInOrder([metadata[from]], metadata[from + 1..end], metadata[from], env);
    } else {
      assert metadata[from..end] == [];
    }
  }

  lemma SliceQueues(metadata: seq<Entry>, size: nat, env: Env, i: nat)
    requires size > 0 && i < |Slices(metadata, size)|
    ensures QueuedFrom(metadata, size, env, i * size)
            == (if env.trouble(i).UpdateFails? then |Allowed(Slices(metadata, size)[i], env)| else 0)
               + QueuedFrom(metadata, size, env, (i + 1) * size)
  {
    SliceShape(metadata, size, 0, i);
    var end := SliceEnd(|metadata|, size, i);
    assert (i + 1) * size == i * size + size;
    QueuedInSlice(metadata, size, env, i, i * size, end);
  }

  lemma NothingQueuedAfter(metadata: seq<Entry>, size: nat, env: Env)
    requires size > 0
    ensures QueuedFrom(metadata, size, env, |Slices(metadata, size)| * size) == 0
  {
    SliceCount(metadata, size, 0);
  }

  lemma SliceQueuesOne(s: Store, slices: seq<seq<Entry>>, env: Env, i: nat)
    requires i < |slices|
    ensures |TakeSlice(s, slices, env, i).retries|
            == |s.retries| + if env.trouble(i).UpdateFails? then |Allowed(slices[i], env)| else 0
  {
  }

  /** What is queued after the slices: the allowed entries of those whose call failed. */
  lemma QueuedBySlices(metadata: seq<Entry>, size: nat, env: Env, s: Store)
    requires size > 0
    ensures var slices := Slices(metadata, size);
            |SyncTo(s, slices, env, |slices|).retries| == |s.retries| + QueuedFrom(metadata, size, env, 0)
  {
    var slices := Slices(metadata, size);
    var total := |s.retries| + QueuedFrom(metadata, size, env, 0);
    var inv := (x: Store, n: nat) =>
      n <= |slices| && |x.retries| + QueuedFrom(metadata, size, env, n * size) == total;
    forall x, n: nat | n < |slices| && inv(x, n)
      ensures inv(SliceIn(slices, env)(x, n), n + 1)
    {
      SliceQueues(metadata, size, env, n);
      SliceQueuesOne(x, slices, env, n);
    }
    RepeatKeeps(s, SliceIn(slices, env), 0, |slices|, inv);
    NothingQueuedAfter(metadata, size, env);
  }

  /**
   The queue drains exactly when as many of the retries meet no error as there are allowed entries in the slices whose
   call failed.
   */
  lemma DrainsExactly(table: Table, metadata: seq<Entry>, size: nat, retryMax: nat, env: Env)
    requires size > 0
    ensures var calls := |Slices(metadata, size)|;
            Sync(table, metadata, size, retryMax, env).retries == []
            <==> Successes(env, calls, calls + retryMax) >= QueuedFrom(metadata, size, env, 0)
  {
    var slices := Slices(metadata, size);
    QueuedBySlices(metadata, size, env, Store(table, [], []));
    QueueAfter(SyncTo(Store(table, [], []), slices, env, |slices|), env, |slices|, retryMax);
  }

  // ---------------------------------------------------------------- which stamp a record carries

  /** Handed back, with the record the entry makes at this time of the one the sync found. */
  ghost predicate Stamped(start: Table, s: Store, e: Entry, parse: Parser, at: int) {
    && KeyText(e) in s.returned && KeyText(e) in s.table
    && s.table[KeyText(e)] == RecordAfter(start, e, parse, at)
  }

  /** What was handed back is not touched again. */
  lemma StampStays(start: Table, all: seq<Entry>, batch: seq<Entry>, rest: seq<Entry>, s: Store, trouble: Trouble,
                   parse: Parser, now: int, e: Entry, at: int)
    requires Distinct(all) && Accounted(start, all, batch + rest, s, parse) && !trouble.InsertConflict?
    requires Stamped(start, s, e, parse, at)
    ensures Stamped(start, Process(s, batch, trouble, parse, now), e, parse, at)
  {
    if !trouble.UpdateFails? {
      PendingIsFresh(start, all, batch, rest, s, parse);
      ProcessEffect(s, batch, parse, now);
      var s' := Process(s, batch, trouble, parse, now);
      assert KeyText(e) in multiset(s'.returned);
    }
  }

  /** A call that meets no error stamps its entries. */
  lemma CallStamps(start: Table, all: seq<Entry>, batch: seq<Entry>, rest: seq<Entry>, s: Store, trouble: Trouble,
                   parse: Parser, now: int, e: Entry)
    requires Distinct(all) && Accounted(start, all, batch + rest, s, parse) && trouble.NoTrouble? && e in batch
    ensures Stamped(start, Process(s, batch, trouble, parse, now), e, parse, now)
  {
    PendingIsFresh(start, all, batch, rest, s, parse);
    ProcessEffect(s, batch, parse, now);
    KeyListed(batch, e);
    SameResult(start, s.table, e, parse, now);
    var s' := Process(s, batch, trouble, parse, now);
    assert KeyText(e) in multiset(Keys(batch));
    assert KeyText(e) in multiset(s'.returned);
  }

  /** So far all is accounted for, and slice j, once taken, has stamped the entry. */
  ghost predicate StampedInTurn(start: Table, all: seq<Entry>, s: Store, slices: seq<seq<Entry>>, env: Env, n: nat,
                                e: Entry, j: nat)
  {
    Underway(start, all, s, slices, env, n) && (j < n ==> Stamped(start, s, e, env.parse, env.clock(j)))
  }

  /** Slice j stamps the entry, and later slices leave it alone. */
  lemma SliceStamps(start: Table, all: seq<Entry>, s: Store, slices: seq<seq<Entry>>, env: Env, i: nat, e: Entry,
                    j: nat)
    requires StampedInTurn(start, all, s, slices, env, i, e, j)
    requires i < |slices| && j < |slices| && !env.trouble(i).InsertConflict?
    requires e in Allowed(slices[j], env) && !env.trouble(j).UpdateFails?
    ensures StampedInTurn(start, all, TakeSlice(s, slices, env, i), slices, env, i + 1, e, j)
  {
    var batch, rest := Allowed(slices[i], env), AllowedFrom(slices, env, i + 1);
    SliceKeepsAccount(start, all, s, slices, env, i);
    if j < i {
      StampStays(start, all, batch, rest, s, env.trouble(i), env.parse, env.clock(i), e, env.clock(j));
    } else if j == i {
      CallStamps(start, all, batch, rest, s, env.trouble(i), env.parse, env.clock(i), e);
    }
  }

  lemma SlicesStamp(start: Table, all: seq<Entry>, s: Store, slices: seq<seq<Entry>>, env: Env, e: Entry, j: nat)
    requires j < |slices| && Underway(start, all, s, slices, env, 0)
    requires forall n :: !env.trouble(n).InsertConflict?
    requires e in Allowed(slices[j], env) && !env.trouble(j).UpdateFails?
    ensures StampedInTurn(start, all, SyncTo(s, slices, env, |slices|), slices, env, |slices|, e, j)
  {
    var inv := (x: Store, n: nat) => StampedInTurn(start, all, x, slices, env, n, e, j);
    forall x, n: nat | n < |slices| && inv(x, n)
      ensures inv(SliceIn(slices, env)(x, n), n + 1)
    {
      SliceStamps(start, all, x, slices, env, n, e, j);
    }
    RepeatKeeps(s, SliceIn(slices, env), 0, |slices|, inv);
  }

  lemma RetryKeepsStamp(start: Table, all: seq<Entry>, s: Store, env: Env, call: nat, e: Entry, at: int)
    requires Distinct(all) && Accounted(start, all, [], s, env.parse) && !env.trouble(call).InsertConflict?
    requires Stamped(start, s, e, env.parse, at)
    ensures Stamped(start, Retry(s, env, call), e, env.parse, at)
  {
    if s.retries != [] {
      Requeue(start, all, s, env.parse);
      StampStays(start, all, [s.retries[0]], [], s.(retries := s.retries[1..]), env.trouble(call), env.parse,
        env.clock(call), e, at);
    }
  }

  lemma RetriesKeepStamp(start: Table, all: seq<Entry>, s: Store, env: Env, call: nat, left: nat, e: Entry, at: int)
    requires Distinct(all) && Accounted(start, all, [], s, env.parse) && Stamped(start, s, e, env.parse, at)
    requires forall n :: !env.trouble(n).InsertConflict?
    ensures Stamped(start, RetryFrom(s, env, call, left), e, env.parse, at)
  {
    var inv := (x: Store, _: nat) =>
      Accounted(start, all, [], x, env.parse) && Stamped(start, x, e, env.parse, at);
    forall x, n: nat | inv(x, n)
      ensures inv(RetryIn(env)(x, n), n + 1)
    {
      RetryKeepsAccount(start, all, x, env, n);
      RetryKeepsStamp(start, all, x, env, n, e, at);
    }
    RepeatKeeps(s, RetryIn(env), call, left, inv);
  }

  /** Still queued, or stamped by one of the calls before this one, one that met no error. */
  ghost predicate QueuedOrStamped(start: Table, s: Store, env: Env, e: Entry, from: nat, call: nat) {
    || e in s.retries
    || exists c: nat :: && from <= c < call && !env.trouble(c).UpdateFails?
                        && Stamped(start, s, e, env.parse, env.clock(c))
  }

  lemma RetryStamps(start: Table, all: seq<Entry>, s: Store, env: Env, call: nat, e: Entry)
    requires Distinct(all) && Accounted(start, all, [], s, env.parse) && e in s.retries
    requires !env.trouble(call).InsertConflict?
    ensures var next := Retry(s, env, call);
            if e == s.retries[0] && !env.trouble(call).UpdateFails?
            then Stamped(start, next, e, env.parse, env.clock(call))
            else e in next.retries
  {
    var first := s.retries[0];
    Requeue(start, all, s, env.parse);
    if e == first && !env.trouble(call).UpdateFails? {
      CallStamps(start, all, [first], [], s.(retries := s.retries[1..]), env.trouble(call), env.parse, env.clock(call),
        e);
    } else {
      assert s.retries == [first] + s.retries[1..];
    }
  }

  lemma RetryGoesOn(start: Table, all: seq<Entry>, s: Store, env: Env, from: nat, call: nat, e: Entry)
    requires Distinct(all) && Accounted(start, all, [], s, env.parse) && from <= call
    requires !env.trouble(call).InsertConflict? && QueuedOrStamped(start, s, env, e, from, call)
    ensures QueuedOrStamped(start, Retry(s, env, call), env, e, from, call + 1)
  {
    if e in s.retries {
      RetryStamps(start, all, s, env, call, e);
    } else {
      var c: nat :| from <= c < call && !env.trouble(c).UpdateFails? && Stamped(start, s, e, env.parse, env.clock(c));
      RetryKeepsStamp(start, all, s, env, call, e, env.clock(c));
    }
  }

  /** A queued entry stays queued until one of the retries, one that meets no error, hands it back with its stamp. */
  lemma RetriesStamp(start: Table, all: seq<Entry>, s: Store, env: Env, call: nat, left: nat, e: Entry)
    requires Distinct(all) && Accounted(start, all, [], s, env.parse) && e in s.retries
    requires forall n :: !env.trouble(n).InsertConflict?
    ensures QueuedOrStamped(start, RetryFrom(s, env, call, left), env, e, call, call + left)
  {
    var inv := (x: Store, n: nat) =>
      n >= call && Accounted(start, all, [], x, env.parse) && QueuedOrStamped(start, x, env, e, call, n);
    forall x, n: nat | inv(x, n)
      ensures inv(RetryIn(env)(x, n), n + 1)
    {
      RetryKeepsAccount(start, all, x, env, n);
      RetryGoesOn(start, all, x, env, call, n, e);
    }
    RepeatKeeps(s, RetryIn(env), call, left, inv);
  }

  lemma SliceNumber(n: nat, total: nat, size: nat, count: nat)
    requires size > 0 && n < total && count * size >= total
    ensures n / size < count && n / size * size <= n < (n / size + 1) * size
  {
    if n / size >= count {
      Scaled(count, n / size, size);
    }
  }

  lemma PlaceIsInSlice(metadata: seq<Entry>, size: nat, env: Env, n: nat)
    requires size > 0 && n < |metadata| && env.allow(metadata[n])
    ensures n / size < |Slices(metadata, size)| && metadata[n] in Allowed(Slices(metadata, size)[n / size], env)
  {
    SliceCount(metadata, size, 0);
    SliceNumber(n, |metadata|, size, |Slices(metadata, size)|);
    EntryOfSlice(metadata, size, n, n / size);
    AllowedMembers(Slices(metadata, size)[n / size], env, metadata[n]);
  }

  lemma EntryOfSlice(metadata: seq<Entry>, size: nat, n: nat, i: nat)
    requires size > 0 && n < |metadata| && i < |Slices(metadata, size)| && i * size <= n < (i + 1) * size
    ensures metadata[n] in Slices(metadata, size)[i]
  {
    SliceShape(metadata, size, 0, i);
    assert metadata[i * size..SliceEnd(|metadata|, size, i)][n - i * size] == metadata[n];
  }

  lemma SetOut(table: Table, metadata: seq<Entry>, size: nat, env: Env)
    requires size > 0 && Distinct(Allowed(metadata, env))
    ensures Underway(table, Allowed(metadata, env), Store(table, [], []), Slices(metadata, size), env, 0)
  {
    AllowedOfSlices(metadata, size, 0, env);
    assert metadata[0..] == metadata;
  }

  /** An allowed entry whose slice meets no error is handed back, stamped with the time of that slice's call. */
  lemma StampOfSlice(table: Table, metadata: seq<Entry>, size: nat, retryMax: nat, env: Env, n: nat)
    requires size > 0 && DistinctlyKeyed(metadata, env) && forall m :: !env.trouble(m).InsertConflict?
    requires n < |metadata| && env.allow(metadata[n]) && !env.trouble(n / size).UpdateFails?
    ensures Stamped(table, Sync(table, metadata, size, retryMax, env), metadata[n], env.parse, env.clock(n / size))
  {
    var all, slices, e := Allowed(metadata, env), Slices(metadata, size), metadata[n];
    DistinctExactly(metadata, env);
    PlaceIsInSlice(metadata, size, env, n);
    var s := SyncTo(Store(table, [], []), slices, env, |slices|);
    SetOut(table, metadata, size, env);
    SyncKeepsAccount(table, all, Store(table, [], []), slices, env);
    SlicesStamp(table, all, Store(table, [], []), slices, env, e, n / size);
    RetriesKeepStamp(table, all, s, env, |slices|, retryMax, e, env.clock(n / size));
  }

  lemma SliceKeepsQueue(s: Store, slices: seq<seq<Entry>>, env: Env, i: nat, e: Entry)
    requires i < |slices|
    requires e in s.retries || (env.trouble(i).UpdateFails? && e in Allowed(slices[i], env))
    ensures e in TakeSlice(s, slices, env, i).retries
  {
  }

  lemma StaysQueued(s: Store, slices: seq<seq<Entry>>, env: Env, j: nat, e: Entry)
    requires j < |slices| && env.trouble(j).UpdateFails? && e in Allowed(slices[j], env)
    ensures e in SyncTo(s, slices, env, |slices|).retries
  {
    var inv := (x: Store, n: nat) => n <= |slices| && (j < n ==> e in x.retries);
    forall x, n: nat | n < |slices| && inv(x, n)
      ensures inv(SliceIn(slices, env)(x, n), n + 1)
    {
      if j <= n {
        SliceKeepsQueue(x, slices, env, n, e);
      }
    }
    RepeatKeeps(s, SliceIn(slices, env), 0, |slices|, inv);
  }

  lemma QueuedAfterSlices(table: Table, metadata: seq<Entry>, size: nat, env: Env, n: nat)
    requires size > 0 && n < |metadata| && env.allow(metadata[n]) && env.trouble(n / size).UpdateFails?
    ensures var slices := Slices(metadata, size);
            metadata[n] in SyncTo(Store(table, [], []), slices, env, |slices|).retries
  {
    PlaceIsInSlice(metadata, size, env, n);
    StaysQueued(Store(table, [], []), Slices(metadata, size), env, n / size, metadata[n]);
  }

  /** One whose slice fails is still queued, or is handed back with the time of a retry that met no error. */
  lemma StampOfRetry(table: Table, metadata: seq<Entry>, size: nat, retryMax: nat, env: Env, n: nat)
    requires size > 0 && DistinctlyKeyed(metadata, env) && forall m :: !env.trouble(m).InsertConflict?
    requires n < |metadata| && env.allow(metadata[n]) && env.trouble(n / size).UpdateFails?
    ensures var calls, s := |Slices(metadata, size)|, Sync(table, metadata, size, retryMax, env);
            QueuedOrStamped(table, s, env, metadata[n], calls, calls + retryMax)
  {
    DistinctExactly(metadata, env);
    QueuedAfterSlices(table, metadata, size, env, n);
    var all, slices := Allowed(metadata, env), Slices(metadata, size);
    SetOut(table, metadata, size, env);
    SyncKeepsAccount(table, all, Store(table, [], []), slices, env);
    var s := SyncTo(Store(table, [], []), slices, env, |slices|);
    RetriesStamp(table, all, s, env, |slices|, retryMax, metadata[n]);
  }

  // ---------------------------------------------------------------- who is a member afterwards

  /**
   After a refresh a key is a member exactly when it was one and the guardrail objects, or the guardrail does not and
   the query allows an entry of the payload under that key that is not still queued.
   */
  lemma RefreshedExactly(table: Table, members: set<string>, metadata: seq<Entry>, size: nat, retryMax: nat,
                         modifiedToday: bool, strict: bool, env: Env, k: string)
    requires size > 0 && DistinctlyKeyed(metadata, env) && forall n :: !env.trouble(n).InsertConflict?
    ensures var s := Sync(table, metadata, size, retryMax, env);
            var after := Membership(members, s.returned, modifiedToday, Relations(s.table.Keys, strict));
            && (Blocked(|members|, |s.returned|, modifiedToday) ==> (k in after <==> k in members))
            && (!Blocked(|members|, |s.returned|, modifiedToday) ==>
                  (k in after <==> (exists e :: Admits(metadata, env, e, k))
                                   && !exists e :: e in s.retries && KeyOf(e) == Some(k)))
            && (!Blocked(|members|, |s.returned|, modifiedToday) && s.retries == [] ==>
                  (k in after <==> exists e :: Admits(metadata, env, e, k)))
  {
    var s := Sync(table, metadata, size, retryMax, env);
    SyncExactly(table, metadata, size, retryMax, env, k);
    DistinctExactly(metadata, env);
    forall j | j in s.returned
      ensures j in s.table
    {
      ReturnedIsStored(table, metadata, size, retryMax, env, j);
    }
    assert k in Elems(s.returned) <==> k in s.returned;
  }
}
