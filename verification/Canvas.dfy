/**
 Cutting the dispatched records into batches, putting the batches of each kind into a group, nesting the groups as
 chords, and what the nesting guarantees about when a batch may start.
 */
module Canvas {
  import opened Prelude
  import opened Slicing

  datatype Kind = Courses | Programs | Pathways | Videos

  /** One batch task: its kind and the keys it is handed. */
  datatype Job = Job(kind: Kind, keys: seq<string>)

  const VIDEO_BATCH_SIZE: nat := 20

  const KINDS: seq<Kind> := [Courses, Programs, Pathways, Videos]

  function Rank(k: Kind): nat {
    match k
    case Courses => 0
    case Programs => 1
    case Pathways => 2
    case Videos => 3
  }

  // ---------------------------------------------------------------- batches

  /** A batch size of zero takes nothing from the list, which ends the batching at once. */
  function Chunks<T>(xs: seq<T>, size: nat): seq<seq<T>> {
    if size == 0 then [] else Slices(xs, size)
  }

  method Chunked<T>(xs: seq<T>, size: nat) returns (chunks: seq<seq<T>>)
    ensures chunks == Chunks(xs, size)
  {
    chunks := [];
    var from := 0;
    while true
      invariant 0 <= from <= |xs|
      invariant size > 0 ==> chunks + SlicesFrom(xs, size, from) == Slices(xs, size)
      invariant size == 0 ==> chunks == []
      decreases |xs| - from
    {
      var to := if from + size < |xs| then from + size else |xs|;
      var chunk := xs[from..to];
      if chunk == [] {
        break;
      }
      chunks, from := chunks + [chunk], to;
    }
  }

  /** The chunks put together are the list, so every occurrence is in one of them; none is empty or too long. */
  lemma ChunksPartition<T>(xs: seq<T>, size: nat)
    requires size > 0
    ensures Flatten(Chunks(xs, size)) == xs
    ensures forall i | 0 <= i < |Chunks(xs, size)| :: 0 < |Chunks(xs, size)[i]| <= size
    ensures forall i | 0 <= i < |Chunks(xs, size)| - 1 :: |Chunks(xs, size)[i]| == size
  {
    SlicesJoin(xs, size, 0);
    assert xs[0..] == xs;
    forall i | 0 <= i < |Chunks(xs, size)|
      ensures 0 < |Chunks(xs, size)[i]| <= size && (i + 1 < |Chunks(xs, size)| ==> |Chunks(xs, size)[i]| == size)
    {
      SliceLength(xs, size, 0, i);
    }
  }

  // ---------------------------------------------------------------- groups

  type Records = map<Kind, seq<string>>

  function RecordsOf(records: Records, k: Kind): seq<string> {
    if k in records then records[k] else []
  }

  function SizeFor(k: Kind, batchSize: nat): nat {
    if k == Videos then VIDEO_BATCH_SIZE else batchSize
  }

  function JobsOf(k: Kind, chunks: seq<seq<string>>): (jobs: seq<Job>)
    ensures |jobs| == |chunks| && forall i :: 0 <= i < |jobs| ==> jobs[i] == Job(k, chunks[i])
  {
    seq(|chunks|, i requires 0 <= i < |chunks| => Job(k, chunks[i]))
  }

  function JobsFor(records: Records, batchSize: nat, k: Kind): seq<Job> {
    JobsOf(k, Chunks(RecordsOf(records, k), SizeFor(k, batchSize)))
  }

  /** One group for each kind that has batches, in the order of the kinds. */
  function GroupsFrom(records: Records, batchSize: nat, n: nat): seq<seq<Job>>
    requires n <= |KINDS|
    decreases |KINDS| - n, batchSize
  {
    if n == |KINDS| then []
    else
      var jobs, rest := JobsFor(records, batchSize, KINDS[n]), GroupsFrom(records, batchSize, n + 1);
      if jobs == [] then rest else [jobs] + rest
  }

  datatype Tally = Tally(records: nat, batches: nat)

  function TallyOf(chunks: seq<seq<string>>): Tally {
    Tally(|Flatten(chunks)|, |chunks|)
  }

  /** Batches of one kind, counted, and made unless it is a dry run. */
  method MakeJobs(kind: Kind, keys: seq<string>, size: nat, dryRun: bool) returns (jobs: seq<Job>, tally: Tally)
    ensures jobs == if dryRun then [] else JobsOf(kind, Chunks(keys, size))
    ensures tally == TallyOf(Chunks(keys, size))
  {
    var chunks := Chunked(keys, size);
    var batches, count := 0, 0;
    jobs := [];
    for i := 0 to |chunks|
      invariant batches == i && count == |Flatten(chunks[..i])|
      invariant jobs == if dryRun then [] else JobsOf(kind, chunks)[..i]
    {
      assert chunks[..i + 1][..i] == chunks[..i];
      batches, count := batches + 1, count + |chunks[i]|;
      if !dryRun {
        jobs := jobs + [Job(kind, chunks[i])];
      }
    }
    assert chunks[..|chunks|] == chunks && JobsOf(kind, chunks)[..|chunks|] == JobsOf(kind, chunks);
    tally := Tally(count, batches);
  }

  function GroupsLeft(records: Records, batchSize: nat, n: nat, dryRun: bool): seq<seq<Job>>
    requires n <= |KINDS|
  {
    if dryRun then [] else GroupsFrom(records, batchSize, n)
  }

  lemma GroupsNext(records: Records, batchSize: nat, n: nat, dryRun: bool, groups: seq<seq<Job>>)
    requires n < |KINDS|
    ensures var jobs := if dryRun then [] else JobsFor(records, batchSize, KINDS[n]);
            groups + GroupsLeft(records, batchSize, n, dryRun)
            == (if jobs == [] then groups else groups + [jobs]) + GroupsLeft(records, batchSize, n + 1, dryRun)
  {
  }

  ghost predicate Tallied(records: Records, batchSize: nat, summary: map<Kind, Tally>, n: nat) {
    forall k | Rank(k) < n ::
      k in summary && summary[k] == TallyOf(Chunks(RecordsOf(records, k), SizeFor(k, batchSize)))
  }

  lemma TalliedNext(records: Records, batchSize: nat, summary: map<Kind, Tally>, n: nat)
    requires n < |KINDS| && Tallied(records, batchSize, summary, n)
    ensures var kind := KINDS[n];
            Tallied(records, batchSize,
                    summary[kind := TallyOf(Chunks(RecordsOf(records, kind), SizeFor(kind, batchSize)))], n + 1)
  {
    KindOfRank(n);
  }

  /** One kind: its batches are counted, and make up a group unless there are none to make. */
  method AddKind(records: Records, batchSize: nat, dryRun: bool, n: nat, groups: seq<seq<Job>>,
                 summary: map<Kind, Tally>)
      returns (groups': seq<seq<Job>>, summary': map<Kind, Tally>)
    requires n < |KINDS| && Tallied(records, batchSize, summary, n)
    ensures groups' + GroupsLeft(records, batchSize, n + 1, dryRun)
            == groups + GroupsLeft(records, batchSize, n, dryRun)
    ensures Tallied(records, batchSize, summary', n + 1)
  {
    var kind := KINDS[n];
    var jobs, tally := MakeJobs(kind, RecordsOf(records, kind), SizeFor(kind, batchSize), dryRun);
    GroupsNext(records, batchSize, n, dryRun, groups);
    TalliedNext(records, batchSize, summary, n);
    summary' := summary[kind := tally];
    groups' := if jobs == [] then groups else groups + [jobs];
  }

  /** A dry run counts the batches without making any. */
  method BuildOrderedGroups(records: Records, batchSize: nat, dryRun: bool)
      returns (groups: seq<seq<Job>>, summary: map<Kind, Tally>)
    ensures groups == if dryRun then [] else GroupsFrom(records, batchSize, 0)
    ensures forall k :: k in summary && summary[k] == TallyOf(Chunks(RecordsOf(records, k), SizeFor(k, batchSize)))
  {
    groups, summary := [], map[];
    for n := 0 to |KINDS|
      invariant groups + GroupsLeft(records, batchSize, n, dryRun) == GroupsLeft(records, batchSize, 0, dryRun)
      invariant Tallied(records, batchSize, summary, n)
    {
      groups, summary := AddKind(records, batchSize, dryRun, n, groups, summary);
    }
  }

  lemma KindOfRank(n: nat)
    requires n < |KINDS|
    ensures forall k :: Rank(k) == n <==> k == KINDS[n]
  {
  }

  /** A non-empty list of batches of one kind. */
  ghost predicate Uniform(jobs: seq<Job>) {
    jobs != [] && forall i | 0 <= i < |jobs| :: jobs[i].kind == jobs[0].kind
  }

  /** Groups are non-empty and of one kind each, in strictly increasing order of kinds. */
  ghost predicate Ordered(groups: seq<seq<Job>>) {
    && (forall g | 0 <= g < |groups| :: Uniform(groups[g]))
    && (forall g, h | 0 <= g < h < |groups| :: Rank(groups[g][0].kind) < Rank(groups[h][0].kind))
  }

  lemma {:induction false} GroupsAreOrdered(records: Records, batchSize: nat, n: nat)
    requires n <= |KINDS|
    ensures Ordered(GroupsFrom(records, batchSize, n))
    ensures forall g | 0 <= g < |GroupsFrom(records, batchSize, n)| ::
              Rank(GroupsFrom(records, batchSize, n)[g][0].kind) >= n
    decreases |KINDS| - n
  {
    if n < |KINDS| {
      GroupsAreOrdered(records, batchSize, n + 1);
      var jobs, rest := JobsFor(records, batchSize, KINDS[n]), GroupsFrom(records, batchSize, n + 1);
      if jobs != [] {
        assert Uniform(jobs) && Rank(jobs[0].kind) == n;
        OrderedPrepend(jobs, rest);
      }
    }
  }

  lemma OrderedPrepend(jobs: seq<Job>, rest: seq<seq<Job>>)
    requires Uniform(jobs) && Ordered(rest)
    requires forall g | 0 <= g < |rest| :: Rank(jobs[0].kind) < Rank(rest[g][0].kind)
    ensures Ordered([jobs] + rest)
  {
    forall g | 0 <= g < |rest| + 1
      ensures ([jobs] + rest)[g] == if g == 0 then jobs else rest[g - 1]
    {
    }
  }

  /** The batches of a kind, over all groups. */
  function KeysOfKind(groups: seq<seq<Job>>, k: Kind): seq<seq<string>> {
    if groups == [] then []
    else (if groups[0] != [] && groups[0][0].kind == k then KeysIn(groups[0]) else []) + KeysOfKind(groups[1..], k)
  }

  function KeysIn(jobs: seq<Job>): (r: seq<seq<string>>)
    ensures |r| == |jobs| && forall i :: 0 <= i < |r| ==> r[i] == jobs[i].keys
  {
    seq(|jobs|, i requires 0 <= i < |jobs| => jobs[i].keys)
  }

  lemma KeysOfJobs(kind: Kind, chunks: seq<seq<string>>)
    ensures KeysIn(JobsOf(kind, chunks)) == chunks
  {
  }

  lemma KeysOfMore(jobs: seq<Job>, rest: seq<seq<Job>>, k: Kind)
    requires jobs != []
    ensures KeysOfKind([jobs] + rest, k) == (if jobs[0].kind == k then KeysIn(jobs) else []) + KeysOfKind(rest, k)
  {
    assert ([jobs] + rest)[1..] == rest;
  }

  lemma KeysFromKind(records: Records, batchSize: nat, n: nat, k: Kind)
    requires n < |KINDS|
    ensures KeysOfKind(GroupsFrom(records, batchSize, n), k)
            == (if KINDS[n] == k then Chunks(RecordsOf(records, k), SizeFor(k, batchSize)) else [])
               + KeysOfKind(GroupsFrom(records, batchSize, n + 1), k)
  {
    var jobs := JobsFor(records, batchSize, KINDS[n]);
    KeysOfJobs(KINDS[n], Chunks(RecordsOf(records, KINDS[n]), SizeFor(KINDS[n], batchSize)));
    if jobs != [] {
      KeysOfMore(jobs, GroupsFrom(records, batchSize, n + 1), k);
    }
  }

  /** The batches of each kind are exactly the chunks of its records, so nothing is dispatched twice or left out. */
  lemma {:induction false} EveryRecordInOneBatch(records: Records, batchSize: nat, n: nat, k: Kind)
    requires n <= |KINDS|
    ensures KeysOfKind(GroupsFrom(records, batchSize, n), k)
            == if n <= Rank(k) then Chunks(RecordsOf(records, k), SizeFor(k, batchSize)) else []
    decreases |KINDS| - n
  {
    if n < |KINDS| {
      EveryRecordInOneBatch(records, batchSize, n + 1, k);
      KeysFromKind(records, batchSize, n, k);
      KindOfRank(n);
    }
  }

  /** Each occurrence of a key is dispatched in exactly one batch of its kind, and no batch is too long. */
  lemma DispatchedExactlyOnce(records: Records, batchSize: nat, k: Kind)
    requires batchSize > 0
    ensures var batches := KeysOfKind(GroupsFrom(records, batchSize, 0), k);
            && Flatten(batches) == RecordsOf(records, k)
            && forall i | 0 <= i < |batches| :: 0 < |batches[i]| <= if k == Videos then 20 else batchSize
  {
    EveryRecordInOneBatch(records, batchSize, 0, k);
    ChunksPartition(RecordsOf(records, k), SizeFor(k, batchSize));
  }

  lemma TallyOfChunks(xs: seq<string>, size: nat)
    requires size > 0
    ensures var tally := TallyOf(Chunks(xs, size));
            && tally.records == |xs| && tally.batches == |Chunks(xs, size)|
            && tally.batches * size >= |xs| && (tally.batches > 0 ==> (tally.batches - 1) * size < |xs|)
  {
    ChunksPartition(xs, size);
    SliceCount(xs, size, 0);
  }

  /** What the summary says of a kind: how many keys and how many batches, all but the last of them full. */
  lemma TallyExactly(records: Records, batchSize: nat, k: Kind)
    requires batchSize > 0
    ensures var tally := TallyOf(Chunks(RecordsOf(records, k), SizeFor(k, batchSize)));
            var size := if k == Videos then 20 else batchSize;
            && tally.records == (if k in records then |records[k]| else 0)
            && tally.batches == |KeysOfKind(GroupsFrom(records, batchSize, 0), k)|
            && tally.batches * size >= tally.records
            && (tally.batches > 0 ==> (tally.batches - 1) * size < tally.records)
  {
    EveryRecordInOneBatch(records, batchSize, 0, k);
    TallyOfChunks(RecordsOf(records, k), SizeFor(k, batchSize));
  }

  // ---------------------------------------------------------------- the canvas

  /** A group on its own, or a group whose completion starts another canvas. */
  datatype Plan = Group(jobs: seq<Job>) | Chord(header: seq<Job>, body: Plan)

  function Unrolled(p: Plan): seq<seq<Job>> {
    match p
    case Group(jobs) => [jobs]
    case Chord(header, body) => [header] + Unrolled(body)
  }

  method BuildSequentialCanvas(groups: seq<seq<Job>>) returns (canvas: Option<Plan>)
    ensures canvas.None? <==> groups == []
    ensures canvas.Some? ==> Unrolled(canvas.value) == groups
  {
    if groups == [] {
      return None;
    }
    if |groups| == 1 {
      return Some(Group(groups[0]));
    }
    var plan := Group(groups[|groups| - 1]);
    var i := |groups| - 1;
    while i > 0
      invariant 0 <= i < |groups|
      invariant Unrolled(plan) == groups[i..]
    {
      i := i - 1;
      plan := Chord(groups[i], plan);
    }
    canvas := Some(plan);
  }

  // ---------------------------------------------------------------- running a canvas

  datatype Status = Waiting | Running | Succeeded | Failed

  /** The group that has been sent out, how far each of its batches is, and what its completion starts. */
  datatype Config = Config(number: nat, jobs: seq<Job>, status: seq<Status>, rest: Option<Plan>)

  /** A batch is named by the number of its group and its place in it. */
  datatype Event = Start(g: nat, i: nat) | End(g: nat, i: nat, ok: bool) | Fire(next: nat)

  function Launch(p: Plan, number: nat): Config {
    match p
    case Group(jobs) => Config(number, jobs, AllWaiting(|jobs|), None)
    case Chord(header, body) => Config(number, header, AllWaiting(|header|), Some(body))
  }

  function AllWaiting(n: nat): (status: seq<Status>)
    ensures |status| == n && forall i :: 0 <= i < n ==> status[i].Waiting?
  {
    seq(n, _ => Waiting)
  }

  /**
   Workers may start and end the batches of the current group in any order; only when all have succeeded is the rest
   sent out.
   */
  ghost predicate Step(c: Config, e: Event, c': Config) {
    match e
    case Start(g, i) =>
      && g == c.number && i < |c.status| && c.status[i].Waiting?
      && c' == c.(status := c.status[i := Running])
    case End(g, i, ok) =>
      && g == c.number && i < |c.status| && c.status[i].Running?
      && c' == c.(status := c.status[i := if ok then Succeeded else Failed])
    case Fire(next) =>
      && next == c.number + 1 && c.rest.Some?
      && (forall i | 0 <= i < |c.status| :: c.status[i].Succeeded?)
      && c' == Launch(c.rest.value, next)
  }

  ghost predicate Schedule(p: Plan, configs: seq<Config>, events: seq<Event>) {
    && |configs| == |events| + 1
    && configs[0] == Launch(p, 0)
    && forall n | 0 <= n < |events| :: Step(configs[n], events[n], configs[n + 1])
  }

  /** What is known after some events: everything in earlier groups has succeeded, and nothing later has begun. */
  ghost predicate Caught(groups: seq<seq<Job>>, c: Config, events: seq<Event>) {
    && c.number < |groups| && c.jobs == groups[c.number] && |c.status| == |c.jobs|
    && (if c.rest.None? then c.number + 1 == |groups| else Unrolled(c.rest.value) == groups[c.number + 1..])
    && (forall g, i | 0 <= g < c.number && 0 <= i < |groups[g]| ::
          End(g, i, true) in events && End(g, i, false) !in events)
    && (forall i | 0 <= i < |c.status| ::
          && (c.status[i].Waiting? <==> Start(c.number, i) !in events)
          && (c.status[i].Succeeded? <==> End(c.number, i, true) in events)
          && (c.status[i].Failed? <==> End(c.number, i, false) in events))
    && NoneFrom(c.number + 1, events)
  }

  /** Nothing in group `g` or a later one has happened. */
  ghost predicate NoneFrom(g: nat, events: seq<Event>) {
    forall n | 0 <= n < |events| && !events[n].Fire? :: events[n].g < g
  }

  lemma LaunchCaught(groups: seq<seq<Job>>, p: Plan, number: nat, events: seq<Event>)
    requires number < |groups| && Unrolled(p) == groups[number..]
    requires forall g, i | 0 <= g < number && 0 <= i < |groups[g]| ::
               End(g, i, true) in events && End(g, i, false) !in events
    requires NoneFrom(number, events)
    ensures Caught(groups, Launch(p, number), events)
  {
    assert groups[number..][0] == groups[number];
    assert forall i, ok :: Start(number, i) !in events && End(number, i, ok) !in events;
    assert NoneFrom(number + 1, events);
    match p
    case Group(jobs) =>
      assert |groups[number..]| == 1;
    case Chord(header, body) =>
      assert Unrolled(p)[1..] == Unrolled(body);
      assert groups[number..][1..] == groups[number + 1..];
  }

  lemma StepCaught(groups: seq<seq<Job>>, c: Config, e: Event, c': Config, events: seq<Event>)
    requires Caught(groups, c, events) && Step(c, e, c')
    ensures Caught(groups, c', events + [e])
  {
    var events' := events + [e];
    if e.Fire? {
      assert NoneFrom(e.next, events') by {
        assert forall n | 0 <= n < |events| :: events'[n] == events[n];
      }
      LaunchCaught(groups, c.rest.value, e.next, events');
    } else {
      assert e in events';
      assert NoneFrom(c.number + 1, events');
    }
  }

  lemma {:induction false} ScheduleCaught(p: Plan, configs: seq<Config>, events: seq<Event>, n: nat)
    requires Schedule(p, configs, events) && n <= |events|
    ensures Caught(Unrolled(p), configs[n], events[..n])
  {
    if n == 0 {
      assert Unrolled(p)[0..] == Unrolled(p);
      LaunchCaught(Unrolled(p), p, 0, []);
    } else {
      ScheduleCaught(p, configs, events, n - 1);
      StepCaught(Unrolled(p), configs[n - 1], events[n - 1], configs[n], events[..n - 1]);
      assert events[..n] == events[..n - 1] + [events[n - 1]];
    }
  }

  /** Where a start or an end happens. */
  lemma HappensAt(p: Plan, configs: seq<Config>, events: seq<Event>, n: nat)
    requires Schedule(p, configs, events) && n < |events| && !events[n].Fire?
    ensures Caught(Unrolled(p), configs[n], events[..n]) && Step(configs[n], events[n], configs[n + 1])
    ensures events[n].g == configs[n].number < |Unrolled(p)| && events[n].i < |Unrolled(p)[events[n].g]|
  {
    ScheduleCaught(p, configs, events, n);
    assert Step(configs[n], events[n], configs[n + 1]);
  }

  /** In every schedule, when a batch starts, every batch of every earlier group has already succeeded. */
  lemma NoEarlyStart(p: Plan, configs: seq<Config>, events: seq<Event>, n: nat, g: nat, i: nat)
    requires Schedule(p, configs, events) && n < |events| && events[n].Start?
    requires g < events[n].g && g < |Unrolled(p)| && i < |Unrolled(p)[g]|
    ensures End(g, i, true) in events[..n]
  {
    HappensAt(p, configs, events, n);
  }

  /** No batch starts twice. */
  lemma StartsOnce(p: Plan, configs: seq<Config>, events: seq<Event>, m: nat, n: nat)
    requires Schedule(p, configs, events) && m < n < |events| && events[m].Start?
    ensures events[m] != events[n]
  {
    if events[n].Start? {
      HappensAt(p, configs, events, n);
      assert events[..n][m] == events[m];
    }
  }

  /** Once a batch has failed, nothing in a later group ever starts. */
  lemma FailureStopsTheRest(p: Plan, configs: seq<Config>, events: seq<Event>, m: nat, n: nat)
    requires Schedule(p, configs, events) && m < |events| && n < |events|
    requires events[m].End? && !events[m].ok && events[n].Start?
    ensures events[n].g <= events[m].g
  {
    HappensAt(p, configs, events, m);
    HappensAt(p, configs, events, n);
    if m < n {
      assert events[..n][m] == events[m];
    } else {
      assert events[..m][n] == events[n];
    }
  }

  /** A schedule is stuck only when the last group has ended or a batch of the current one has failed. */
  lemma NoDeadlock(c: Config)
    requires |c.status| == |c.jobs|
    requires forall i | 0 <= i < |c.status| :: !c.status[i].Failed?
    requires c.rest.Some? || exists i | 0 <= i < |c.status| :: !c.status[i].Succeeded?
    ensures exists e, c' :: Step(c, e, c')
  {
    if i :| 0 <= i < |c.status| && !c.status[i].Succeeded? {
      if c.status[i].Waiting? {
        assert Step(c, Start(c.number, i), c.(status := c.status[i := Running]));
      } else {
        assert Step(c, End(c.number, i, true), c.(status := c.status[i := Succeeded]));
      }
    } else {
      assert Step(c, Fire(c.number + 1), Launch(c.rest.value, c.number + 1));
    }
  }

  /** Courses come before programs, these before pathways, and videos last. */
  ghost predicate Before(a: Kind, b: Kind) {
    match b
    case Courses => false
    case Programs => a == Courses
    case Pathways => a == Courses || a == Programs
    case Videos => a != Videos
  }

  lemma BeforeExactly(a: Kind, b: Kind)
    ensures Before(a, b) <==> Rank(a) < Rank(b)
  {
  }

  /**
   For the groups the dispatcher builds: whenever a batch starts, all batches of every earlier kind have succeeded, so
   programs see courses already stamped, pathways see programs, and videos come last.
   */
  lemma KindsInOrder(records: Records, batchSize: nat, p: Plan, configs: seq<Config>, events: seq<Event>, n: nat,
                     g: nat, i: nat)
    requires Unrolled(p) == GroupsFrom(records, batchSize, 0)
    requires Schedule(p, configs, events) && n < |events| && events[n].Start?
    requires g < |Unrolled(p)| && i < |Unrolled(p)[g]|
    ensures events[n].g < |Unrolled(p)| && events[n].i < |Unrolled(p)[events[n].g]|
    ensures Before(Unrolled(p)[g][i].kind, Unrolled(p)[events[n].g][events[n].i].kind)
            ==> End(g, i, true) in events[..n]
  {
    HappensAt(p, configs, events, n);
    GroupsAreOrdered(records, batchSize, 0);
    var h := events[n].g;
    assert Uniform(Unrolled(p)[g]) && Uniform(Unrolled(p)[h]);
    BeforeExactly(Unrolled(p)[g][i].kind, Unrolled(p)[h][events[n].i].kind);
    if Before(Unrolled(p)[g][i].kind, Unrolled(p)[h][events[n].i].kind) {
      assert g < h;
      NoEarlyStart(p, configs, events, n, g, i);
    }
  }
}
