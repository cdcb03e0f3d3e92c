/** What a second dispatch finds after a run of course batches in which nothing failed. */
module Redispatch {
  import opened Prelude
  import opened ObjectIds
  import opened ContentRefs
  import opened SearchIndex
  import opened IndexingStates
  import opened BatchIndexer
  import opened BatchEffects
  import opened IndexingRuns
  import opened BatchOutcomes
  import opened Dispatcher

  /** No record of the round ended FAILED, and no stamp raised. */
  ghost predicate FailureFree(r: Round)
    requires r.chunk > 0
  {
    forall i | 0 <= i < |r.plans| ::
      !Fates(r)[i].outcome.Failed? && !StampRaises(r.plans[i], Fates(r)[i], r.luck.stamps(i))
  }

  /** Failure-free rounds are the ones whose summary says so. */
  lemma FailureFreeIffNoneCounted(r: Round)
    requires r.chunk > 0
    ensures FailureFree(r) <==> CountsAfterTask(r.plans, r.chunk, r.luck).failed == 0
  {
    NoneCountedFrom(Counts(0, 0, 0, 0, []), r.plans, Fates(r), r.luck.stamps, 0);
  }

  lemma {:induction false} NoneCountedFrom(c: Counts, plans: seq<Plan>, fates: seq<Fate>, faults: StampFaults, i: nat)
    requires i <= |plans| == |fates|
    ensures CountFrom(c, plans, fates, faults, i).failed >= c.failed
    ensures CountFrom(c, plans, fates, faults, i).failed == c.failed
            <==> forall j | i <= j < |plans| :: !fates[j].outcome.Failed? && !StampRaises(plans[j], fates[j], faults(j))
    decreases |plans| - i
  {
    if i < |plans| {
      var c1 := CountOne(c, plans[i], fates[i], StampRaises(plans[i], fates[i], faults(i)));
      NoneCountedFrom(c1, plans, fates, faults, i + 1);
    }
  }

  // ---------------------------------------------------------------- one record's row through one round

  function StampedRow(row: Row, plan: Plan, outcome: Outcome, at: int): Row {
    match outcome
    case Indexed => StampIndexed(row, IdsOf(plan.newObjects), at)
    case Removed => StampRemoved(row, at)
    case _ => row
  }

  ghost predicate InRound(r: Round, ref: ContentRef) {
    exists i | 0 <= i < |r.task.keys| :: RefAt(r.task, i) == ref
  }

  lemma RoundLeavesOthers(s: System, r: Round, owner: Owner, ref: ContentRef)
    requires Possible(s, Batch(r), owner) && !InRound(r, ref)
    ensures RowOrEmpty(After(s, Batch(r)).book.rows, ref) == RowOrEmpty(s.book.rows, ref)
  {
    BookAfterRows(s.book, r);
    Pass1KeepsRows(s.book.rows, r.task, r.luck, 0, ref);
    forall j | 0 <= j < |r.plans|
      ensures r.plans[j].ref != ref
    {
      assert r.plans[j].ref == RefAt(r.task, j);
    }
    var start := RowsFromPass1(s.book.rows, r.task, r.luck, 0);
    RowOfOthersKept(start, r.plans, Fates(r), r.luck.clock, r.luck.stamps, 0, ref);
  }

  lemma RoundStampsOne(s: System, r: Round, owner: Owner, i: nat)
    requires Possible(s, Batch(r), owner) && FailureFree(r) && NoDup(r.task.keys) && i < |r.task.keys|
    ensures RowOrEmpty(After(s, Batch(r)).book.rows, RefAt(r.task, i))
            == StampedRow(RowOrEmpty(s.book.rows, RefAt(r.task, i)), r.plans[i], r.plans[i].desired, r.luck.clock(i))
  {
    var ref := RefAt(r.task, i);
    BookAfterRows(s.book, r);
    Pass1KeepsRows(s.book.rows, r.task, r.luck, 0, ref);
    forall j | 0 <= j < |r.plans|
      ensures r.plans[j].ref == RefAt(r.task, j) && (j != i ==> r.plans[j].ref != ref)
    {
    }
    OutcomeAsPlanned(r, i);
    RowOfOne(RowsFromPass1(s.book.rows, r.task, r.luck, 0), r.plans, Fates(r), r.luck.clock, r.luck.stamps, 0, i);
  }

  lemma OutcomeAsPlanned(r: Round, i: nat)
    requires r.chunk > 0 && FailureFree(r) && i < |r.plans|
    ensures Fates(r)[i].outcome == r.plans[i].desired && !Fates(r)[i].outcome.Failed?
    ensures !StampRaises(r.plans[i], Fates(r)[i], r.luck.stamps(i))
  {
    assert !Fates(r)[i].outcome.Failed?;
  }

  /** A due record that is indexable and whose planning did not fail is written, or removed for having no objects. */
  lemma DuePlans(plan: Plan, ref: ContentRef, sight: Sight, fault: ReadFault, hosted: Hosted)
    requires PlanFits(plan, ref, sight, fault, hosted) && !plan.desired.Failed?
    requires sight.indexable && !sight.force && sight.content.Some? && Due(sight.row, sight.content.value, true)
    ensures plan.desired == if sight.generated == [] then Removed else Indexed
  {
  }

  lemma DueAfterStamp(row: Row, plan: Plan, modified: int, at: int)
    requires Due(row, modified, true) && at >= modified
    requires plan.desired.Indexed? || plan.desired.Removed?
    ensures Due(StampedRow(row, plan, plan.desired, at), modified, true) <==> plan.desired.Removed?
  {
  }

  /** Rounds of course batches, failure-free, each stamping no earlier than its records were modified. */
  ghost predicate Calm(r: Round, contents: map<ContentRef, int>) {
    && r.chunk > 0 && FailureFree(r) && r.task.contentType.Course? && !r.task.force && NoDup(r.task.keys)
    && |r.plans| == |r.task.keys|
    && forall i | 0 <= i < |r.task.keys| ::
         && r.task.keys[i] in r.task.indexable
         && RefAt(r.task, i) in contents
         && r.luck.clock(i) >= contents[RefAt(r.task, i)]
  }

  function CourseRow(rows: Rows, k: string): Row {
    RowOrEmpty(rows, ContentRef(Course, k))
  }

  predicate CourseDue(rows: Rows, contents: map<ContentRef, int>, k: string) {
    ContentRef(Course, k) in contents && Due(CourseRow(rows, k), contents[ContentRef(Course, k)], true)
  }

  /** A course that was due before its round is due after it exactly when the generator gave it no objects. */
  lemma StillDueIffNoShards(s: System, r: Round, owner: Owner, i: nat)
    requires Possible(s, Batch(r), owner) && Calm(r, s.contents) && i < |r.task.keys|
    requires CourseDue(s.book.rows, s.contents, r.task.keys[i])
    ensures CourseDue(After(s, Batch(r)).book.rows, s.contents, r.task.keys[i])
            <==> GeneratedFor(r.task, r.task.keys[i]) == []
  {
    var ref, plan := RefAt(r.task, i), r.plans[i];
    RoundStampsOne(s, r, owner, i);
    assert PlanFits(plan, ref, SightOf(r.task, s.book.rows, ref), r.luck.lookups(i), s.hosted);
    assert !Fates(r)[i].outcome.Failed?;
    DuePlans(plan, ref, SightOf(r.task, s.book.rows, ref), r.luck.lookups(i), s.hosted);
    DueAfterStamp(RowOrEmpty(s.book.rows, ref), plan, s.contents[ref], r.luck.clock(i));
  }

  /** What a calm round does to the rows of courses. */
  ghost predicate Settles(before: Rows, after: Rows, r: Round, contents: map<ContentRef, int>) {
    && (forall k | k !in r.task.keys :: CourseRow(after, k) == CourseRow(before, k))
    && (forall k | k in r.task.keys && CourseDue(before, contents, k) ::
          CourseDue(after, contents, k) <==> GeneratedFor(r.task, k) == [])
  }

  lemma RoundSettles(s: System, r: Round, owner: Owner)
    requires Possible(s, Batch(r), owner) && Calm(r, s.contents)
    ensures Settles(s.book.rows, After(s, Batch(r)).book.rows, r, s.contents)
  {
    forall k | k !in r.task.keys
      ensures CourseRow(After(s, Batch(r)).book.rows, k) == CourseRow(s.book.rows, k)
    {
      RoundLeavesOthers(s, r, owner, ContentRef(Course, k));
    }
    forall k | k in r.task.keys && CourseDue(s.book.rows, s.contents, k)
      ensures CourseDue(After(s, Batch(r)).book.rows, s.contents, k) <==> GeneratedFor(r.task, k) == []
    {
      var i :| 0 <= i < |r.task.keys| && r.task.keys[i] == k;
      StillDueIffNoShards(s, r, owner, i);
    }
  }

  // ---------------------------------------------------------------- whole runs of rounds

  function BatchesOf(rounds: seq<Round>): (steps: seq<Step>)
    ensures |steps| == |rounds| && forall i :: 0 <= i < |rounds| ==> steps[i] == Batch(rounds[i])
  {
    seq(|rounds|, i requires 0 <= i < |rounds| => Batch(rounds[i]))
  }

  lemma BatchesTail(rounds: seq<Round>)
    requires rounds != []
    ensures BatchesOf(rounds)[1..] == BatchesOf(rounds[1..])
  {
  }

  function Dispatched(rounds: seq<Round>): seq<string> {
    if rounds == [] then [] else rounds[0].task.keys + Dispatched(rounds[1..])
  }

  /** The key is in one of the rounds, and got no objects there. */
  predicate GotNoShards(rounds: seq<Round>, k: string) {
    rounds != []
    && ((k in rounds[0].task.keys && GeneratedFor(rounds[0].task, k) == []) || GotNoShards(rounds[1..], k))
  }

  lemma {:induction false} NoShardsMeansDispatched(rounds: seq<Round>, k: string)
    requires k !in Dispatched(rounds)
    ensures !GotNoShards(rounds, k)
  {
    if rounds != [] {
      NoShardsMeansDispatched(rounds[1..], k);
    }
  }

  /** The first round of a calm run, and the state it leaves to the rest. */
  lemma FirstRound(s: System, rounds: seq<Round>, owner: Owner) returns (next: System)
    requires rounds != [] && PossibleRun(s, BatchesOf(rounds), owner) && forall r | r in rounds :: Calm(r, s.contents)
    ensures next.contents == s.contents && Settles(s.book.rows, next.book.rows, rounds[0], s.contents)
    ensures PossibleRun(next, BatchesOf(rounds[1..]), owner)
    ensures RunOf(s, BatchesOf(rounds), owner) == RunOf(next, BatchesOf(rounds[1..]), owner)
  {
    BatchesTail(rounds);
    next := After(s, Batch(rounds[0]));
    RoundSettles(s, rounds[0], owner);
  }

  lemma {:induction false} RunLeavesOthers(s: System, rounds: seq<Round>, owner: Owner, k: string)
    requires PossibleRun(s, BatchesOf(rounds), owner) && (forall r | r in rounds :: Calm(r, s.contents))
            && k !in Dispatched(rounds)
    ensures CourseRow(RunOf(s, BatchesOf(rounds), owner).book.rows, k) == CourseRow(s.book.rows, k)
    decreases |rounds|
  {
    if rounds != [] {
      var next := FirstRound(s, rounds, owner);
      RunLeavesOthers(next, rounds[1..], owner, k);
    }
  }

  lemma {:induction false} RunSettles(s: System, rounds: seq<Round>, owner: Owner, k: string)
    requires PossibleRun(s, BatchesOf(rounds), owner) && (forall r | r in rounds :: Calm(r, s.contents))
    requires NoDup(Dispatched(rounds)) && k in Dispatched(rounds) && CourseDue(s.book.rows, s.contents, k)
    ensures CourseDue(RunOf(s, BatchesOf(rounds), owner).book.rows, s.contents, k) <==> GotNoShards(rounds, k)
    decreases |rounds|
  {
    var rest := rounds[1..];
    var next := FirstRound(s, rounds, owner);
    NoDupTail(rounds[0].task.keys, Dispatched(rest), k);
    if k in rounds[0].task.keys {
      NoShardsMeansDispatched(rest, k);
      RunLeavesOthers(next, rest, owner, k);
    } else {
      assert CourseDue(next.book.rows, next.contents, k);
      RunSettles(next, rest, owner, k);
    }
  }

  lemma NoDupTail(a: seq<string>, b: seq<string>, k: string)
    requires NoDup(a + b)
    ensures NoDup(b) && !(k in a && k in b)
  {
    forall i, j | 0 <= i < j < |b|
      ensures b[i] != b[j]
    {
      assert (a + b)[|a| + i] == b[i] && (a + b)[|a| + j] == b[j];
    }
    forall i, j | 0 <= i < |a| && 0 <= j < |b|
      ensures a[i] != b[j]
    {
      assert (a + b)[i] == a[i] && (a + b)[|a| + j] == b[j];
    }
  }

  /**
   Dispatch every due course, run the batches without a failure, and dispatch again: the second time selects exactly
   the courses that were removed for having no objects.
   */
  lemma SecondDispatch(s: System, rounds: seq<Round>, owner: Owner, keys: seq<string>, before: States, after: States,
                       times: Times)
    requires PossibleRun(s, BatchesOf(rounds), owner) && (forall r | r in rounds :: Calm(r, s.contents)) && NoDup(keys)
    requires forall k | k in keys ::
               ContentRef(Course, k) in s.contents && TimeOf(times, k) == s.contents[ContentRef(Course, k)]
    requires forall k | k in keys :: StateOf(before, k) == CourseRow(s.book.rows, k)
    requires forall k | k in keys :: StateOf(after, k) == CourseRow(RunOf(s, BatchesOf(rounds), owner).book.rows, k)
    requires Dispatched(rounds) == Select(keys, DueCourses(keys, before, times, true))
    ensures Elems(Select(keys, DueCourses(keys, after, times, true)))
            == set k | k in Dispatched(rounds) && GotNoShards(rounds, k)
  {
    SelectMembers(keys, DueCourses(keys, before, times, true));
    SelectMembers(keys, DueCourses(keys, after, times, true));
    forall k | k in keys
      ensures Due(StateOf(after, k), TimeOf(times, k), true) <==> k in Dispatched(rounds) && GotNoShards(rounds, k)
    {
      if k in Dispatched(rounds) {
        RunSettles(s, rounds, owner, k);
      } else {
        RunLeavesOthers(s, rounds, owner, k);
      }
    }
  }
}
