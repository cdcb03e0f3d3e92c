/**
 Records that every batch skips: nothing changes for them until they are edited, fail or are forced. That includes a
 record that was removed while it was not indexable: indexable again, it does not come back by itself.
 */
module SkippedRecords {
  import opened Prelude
  import opened ContentRefs
  import opened SearchIndex
  import opened IndexingStates
  import opened BatchIndexer
  import opened BatchEffects
  import opened BatchOutcomes
  import opened IndexingRuns
  import opened FirstBatch

  /** The record was indexed at `at`, has not been edited since and has not failed. */
  ghost predicate CurrentAt(s: System, ref: ContentRef, at: int) {
    && ref in s.contents && s.contents[ref] <= at
    && ref in s.book.rows && s.book.rows[ref].lastIndexedAt == Some(at) && s.book.rows[ref].lastFailureAt.None?
  }

  /** The record is not edited or deleted; where it is listed it is indexable, looked up without failure, not forced. */
  ghost predicate Spares(step: Step, ref: ContentRef, at: int) {
    match step
    case Edit(contents) => ref in contents && contents[ref] <= at
    case Batch(r) =>
      forall i | 0 <= i < |r.task.keys| && RefAt(r.task, i) == ref ::
        !r.task.force && r.task.keys[i] in r.task.indexable && !r.luck.lookups(i).LookupRaises?
  }

  // ---------------------------------------------------------------- one batch

  /** A batch that lists the record skips it. */
  lemma RecordIsSkipped(s: System, r: Round, owner: Owner, ref: ContentRef, at: int, i: nat)
    requires Possible(s, Batch(r), owner) && CurrentAt(s, ref, at) && Spares(Batch(r), ref, at)
    requires i < |r.plans| && r.plans[i].ref == ref
    ensures r.plans[i].desired.Skipped? && Fates(r)[i].outcome.Skipped?
  {
    assert RefAt(r.task, i) == ref;
    assert PlanFits(r.plans[i], ref, SightOf(r.task, s.book.rows, ref), r.luck.lookups(i), s.hosted);
    SkippedStaysSkipped(r, i);
  }

  lemma {:induction false} RowStays(
    rows: Rows, plans: seq<Plan>, fates: seq<Fate>, clock: Clock, faults: StampFaults, i: nat, ref: ContentRef)
    requires i <= |plans| == |fates| && ref in rows
    ensures ref in FinalizeFrom(rows, plans, fates, clock, faults, i)
    decreases |plans| - i
  {
    if i < |plans| {
      RowStays(Finalize(rows, plans[i], fates[i], clock(i), faults(i)).rows, plans, fates, clock, faults, i + 1, ref);
    }
  }

  lemma BatchKeepsRow(s: System, r: Round, owner: Owner, ref: ContentRef, at: int)
    requires Possible(s, Batch(r), owner) && CurrentAt(s, ref, at) && Spares(Batch(r), ref, at)
    ensures var rows := After(s, Batch(r)).book.rows; ref in rows && rows[ref] == s.book.rows[ref]
  {
    var start := RowsFromPass1(s.book.rows, r.task, r.luck, 0);
    BookAfterRows(s.book, r);
    Pass1KeepsRows(s.book.rows, r.task, r.luck, 0, ref);
    forall j | 0 <= j < |r.plans|
      ensures r.plans[j].ref != ref || Fates(r)[j].outcome.Skipped?
    {
      if r.plans[j].ref == ref {
        RecordIsSkipped(s, r, owner, ref, at, j);
      }
    }
    RowOfOthersKept(start, r.plans, Fates(r), r.luck.clock, r.luck.stamps, 0, ref);
    RowStays(start, r.plans, Fates(r), r.luck.clock, r.luck.stamps, 0, ref);
  }

  lemma BatchKeepsObjects(s: System, r: Round, owner: Owner, ref: ContentRef, at: int, id: string)
    requires Sound(s, owner) && Possible(s, Batch(r), owner)
    requires CurrentAt(s, ref, at) && Spares(Batch(r), ref, at) && owner(id) == Some(ref)
    ensures SameAt(s.hosted, HostedAfter(s.hosted, r), id)
  {
    forall i | 0 <= i < |r.plans| && r.plans[i].ref == ref
      ensures r.plans[i].desired.Skipped?
    {
      RecordIsSkipped(s, r, owner, ref, at, i);
    }
    assert !PlansToSave(r, ref) && !PlansToWrite(r, ref);
    NothingElseAppears(s.book.rows, s.hosted, r, owner, ref, id);
  }

  // ---------------------------------------------------------------- whole runs

  /** The record's row and everything hosted for it are as they were. */
  ghost predicate Unchanged(s: System, s': System, owner: Owner, ref: ContentRef) {
    && ref in s.book.rows && ref in s'.book.rows && s'.book.rows[ref] == s.book.rows[ref]
    && forall id | owner(id) == Some(ref) :: SameAt(s.hosted, s'.hosted, id)
  }

  lemma StepLeavesRecord(s: System, step: Step, owner: Owner, ref: ContentRef, at: int)
    requires Sound(s, owner) && Possible(s, step, owner) && CurrentAt(s, ref, at) && Spares(step, ref, at)
    ensures CurrentAt(After(s, step), ref, at) && Unchanged(s, After(s, step), owner, ref)
  {
    match step
    case Edit(_) =>
    case Batch(r) =>
      BatchKeepsRow(s, r, owner, ref, at);
      forall id | owner(id) == Some(ref)
        ensures SameAt(s.hosted, HostedAfter(s.hosted, r), id)
      {
        BatchKeepsObjects(s, r, owner, ref, at, id);
      }
  }

  lemma UnchangedTwice(s: System, s': System, s'': System, owner: Owner, ref: ContentRef)
    requires Unchanged(s, s', owner, ref) && Unchanged(s', s'', owner, ref)
    ensures Unchanged(s, s'', owner, ref)
  {
    forall id | owner(id) == Some(ref)
      ensures SameAt(s.hosted, s''.hosted, id)
    {
      assert SameAt(s.hosted, s'.hosted, id) && SameAt(s'.hosted, s''.hosted, id);
    }
  }

  /** Over any run that spares a current record its row and its hosted objects stay as they were. */
  lemma {:induction false} StaysAsItIs(s: System, steps: seq<Step>, owner: Owner, ref: ContentRef, at: int)
    requires Sound(s, owner) && PossibleRun(s, steps, owner)
    requires CurrentAt(s, ref, at) && forall step | step in steps :: Spares(step, ref, at)
    ensures CurrentAt(RunOf(s, steps, owner), ref, at) && Unchanged(s, RunOf(s, steps, owner), owner, ref)
    decreases |steps|
  {
    if steps != [] {
      var next := After(s, steps[0]);
      StepLeavesRecord(s, steps[0], owner, ref, at);
      StepKeepsSound(s, steps[0], owner);
      StaysAsItIs(next, steps[1..], owner, ref, at);
      UnchangedTwice(s, next, RunOf(s, steps, owner), owner, ref);
    }
  }

  // ---------------------------------------------------------------- a record that was removed

  /** Plan i removed the record, listed once, and its row was stamped. */
  ghost predicate Removes(s: System, r: Round, owner: Owner, i: nat) {
    && Possible(s, Batch(r), owner) && NoDup(r.task.keys) && i < |r.plans|
    && Fates(r)[i].outcome.Removed? && !StampRaises(r.plans[i], Fates(r)[i], r.luck.stamps(i))
  }

  /** A removal leaves in the row what the row said of the last indexing. */
  lemma RemovalKeepsTimes(s: System, r: Round, owner: Owner, i: nat)
    requires Sound(s, owner) && Removes(s, r, owner, i)
    ensures var before, after := RowOrEmpty(s.book.rows, RefAt(r.task, i)), After(s, Batch(r)).book.rows;
            && RefAt(r.task, i) in r.task.contents
            && RefAt(r.task, i) in after
            && after[RefAt(r.task, i)].removedAt == Some(r.luck.clock(i))
            && after[RefAt(r.task, i)].lastIndexedAt == before.lastIndexedAt
            && after[RefAt(r.task, i)].lastFailureAt == before.lastFailureAt
            && after[RefAt(r.task, i)].objectIds == before.objectIds
  {
    BookAfterRows(s.book, r);
    RowExactly(s.book.rows, s.hosted, r, owner, i);
    PlannedExactly(s.book.rows, s.hosted, r, owner, i);
    OutcomeExactly(s.book.rows, s.hosted, r, owner, i);
    assert RowMade(r, i, RefAt(r.task, i));
    RowsExactly(s.book.rows, s.hosted, r, owner, RefAt(r.task, i));
  }

  /**
   A record that was removed and is indexable again is indexed by the next batch that lists it if and only if the batch
   is forced, or the record was never indexed, was edited after it was last indexed, or has failed since.
   */
  lemma ComesBackExactly(s: System, r: Round, owner: Owner, i: nat, later: Round, j: nat)
    requires Sound(s, owner) && Removes(s, r, owner, i)
    requires var s' := After(s, Batch(r));
             && Possible(s', Batch(later), owner) && j < |later.plans| && RefAt(later.task, j) == RefAt(r.task, i)
             && later.task.keys[j] in later.task.indexable && Generated(later, later.task.keys[j])
             && later.luck.lookups(j).NoReadFault?
    ensures var before, modified := RowOrEmpty(s.book.rows, RefAt(r.task, i)), s.contents[RefAt(r.task, i)];
            && (later.plans[j].desired.Indexed? || later.plans[j].desired.Skipped?)
            && (later.plans[j].desired.Indexed?
                <==> || later.task.force || before.lastIndexedAt.None? || before.lastIndexedAt.value < modified
                     || before.lastFailureAt.Some?)
  {
    var s' := After(s, Batch(r));
    RemovalKeepsTimes(s, r, owner, i);
    StepKeepsSound(s, Batch(r), owner);
    PlannedExactly(s'.book.rows, s'.hosted, later, owner, j);
  }

  /**
   So a record that was current when it was removed hosts nothing over every later run that spares it, in which it is
   indexable and may be listed any number of times.
   */
  lemma RemovedStaysAway(s: System, r: Round, owner: Owner, i: nat, at: int, steps: seq<Step>, id: string)
    requires Sound(s, owner) && Removes(s, r, owner, i) && CurrentAt(s, RefAt(r.task, i), at)
    requires TrackingComplete(s.book.rows, s.hosted, owner, RefAt(r.task, i))
    requires PossibleRun(After(s, Batch(r)), steps, owner)
    requires forall step | step in steps :: Spares(step, RefAt(r.task, i), at)
    requires owner(id) == Some(RefAt(r.task, i))
    ensures var last := RunOf(After(s, Batch(r)), steps, owner);
            id !in last.hosted && CurrentAt(last, RefAt(r.task, i), at)
  {
    var s', ref := After(s, Batch(r)), RefAt(r.task, i);
    RemovalKeepsTimes(s, r, owner, i);
    StepKeepsSound(s, Batch(r), owner);
    RemovedHostsNothing(s.book.rows, s.hosted, r, owner, i, id);
    StaysAsItIs(s', steps, owner, ref, at);
    assert SameAt(s'.hosted, RunOf(s', steps, owner).hosted, id);
  }

  // ---------------------------------------------------------------- one course

  /** The course of the first batch, indexed at 7 and last edited at 5. */
  function Indexed7(body: Body): System {
    After(Edited(body), Edit(map[REF := 5]))
  }

  /** It is no longer indexable. */
  function RemovalRound(body: Body): Round {
    TheRound(body).(task := TheTask(body).(indexable := {}),
                    plans := [Plan(REF, Outcome.Removed, true, true, [], [OBJECT_ID], None)])
  }

  /** It is indexable again, and the generator makes its object. */
  function ReturnRound(body: Body): Round {
    TheRound(body).(plans := [Plan(REF, Skipped, true, true, [], [], None)])
  }

  lemma RemovalIsPossible(body: Body)
    ensures Sound(Indexed7(body), TheOwner()) && CurrentAt(Indexed7(body), REF, 7)
    ensures Removes(Indexed7(body), RemovalRound(body), TheOwner(), 0)
    ensures TrackingComplete(Indexed7(body).book.rows, Indexed7(body).hosted, TheOwner(), REF)
  {
    var s, r := Indexed7(body), RemovalRound(body);
    EditedSystem(body);
    StepKeepsSound(Edited(body), Edit(map[REF := 5]), TheOwner());
    TheRoundIsPossible(body);
    assert RefAt(r.task, 0) == REF;
    assert PlanFits(r.plans[0], REF, SightOf(r.task, s.book.rows, REF), r.luck.lookups(0), s.hosted);
    AllAcceptedAsPlanned(r, 0);
  }

  function RemovedSystem(body: Body): System {
    After(Indexed7(body), Batch(RemovalRound(body)))
  }

  lemma TheRemovedRow(body: Body)
    ensures Sound(RemovedSystem(body), TheOwner()) && RemovedSystem(body).contents == map[REF := 5]
    ensures CurrentAt(RemovedSystem(body), REF, 7)
  {
    RemovalIsPossible(body);
    assert RefAt(RemovalRound(body).task, 0) == REF;
    RemovalKeepsTimes(Indexed7(body), RemovalRound(body), TheOwner(), 0);
    StepKeepsSound(Indexed7(body), Batch(RemovalRound(body)), TheOwner());
  }

  /** Whatever else the system is like, as long as the course is current. */
  lemma ReturnIsPossible(s: System, body: Body)
    requires s.contents == map[REF := 5] && CurrentAt(s, REF, 7)
    ensures Possible(s, Batch(ReturnRound(body)), TheOwner())
    ensures Spares(Batch(ReturnRound(body)), REF, 7)
  {
    var r := ReturnRound(body);
    TheRoundIsPossible(body);
    assert RefAt(r.task, 0) == REF;
    assert PlanFits(r.plans[0], REF, SightOf(r.task, s.book.rows, REF), r.luck.lookups(0), s.hosted);
  }

  lemma OneStep(s: System, step: Step, owner: Owner)
    requires Possible(s, step, owner)
    ensures PossibleRun(s, [step], owner) && RunOf(s, [step], owner) == After(s, step)
  {
    assert [step][1..] == [];
  }

  lemma AwayAfterOne(s: System, r: Round, owner: Owner, i: nat, at: int, step: Step, id: string)
    requires Sound(s, owner) && Removes(s, r, owner, i) && CurrentAt(s, RefAt(r.task, i), at)
    requires TrackingComplete(s.book.rows, s.hosted, owner, RefAt(r.task, i))
    requires Possible(After(s, Batch(r)), step, owner) && Spares(step, RefAt(r.task, i), at)
    requires owner(id) == Some(RefAt(r.task, i))
    ensures id !in After(After(s, Batch(r)), step).hosted
  {
    OneStep(After(s, Batch(r)), step, owner);
    RemovedStaysAway(s, r, owner, i, at, [step], id);
  }

  /** A course removed while it was not indexable is skipped when it is indexable again, and hosts nothing. */
  lemma ARemovedCourseStaysAway(body: Body)
    ensures var s, r := RemovedSystem(body), ReturnRound(body);
            && Sound(s, TheOwner()) && Possible(s, Batch(r), TheOwner())
            && r.task.generated == map[REF.key := [Object(body)]] && REF.key in r.task.indexable
            && Fates(r)[0].outcome.Skipped? && OBJECT_ID !in After(s, Batch(r)).hosted
  {
    TheRemovedRow(body);
    ReturnIsPossible(RemovedSystem(body), body);
    SkippedStaysSkipped(ReturnRound(body), 0);
    RemovalIsPossible(body);
    assert RefAt(RemovalRound(body).task, 0) == REF;
    AwayAfterOne(Indexed7(body), RemovalRound(body), TheOwner(), 0, 7, Batch(ReturnRound(body)), OBJECT_ID);
  }
}
