/**
 Programs and pathways that only a newer child makes due: every dispatch selects them, every batch skips them, and they
 are never indexed again until they are edited, fail, or are forced.
 */
module ParentSkips {
  import opened Prelude
  import opened ObjectIds
  import opened ContentRefs
  import opened SearchIndex
  import opened IndexingStates
  import opened BatchIndexer
  import opened BatchEffects
  import opened IndexingRuns
  import opened Dispatcher
  import opened BatchOutcomes
  import opened FirstBatch
  import opened SkippedRecords

  predicate NewerThan(row: Row, at: int) {
    row.lastIndexedAt.Some? && row.lastIndexedAt.value > at
  }

  /** The parent was indexed at `at`, has not been edited since and has not failed; the child was indexed later. */
  ghost predicate DueByChild(s: System, parent: ContentRef, child: ContentRef, at: int) {
    CurrentAt(s, parent, at) && child in s.contents && child in s.book.rows && NewerThan(s.book.rows[child], at)
  }

  /** The parent is spared; the child is not deleted, and is stamped later than the parent was. */
  ghost predicate Leaves(step: Step, parent: ContentRef, child: ContentRef, at: int) {
    && Spares(step, parent, at)
    && match step
       case Edit(contents) => child in contents
       case Batch(r) => forall i | 0 <= i < |r.task.keys| && RefAt(r.task, i) == child :: r.luck.clock(i) > at
  }

  // ---------------------------------------------------------------- one batch

  /** A batch that lists the parent skips it. */
  lemma ParentIsSkipped(s: System, r: Round, owner: Owner, parent: ContentRef, child: ContentRef, at: int, i: nat)
    requires Possible(s, Batch(r), owner) && DueByChild(s, parent, child, at) && Leaves(Batch(r), parent, child, at)
    requires i < |r.plans| && r.plans[i].ref == parent
    ensures r.plans[i].desired.Skipped? && Fates(r)[i].outcome.Skipped?
  {
    RecordIsSkipped(s, r, owner, parent, at, i);
  }

  lemma {:induction false} ChildStaysNewer(
    rows: Rows, plans: seq<Plan>, fates: seq<Fate>, clock: Clock, faults: StampFaults, i: nat, child: ContentRef,
    at: int)
    requires i <= |plans| == |fates| && child in rows && NewerThan(rows[child], at)
    requires forall j | i <= j < |plans| && plans[j].ref == child :: clock(j) > at
    ensures var after := FinalizeFrom(rows, plans, fates, clock, faults, i);
            child in after && NewerThan(after[child], at)
    decreases |plans| - i
  {
    if i < |plans| {
      var next := Finalize(rows, plans[i], fates[i], clock(i), faults(i)).rows;
      assert child in next && NewerThan(next[child], at);
      ChildStaysNewer(next, plans, fates, clock, faults, i + 1, child, at);
    }
  }

  lemma BatchKeepsChildNewer(s: System, r: Round, owner: Owner, parent: ContentRef, child: ContentRef, at: int)
    requires Possible(s, Batch(r), owner) && DueByChild(s, parent, child, at) && Leaves(Batch(r), parent, child, at)
    ensures var rows := After(s, Batch(r)).book.rows; child in rows && NewerThan(rows[child], at)
  {
    BookAfterRows(s.book, r);
    Pass1KeepsRows(s.book.rows, r.task, r.luck, 0, child);
    forall j | 0 <= j < |r.plans|
      ensures r.plans[j].ref == RefAt(r.task, j)
    {
    }
    ChildStaysNewer(RowsFromPass1(s.book.rows, r.task, r.luck, 0), r.plans, Fates(r), r.luck.clock, r.luck.stamps, 0,
                    child, at);
  }

  // ---------------------------------------------------------------- whole runs

  lemma StepLeavesChild(s: System, step: Step, owner: Owner, parent: ContentRef, child: ContentRef, at: int)
    requires Sound(s, owner) && Possible(s, step, owner)
    requires DueByChild(s, parent, child, at) && Leaves(step, parent, child, at)
    ensures DueByChild(After(s, step), parent, child, at)
  {
    StepLeavesRecord(s, step, owner, parent, at);
    if step.Batch? {
      BatchKeepsChildNewer(s, step.round, owner, parent, child, at);
    }
  }

  lemma {:induction false} StaysDue(
    s: System, steps: seq<Step>, owner: Owner, parent: ContentRef, child: ContentRef, at: int)
    requires Sound(s, owner) && PossibleRun(s, steps, owner)
    requires DueByChild(s, parent, child, at) && forall step | step in steps :: Leaves(step, parent, child, at)
    ensures DueByChild(RunOf(s, steps, owner), parent, child, at)
    decreases |steps|
  {
    if steps != [] {
      StepLeavesChild(s, steps[0], owner, parent, child, at);
      StepKeepsSound(s, steps[0], owner);
      StaysDue(After(s, steps[0]), steps[1..], owner, parent, child, at);
    }
  }

  /**
   A newer child alone never brings its parent up to date: however often the parent is dispatched and batched, its row
   and its hosted objects stay as they were, and it is as due as before.
   */
  lemma NeverReindexed(
    s: System, steps: seq<Step>, owner: Owner, parent: ContentRef, child: ContentRef, at: int)
    requires Sound(s, owner) && PossibleRun(s, steps, owner)
    requires DueByChild(s, parent, child, at) && forall step | step in steps :: Leaves(step, parent, child, at)
    ensures DueByChild(RunOf(s, steps, owner), parent, child, at)
    ensures Unchanged(s, RunOf(s, steps, owner), owner, parent)
  {
    StaysDue(s, steps, owner, parent, child, at);
    StaysAsItIs(s, steps, owner, parent, at);
  }

  /** And in any such state the dispatcher selects it, with or without failures included. */
  lemma DispatchedAgain(s: System, parent: ContentRef, child: ContentRef, at: int, keys: seq<string>,
                        children: map<string, set<string>>, states: States, times: Times, includeFailed: bool)
    requires DueByChild(s, parent, child, at) && parent.key in keys && child.key in ChildrenOf(children, parent.key)
    requires StateOf(states, parent.key) == s.book.rows[parent] && StateOf(states, child.key) == s.book.rows[child]
    ensures parent.key in Select(keys, DueParents(keys, children, states, times, includeFailed))
  {
    SelectMembers(keys, DueParents(keys, children, states, times, includeFailed));
    assert NewerChild(ChildrenOf(children, parent.key), states, at);
  }

  // ---------------------------------------------------------------- one program and one course

  const PROGRAM := ContentRef(Program, "program")

  const COURSE := ContentRef(Course, "course")

  function ObjectOf(ref: ContentRef, body: Body): Shard {
    Shard(ref.key + "-0", AggregationKeyFor(ref), body, CatalogFacet([]))
  }

  function OwnerOfBoth(): Owner {
    id => if id == "program-0" then Some(PROGRAM) else if id == "course-0" then Some(COURSE) else None
  }

  /** The program was indexed at 7, its course at 9, and neither was edited since. */
  function CourseIndexedLater(body: Body): System {
    var program, course := ObjectOf(PROGRAM, body), ObjectOf(COURSE, body);
    System(map["program-0" := program, "course-0" := course],
           Book(map[PROGRAM := StampIndexed(EMPTY_ROW, ["program-0"], 7),
                    COURSE := StampIndexed(EMPTY_ROW, ["course-0"], 9)],
                map[PROGRAM := [program], COURSE := [course]], {}, map[]),
           map[PROGRAM := 5, COURSE := 5])
  }

  function ProgramRound(body: Body): Round {
    var task := Task(Program, [PROGRAM.key], false, CourseIndexedLater(body).contents, map[], {PROGRAM.key});
    Round(task, [Plan(PROGRAM, Skipped, true, true, [], [], None)], GoodLuck(), 1000)
  }

  lemma BothAreSound(body: Body)
    ensures Sound(CourseIndexedLater(body), OwnerOfBoth())
  {
    var s := CourseIndexedLater(body);
    assert "program-0" == PROGRAM.key + "-0" && "course-0" == COURSE.key + "-0";
    forall id, ref | id in s.hosted
      ensures s.hosted[id].objectId == id
      ensures s.hosted[id].aggregationKey == AggregationKeyFor(ref) <==> OwnerOfBoth()(id) == Some(ref)
    {
      AggregationKeyInjective(PROGRAM, ref);
      AggregationKeyInjective(COURSE, ref);
    }
    forall ref: ContentRef
      ensures CleanRowHosted(s, ref) && HostedAccountedFor(s, OwnerOfBoth(), ref)
    {
      if ref in s.book.rows {
        assert s.book.rows[ref].objectIds == IdsOf(s.book.written[ref]);
      }
    }
  }

  /** The dispatcher selects the program for its newer course, and its batch skips it. */
  lemma AProgramIsDispatchedAndSkipped(body: Body, states: States, times: Times)
    requires StateOf(states, PROGRAM.key) == CourseIndexedLater(body).book.rows[PROGRAM]
    requires StateOf(states, COURSE.key) == CourseIndexedLater(body).book.rows[COURSE]
    ensures var s, r, children := CourseIndexedLater(body), ProgramRound(body), map[PROGRAM.key := {COURSE.key}];
            && Sound(s, OwnerOfBoth()) && Possible(s, Batch(r), OwnerOfBoth())
            && PROGRAM.key in Select([PROGRAM.key], DueParents([PROGRAM.key], children, states, times, true))
            && Fates(r)[0].outcome.Skipped?
  {
    var s, r, children := CourseIndexedLater(body), ProgramRound(body), map[PROGRAM.key := {COURSE.key}];
    BothAreSound(body);
    assert RefAt(r.task, 0) == PROGRAM;
    assert PlanFits(r.plans[0], PROGRAM, SightOf(r.task, s.book.rows, PROGRAM), r.luck.lookups(0), s.hosted);
    DispatchedAgain(s, PROGRAM, COURSE, 7, [PROGRAM.key], children, states, times, true);
    SkippedStaysSkipped(r, 0);
  }
}
