/** The batch task in the form it is written in: mutable decisions, rows, index and counters. */
module BatchTask {
  import opened Prelude
  import opened ContentRefs
  import opened ObjectIds
  import opened SearchIndex
  import opened IndexingStates
  import opened BatchIndexer

  class IndexingDecision {
    const plan: Plan
    const state: IndexingState?
    var outcome: Outcome
    var failureReason: Option<Reason>

    function CurrentFate(): Fate
      reads this
    {
      Fate(outcome, failureReason)
    }

    constructor (plan: Plan, state: IndexingState?)
      ensures this.plan == plan && this.state == state
      ensures CurrentFate() == Fate(plan.desired, plan.reason)
    {
      this.plan, this.state := plan, state;
      outcome, failureReason := plan.desired, plan.reason;
    }
  }

  function PlansOf(decisions: seq<IndexingDecision>): (plans: seq<Plan>)
    ensures |plans| == |decisions| && forall i :: 0 <= i < |plans| ==> plans[i] == decisions[i].plan
  {
    seq(|decisions|, i requires 0 <= i < |decisions| => decisions[i].plan)
  }

  ghost function FatesOf(decisions: seq<IndexingDecision>): (fates: seq<Fate>)
    reads decisions
    ensures |fates| == |decisions|
    ensures forall i :: 0 <= i < |fates| ==> fates[i] == decisions[i].CurrentFate()
  {
    seq(|decisions|, i requires 0 <= i < |decisions| reads decisions => decisions[i].CurrentFate())
  }

  // ---------------------------------------------------------------- pass 1

  method ExistingShardIds(row: Row, ref: ContentRef, index: AlgoliaIndex, browseRaises: bool)
    returns (ids: seq<string>, raised: bool)
    ensures raised == (row.objectIds == [] && browseRaises)
    ensures !raised ==> Elems(ids) == ExistingIds(row, ref, index.hosted)
  {
    if row.objectIds != [] {
      return row.objectIds, false;
    }
    if browseRaises {
      return [], true;
    }
    ids := index.ObjectIdsForAggregationKey(AggregationKeyFor(ref));
    raised := false;
  }

  method Without(ids: seq<string>, kept: seq<string>) returns (rest: seq<string>)
    ensures Elems(rest) == Elems(ids) - Elems(kept)
  {
    rest := [];
    for i := 0 to |ids|
      invariant Elems(rest) == Elems(ids[..i]) - Elems(kept)
    {
      assert ids[..i + 1] == ids[..i] + [ids[i]];
      if ids[i] !in kept && ids[i] !in rest {
        rest := rest + [ids[i]];
      }
    }
    assert ids[..|ids|] == ids;
  }

  /** A decision as pass 1 leaves it: its plan fits, nothing has failed since, and it holds its record's row copy. */
  ghost predicate Resolved(decision: IndexingDecision, ref: ContentRef, sight: Sight, fault: ReadFault, hosted: Hosted)
    reads decision
  {
    && PlanFits(decision.plan, ref, sight, fault, hosted)
    && decision.CurrentFate() == Fate(decision.plan.desired, decision.plan.reason)
    && Attached(decision)
  }

  predicate Attached(decision: IndexingDecision) {
    && (decision.plan.hasState <==> decision.state != null)
    && (decision.plan.hasState == !decision.plan.desired.Failed?)
    && (decision.state != null ==> decision.state.ref == decision.plan.ref)
  }

  /** The records whose row copies are in hand have rows. */
  ghost predicate RowsPresent(decisions: seq<IndexingDecision>, rows: Rows) {
    forall d :: d in decisions && d.plan.hasState ==> d.plan.ref in rows
  }

  method ResolveIndexingDecision(
    ref: ContentRef, content: Option<int>, generated: seq<Shard>, indexable: bool, force: bool,
    table: StateTable, index: AlgoliaIndex, fault: ReadFault)
    returns (decision: IndexingDecision)
    modifies table
    ensures fresh(decision) && (decision.state != null ==> fresh(decision.state))
    ensures Resolved(decision, ref, Sight(content, RowOrEmpty(old(table.rows), ref), generated, indexable, force),
                     fault, index.hosted)
    ensures table.rows == RowsAfterPlanning(old(table.rows), ref, content, fault)
    ensures decision.state != null ==> ref in table.rows && decision.state.Value() == table.rows[ref]
  {
    if content.None? {
      decision := new IndexingDecision(Plan(ref, Failed, false, false, [], [], Some(ContentMissing)), null);
      return;
    }
    if fault.LookupRaises? {
      decision := new IndexingDecision(Plan(ref, Failed, true, false, [], [], Some(PlanningRaised)), null);
      return;
    }
    var state := table.GetOrCreate(ref);
    var row := state.Value();
    if !indexable {
      var ids, raised := ExistingShardIds(row, ref, index, fault.BrowseRaises?);
      if raised {
        decision := new IndexingDecision(Plan(ref, Failed, true, false, [], [], Some(PlanningRaised)), null);
      } else {
        decision := new IndexingDecision(Plan(ref, Removed, true, true, [], ids, None), state);
      }
      return;
    }
    if UpToDate(row, content.value, force) {
      decision := new IndexingDecision(Plan(ref, Skipped, true, true, [], [], None), state);
      return;
    }
    var existing, raised := ExistingShardIds(row, ref, index, fault.BrowseRaises?);
    if raised {
      decision := new IndexingDecision(Plan(ref, Failed, true, false, [], [], Some(PlanningRaised)), null);
    } else if generated == [] {
      decision := new IndexingDecision(Plan(ref, Removed, true, true, [], existing, None), state);
    } else {
      var orphans := Without(existing, IdsOf(generated));
      decision := new IndexingDecision(Plan(ref, Indexed, true, true, generated, orphans, None), state);
    }
  }

  // ---------------------------------------------------------------- pass 2

  lemma SaveJobsOfPrefix(plans: seq<Plan>, i: nat)
    requires i < |plans|
    ensures SaveJobs(plans)[..i + 1] == SaveJobs(plans)[..i] + [SaveJob(plans[i])]
    ensures Flatten(SaveJobs(plans)[..i + 1]) == Flatten(SaveJobs(plans)[..i]) + SaveJob(plans[i])
  {
    assert SaveJobs(plans)[..i + 1][..i] == SaveJobs(plans)[..i];
  }

  lemma DeleteJobsOfPrefix(plans: seq<Plan>, fates: seq<Fate>, i: nat)
    requires i < |plans| == |fates|
    ensures DeleteJobs(plans, fates)[..i + 1] == DeleteJobs(plans, fates)[..i] + [DeleteJob(plans[i], fates[i])]
    ensures Flatten(DeleteJobs(plans, fates)[..i + 1])
            == Flatten(DeleteJobs(plans, fates)[..i]) + DeleteJob(plans[i], fates[i])
  {
    assert DeleteJobs(plans, fates)[..i + 1][..i] == DeleteJobs(plans, fates)[..i];
  }

  lemma AttemptsStep(jobs: seq<seq<Write>>, chunk: nat, weather: nat -> Weather, i: nat, log: seq<Write>)
    requires chunk > 0 && i < |jobs|
    ensures var d := Deliver(|jobs[i]|, chunk, weather(i), 0, 0);
            && Attempts(jobs, chunk, weather, 0).ok[i] == d.ok
            && log + Attempts(jobs, chunk, weather, i).writes
               == (log + jobs[i][..d.sent]) + Attempts(jobs, chunk, weather, i + 1).writes
  {
    AttemptOk(jobs, chunk, weather, 0, i);
  }

  lemma AttemptsEnd(jobs: seq<seq<Write>>, chunk: nat, weather: nat -> Weather, log: seq<Write>)
    requires chunk > 0
    ensures log + Attempts(jobs, chunk, weather, |jobs|).writes == log
  {
  }

  lemma PutsConcat(a: seq<Shard>, b: seq<Shard>)
    ensures Puts(a + b) == Puts(a) + Puts(b)
  {
  }

  lemma DropsConcat(a: seq<string>, b: seq<string>)
    ensures Drops(a + b) == Drops(a) + Drops(b)
  {
  }

  method AllObjects(decisions: seq<IndexingDecision>) returns (objects: seq<Shard>)
    ensures Puts(objects) == Flatten(SaveJobs(PlansOf(decisions)))
  {
    ghost var jobs := SaveJobs(PlansOf(decisions));
    objects := [];
    for i := 0 to |decisions|
      invariant Puts(objects) == Flatten(jobs[..i])
    {
      SaveJobsOfPrefix(PlansOf(decisions), i);
      if decisions[i].plan.desired.Indexed? {
        PutsConcat(objects, decisions[i].plan.newObjects);
        objects := objects + decisions[i].plan.newObjects;
      }
    }
    assert jobs[..|decisions|] == jobs;
  }

  method AllIds(decisions: seq<IndexingDecision>) returns (ids: seq<string>)
    ensures Drops(ids) == Flatten(DeleteJobs(PlansOf(decisions), FatesOf(decisions)))
  {
    ghost var fates := FatesOf(decisions);
    ghost var jobs := DeleteJobs(PlansOf(decisions), fates);
    ids := [];
    for i := 0 to |decisions|
      invariant Drops(ids) == Flatten(jobs[..i])
    {
      DeleteJobsOfPrefix(PlansOf(decisions), fates, i);
      assert decisions[i].CurrentFate() == fates[i];
      if decisions[i].outcome.Indexed? || decisions[i].outcome.Removed? {
        DropsConcat(ids, decisions[i].plan.idsToDelete);
        ids := ids + decisions[i].plan.idsToDelete;
      }
    }
    assert jobs[..|decisions|] == jobs;
  }

  /** While retries run the first i fates are settled, the rest as they were. */
  ghost predicate SettledUpTo(decisions: seq<IndexingDecision>, fates: seq<Fate>, settled: seq<Fate>, i: nat)
    reads decisions
  {
    && |fates| == |settled| == |decisions|
    && forall j :: 0 <= j < |decisions| ==> decisions[j].CurrentFate() == if j < i then settled[j] else fates[j]
  }

  method RetrySave(decisions: seq<IndexingDecision>, i: nat, index: AlgoliaIndex, weather: Weather) returns (ok: bool)
    requires index.Valid() && NoDup(decisions) && i < |decisions|
    modifies index, decisions[i]
    ensures index.Valid()
    ensures var job := SaveJobs(PlansOf(decisions))[i];
            var d := Deliver(|job|, index.chunkSize, weather, 0, 0);
            && ok == d.ok
            && index.log == old(index.log) + job[..d.sent]
    ensures FatesOf(decisions)
            == old(FatesOf(decisions))[i := if ok then old(FatesOf(decisions))[i] else Fate(Failed, Some(SaveRaised))]
  {
    ok := true;
    if decisions[i].plan.desired.Indexed? {
      ok := index.SaveObjectsBatch(decisions[i].plan.newObjects, weather);
      if !ok {
        decisions[i].outcome := Failed;
        decisions[i].failureReason := Some(SaveRaised);
      }
    }
    assert forall j :: 0 <= j < |decisions| && j != i ==> decisions[j] != decisions[i];
  }

  method RetryDelete(decisions: seq<IndexingDecision>, i: nat, index: AlgoliaIndex, weather: Weather) returns (ok: bool)
    requires index.Valid() && NoDup(decisions) && i < |decisions|
    modifies index, decisions[i]
    ensures index.Valid()
    ensures var job := DeleteJob(decisions[i].plan, old(FatesOf(decisions))[i]);
            var d := Deliver(|job|, index.chunkSize, weather, 0, 0);
            && ok == d.ok
            && index.log == old(index.log) + job[..d.sent]
    ensures FatesOf(decisions)
            == old(FatesOf(decisions))[i := if ok then old(FatesOf(decisions))[i] else Fate(Failed, Some(DeleteRaised))]
  {
    ok := true;
    if decisions[i].outcome.Indexed? || decisions[i].outcome.Removed? {
      ok := index.DeleteObjectsBatch(decisions[i].plan.idsToDelete, weather);
      if !ok {
        decisions[i].outcome := Failed;
        decisions[i].failureReason := Some(DeleteRaised);
      }
    }
    assert forall j :: 0 <= j < |decisions| && j != i ==> decisions[j] != decisions[i];
  }

  /** One turn of the save fallback. */
  method SaveOne(decisions: seq<IndexingDecision>, i: nat, index: AlgoliaIndex, weather: nat -> Weather,
                 ghost fates: seq<Fate>, ghost settled: seq<Fate>)
    requires index.Valid() && NoDup(decisions) && i < |decisions| == |fates|
    requires var attempts := Attempts(SaveJobs(PlansOf(decisions)), index.chunkSize, weather, 0);
             settled == Fallen(fates, attempts.ok, SaveRaised)
    requires SettledUpTo(decisions, fates, settled, i)
    modifies index, decisions[i]
    ensures index.Valid() && SettledUpTo(decisions, fates, settled, i + 1)
    ensures old(index.log) + Attempts(SaveJobs(PlansOf(decisions)), index.chunkSize, weather, i).writes
            == index.log + Attempts(SaveJobs(PlansOf(decisions)), index.chunkSize, weather, i + 1).writes
  {
    AttemptsStep(SaveJobs(PlansOf(decisions)), index.chunkSize, weather, i, index.log);
    ghost var before := FatesOf(decisions);
    var _ := RetrySave(decisions, i, index, weather(i));
    assert forall j :: 0 <= j < |decisions| ==> decisions[j].CurrentFate() == if j == i then settled[i] else before[j];
  }

  /** One turn of the delete fallback. */
  method DeleteOne(decisions: seq<IndexingDecision>, i: nat, index: AlgoliaIndex, weather: nat -> Weather,
                 ghost fates: seq<Fate>, ghost settled: seq<Fate>)
    requires index.Valid() && NoDup(decisions) && i < |decisions| == |fates|
    requires var attempts := Attempts(DeleteJobs(PlansOf(decisions), fates), index.chunkSize, weather, 0);
             settled == Fallen(fates, attempts.ok, DeleteRaised)
    requires SettledUpTo(decisions, fates, settled, i)
    modifies index, decisions[i]
    ensures index.Valid() && SettledUpTo(decisions, fates, settled, i + 1)
    ensures old(index.log) + Attempts(DeleteJobs(PlansOf(decisions), fates), index.chunkSize, weather, i).writes
            == index.log + Attempts(DeleteJobs(PlansOf(decisions), fates), index.chunkSize, weather, i + 1).writes
  {
    AttemptsStep(DeleteJobs(PlansOf(decisions), fates), index.chunkSize, weather, i, index.log);
    ghost var before := FatesOf(decisions);
    var _ := RetryDelete(decisions, i, index, weather(i));
    assert forall j :: 0 <= j < |decisions| ==> decisions[j].CurrentFate() == if j == i then settled[i] else before[j];
  }

  /** Retries each save on its own; a failing one turns its decision to FAILED in place. */
  method PerRecordSaveFallback(decisions: seq<IndexingDecision>, index: AlgoliaIndex, weather: nat -> Weather)
    requires index.Valid() && NoDup(decisions)
    modifies index, decisions
    ensures index.Valid()
    ensures index.log == old(index.log) + Attempts(SaveJobs(PlansOf(decisions)), index.chunkSize, weather, 0).writes
    ensures FatesOf(decisions)
            == Fallen(old(FatesOf(decisions)),
                      Attempts(SaveJobs(PlansOf(decisions)), index.chunkSize, weather, 0).ok, SaveRaised)
  {
    ghost var fates := FatesOf(decisions);
    ghost var jobs, chunk := SaveJobs(PlansOf(decisions)), index.chunkSize;
    ghost var total := Attempts(jobs, chunk, weather, 0);
    ghost var settled := Fallen(fates, total.ok, SaveRaised);
    for i := 0 to |decisions|
      invariant index.Valid()
      invariant old(index.log) + total.writes == index.log + Attempts(jobs, chunk, weather, i).writes
      invariant SettledUpTo(decisions, fates, settled, i)
    {
      SaveOne(decisions, i, index, weather, fates, settled);
    }
    AttemptsEnd(jobs, chunk, weather, index.log);
    assert FatesOf(decisions) == settled;
  }

  method PerRecordDeleteFallback(decisions: seq<IndexingDecision>, index: AlgoliaIndex, weather: nat -> Weather)
    requires index.Valid() && NoDup(decisions)
    modifies index, decisions
    ensures index.Valid()
    ensures var jobs := DeleteJobs(PlansOf(decisions), old(FatesOf(decisions)));
            index.log == old(index.log) + Attempts(jobs, index.chunkSize, weather, 0).writes
    ensures FatesOf(decisions)
            == Fallen(old(FatesOf(decisions)),
                      Attempts(DeleteJobs(PlansOf(decisions), old(FatesOf(decisions))), index.chunkSize, weather, 0).ok,
                      DeleteRaised)
  {
    ghost var fates := FatesOf(decisions);
    ghost var jobs, chunk := DeleteJobs(PlansOf(decisions), fates), index.chunkSize;
    ghost var total := Attempts(jobs, chunk, weather, 0);
    ghost var settled := Fallen(fates, total.ok, DeleteRaised);
    for i := 0 to |decisions|
      invariant index.Valid()
      invariant old(index.log) + total.writes == index.log + Attempts(jobs, chunk, weather, i).writes
      invariant SettledUpTo(decisions, fates, settled, i)
    {
      DeleteOne(decisions, i, index, weather, fates, settled);
    }
    AttemptsEnd(jobs, chunk, weather, index.log);
    assert FatesOf(decisions) == settled;
  }

  lemma SaveAllAtOnce(plans: seq<Plan>, objects: seq<Shard>, chunk: nat, skies: Skies)
    requires chunk > 0 && Puts(objects) == Flatten(SaveJobs(plans))
    ensures var d := Deliver(|objects|, chunk, skies.saveBulk, 0, 0);
            var retried := Attempts(SaveJobs(plans), chunk, skies.saveRecord, 0);
            && (d.ok ==> Saves(plans, chunk, skies).writes == Puts(objects)[..d.sent]
                         && FatesAfterSaves(plans, chunk, skies) == PlannedFates(plans))
            && (!d.ok ==> Saves(plans, chunk, skies).writes == Puts(objects)[..d.sent] + retried.writes
                          && FatesAfterSaves(plans, chunk, skies)
                            == Fallen(PlannedFates(plans), retried.ok, SaveRaised))
  {
    assert Puts(objects)[..|objects|] == Puts(objects);
  }

  lemma DeleteAllAtOnce(plans: seq<Plan>, ids: seq<string>, chunk: nat, skies: Skies)
    requires chunk > 0 && Drops(ids) == Flatten(DeleteJobs(plans, FatesAfterSaves(plans, chunk, skies)))
    ensures var d := Deliver(|ids|, chunk, skies.deleteBulk, 0, 0);
            var fates := FatesAfterSaves(plans, chunk, skies);
            var retried := Attempts(DeleteJobs(plans, fates), chunk, skies.deleteRecord, 0);
            && (d.ok ==> Deletes(plans, chunk, skies).writes == Drops(ids)[..d.sent]
                         && FinalFates(plans, chunk, skies) == fates)
            && (!d.ok ==> Deletes(plans, chunk, skies).writes == Drops(ids)[..d.sent] + retried.writes
                          && FinalFates(plans, chunk, skies) == Fallen(fates, retried.ok, DeleteRaised))
  {
    assert Drops(ids)[..|ids|] == Drops(ids);
  }

  method ExecuteSaves(decisions: seq<IndexingDecision>, index: AlgoliaIndex, skies: Skies)
    requires index.Valid() && NoDup(decisions)
    requires FatesOf(decisions) == PlannedFates(PlansOf(decisions))
    modifies index, decisions
    ensures index.Valid()
    ensures index.log == old(index.log) + Saves(PlansOf(decisions), index.chunkSize, skies).writes
    ensures FatesOf(decisions) == FatesAfterSaves(PlansOf(decisions), index.chunkSize, skies)
  {
    var objects := AllObjects(decisions);
    SaveAllAtOnce(PlansOf(decisions), objects, index.chunkSize, skies);
    var ok := index.SaveObjectsBatch(objects, skies.saveBulk);
    if ok {
      return;
    }
    ghost var sent := Puts(objects)[..Deliver(|objects|, index.chunkSize, skies.saveBulk, 0, 0).sent];
    ghost var retried := Attempts(SaveJobs(PlansOf(decisions)), index.chunkSize, skies.saveRecord, 0).writes;
    PerRecordSaveFallback(decisions, index, skies.saveRecord);
    ConcatAssociates(old(index.log), sent, retried);
  }

  method ExecuteDeletes(decisions: seq<IndexingDecision>, index: AlgoliaIndex, skies: Skies)
    requires index.Valid() && NoDup(decisions)
    requires FatesOf(decisions) == FatesAfterSaves(PlansOf(decisions), index.chunkSize, skies)
    modifies index, decisions
    ensures index.Valid()
    ensures index.log == old(index.log) + Deletes(PlansOf(decisions), index.chunkSize, skies).writes
    ensures FatesOf(decisions) == FinalFates(PlansOf(decisions), index.chunkSize, skies)
  {
    ghost var fates := FatesAfterSaves(PlansOf(decisions), index.chunkSize, skies);
    var ids := AllIds(decisions);
    DeleteAllAtOnce(PlansOf(decisions), ids, index.chunkSize, skies);
    var ok := index.DeleteObjectsBatch(ids, skies.deleteBulk);
    if ok {
      return;
    }
    ghost var sent := Drops(ids)[..Deliver(|ids|, index.chunkSize, skies.deleteBulk, 0, 0).sent];
    ghost var retried := Attempts(DeleteJobs(PlansOf(decisions), fates), index.chunkSize, skies.deleteRecord, 0).writes;
    PerRecordDeleteFallback(decisions, index, skies.deleteRecord);
    ConcatAssociates(old(index.log), sent, retried);
  }

  // ---------------------------------------------------------------- pass 3

  class BatchSummary {
    const contentType: ContentType
    var indexed: nat
    var skipped: nat
    var removed: nat
    var failed: nat
    var failedKeys: seq<string>

    function Value(): Counts
      reads this
    {
      Counts(indexed, skipped, removed, failed, failedKeys)
    }

    constructor (contentType: ContentType)
      ensures this.contentType == contentType && Value() == Counts(0, 0, 0, 0, [])
    {
      this.contentType := contentType;
      indexed, skipped, removed, failed, failedKeys := 0, 0, 0, 0, [];
    }

    /** Bumps the one counter; unlike `RecordFailure`, counting FAILED here notes no key. */
    method Increment(outcome: Outcome)
      modifies this
      ensures Value() == match outcome
                         case Indexed => old(Value()).(indexed := old(indexed) + 1)
                         case Skipped => old(Value()).(skipped := old(skipped) + 1)
                         case Removed => old(Value()).(removed := old(removed) + 1)
                         case Failed => old(Value()).(failed := old(failed) + 1)
    {
      match outcome
      case Indexed => indexed := indexed + 1;
      case Skipped => skipped := skipped + 1;
      case Removed => removed := removed + 1;
      case Failed => failed := failed + 1;
    }

    method RecordFailure(key: string)
      modifies this
      ensures Value() == old(Value()).(failed := old(failed) + 1, failedKeys := old(failedKeys) + [key])
    {
      failed := failed + 1;
      failedKeys := failedKeys + [key];
    }
  }

  /** Stamps one row and counts one outcome; when the stamp raises, nothing is counted here. */
  method FinalizeDecision(
    decision: IndexingDecision, summary: BatchSummary, table: StateTable, at: int, fault: StampFault)
    returns (raised: bool)
    requires decision.plan.hasState <==> decision.state != null
    requires decision.state != null ==> decision.state.ref == decision.plan.ref && decision.plan.ref in table.rows
    requires decision.outcome.Failed? || decision.state != null
    modifies table, summary, decision.state
    ensures raised == StampRaises(decision.plan, decision.CurrentFate(), fault)
    ensures table.rows == Finalize(old(table.rows), decision.plan, decision.CurrentFate(), at, fault).rows
    ensures summary.Value()
            == if raised then old(summary.Value())
               else CountOne(old(summary.Value()), decision.plan, decision.CurrentFate(), false)
  {
    raised := false;
    match decision.outcome
    case Failed =>
      if decision.plan.hasContent {
        var state := decision.state;
        if state == null {
          if fault.GetRaises? {
            return true;
          }
          state := table.GetOrCreate(decision.plan.ref);
        }
        var reason := if decision.failureReason.Some? then decision.failureReason.value else PlanningRaised;
        raised := state.MarkAsFailed(table, reason, at, fault.SaveRaises?);
        if raised {
          return;
        }
      }
      summary.RecordFailure(decision.plan.ref.key);
    case Skipped =>
      summary.Increment(Skipped);
    case Removed =>
      raised := decision.state.MarkAsRemoved(table, at, fault.SaveRaises?);
      if !raised {
        summary.Increment(Removed);
      }
    case Indexed =>
      raised := decision.state.MarkAsIndexed(table, Some(IdsOf(decision.plan.newObjects)), at, fault.SaveRaises?);
      if !raised {
        summary.Increment(Indexed);
      }
  }

  // ---------------------------------------------------------------- the three passes together

  lemma ResolvedFits(decisions: seq<IndexingDecision>, task: Task, rows: Rows, hosted: Hosted, luck: Luck)
    requires |decisions| == |task.keys|
    requires forall j :: 0 <= j < |decisions| ==>
      Resolved(decisions[j], RefAt(task, j), SightOf(task, rows, RefAt(task, j)), luck.lookups(j), hosted)
    ensures PlansFit(PlansOf(decisions), task, rows, hosted, luck)
    ensures FatesOf(decisions) == PlannedFates(PlansOf(decisions))
    ensures forall i :: 0 <= i < |decisions| ==> Attached(decisions[i])
  {
    forall j | 0 <= j < |decisions|
      ensures FatesOf(decisions)[j] == PlannedFates(PlansOf(decisions))[j]
    {
      assert Resolved(decisions[j], RefAt(task, j), SightOf(task, rows, RefAt(task, j)), luck.lookups(j), hosted);
    }
  }

  method ResolveAll(task: Task, table: StateTable, index: AlgoliaIndex, luck: Luck)
    returns (decisions: seq<IndexingDecision>)
    modifies table
    ensures NoDup(decisions)
    ensures forall i :: 0 <= i < |decisions| ==>
      fresh(decisions[i]) && (decisions[i].state != null ==> fresh(decisions[i].state))
    ensures PlansFit(PlansOf(decisions), task, old(table.rows), index.hosted, luck)
    ensures FatesOf(decisions) == PlannedFates(PlansOf(decisions))
    ensures table.rows == RowsFromPass1(old(table.rows), task, luck, 0)
    ensures RowsPresent(decisions, table.rows) && forall i :: 0 <= i < |decisions| ==> Attached(decisions[i])
  {
    ghost var rows := table.rows;
    decisions := [];
    for i := 0 to |task.keys|
      invariant |decisions| == i && NoDup(decisions)
      invariant forall j :: 0 <= j < i ==>
        fresh(decisions[j]) && (decisions[j].state != null ==> fresh(decisions[j].state))
      invariant forall j :: 0 <= j < i ==>
        Resolved(decisions[j], RefAt(task, j), SightOf(task, rows, RefAt(task, j)), luck.lookups(j), index.hosted)
      invariant RowsFromPass1(rows, task, luck, 0) == RowsFromPass1(table.rows, task, luck, i)
      invariant forall ref :: RowOrEmpty(table.rows, ref) == RowOrEmpty(rows, ref)
      invariant RowsPresent(decisions, table.rows)
    {
      var decision := ResolveAt(task, i, table, index, luck, rows);
      decisions := decisions + [decision];
    }
    ResolvedFits(decisions, task, rows, index.hosted, luck);
  }

  /** One step of pass 1. Rows created for earlier records do not change what this one sees. */
  method ResolveAt(task: Task, i: nat, table: StateTable, index: AlgoliaIndex, luck: Luck, ghost rows: Rows)
    returns (decision: IndexingDecision)
    requires i < |task.keys|
    requires forall ref :: RowOrEmpty(table.rows, ref) == RowOrEmpty(rows, ref)
    modifies table
    ensures fresh(decision) && (decision.state != null ==> fresh(decision.state))
    ensures Resolved(decision, RefAt(task, i), SightOf(task, rows, RefAt(task, i)), luck.lookups(i), index.hosted)
    ensures RowsFromPass1(old(table.rows), task, luck, i) == RowsFromPass1(table.rows, task, luck, i + 1)
    ensures forall ref :: RowOrEmpty(table.rows, ref) == RowOrEmpty(rows, ref)
    ensures old(table.rows).Keys <= table.rows.Keys
    ensures decision.plan.hasState ==> decision.plan.ref in table.rows
  {
    var ref := RefAt(task, i);
    decision := ResolveIndexingDecision(
      ref, ContentOf(task, ref), GeneratedFor(task, task.keys[i]), task.keys[i] in task.indexable, task.force,
      table, index, luck.lookups(i));
  }

  /** One step of pass 3, as the caller sees it: a stamp that raises is counted as a failure. */
  method FinalizeAt(
    decisions: seq<IndexingDecision>, i: nat, summary: BatchSummary, table: StateTable, ghost fate: Fate, luck: Luck)
    requires i < |decisions| && Attached(decisions[i]) && RowsPresent(decisions, table.rows)
    requires decisions[i].CurrentFate() == fate && (fate.outcome.Failed? || decisions[i].state != null)
    modifies table, summary, decisions[i].state
    ensures RowsPresent(decisions, table.rows)
    ensures table.rows == Finalize(old(table.rows), decisions[i].plan, fate, luck.clock(i), luck.stamps(i)).rows
    ensures summary.Value() == CountOne(old(summary.Value()), decisions[i].plan, fate,
                                        StampRaises(decisions[i].plan, fate, luck.stamps(i)))
  {
    var raised := FinalizeDecision(decisions[i], summary, table, luck.clock(i), luck.stamps(i));
    if raised {
      summary.RecordFailure(decisions[i].plan.ref.key);
    }
    assert old(table.rows).Keys <= table.rows.Keys;
  }

  method FinalizeAll(
    decisions: seq<IndexingDecision>, summary: BatchSummary, table: StateTable, ghost fates: seq<Fate>, luck: Luck)
    requires RowsPresent(decisions, table.rows) && FatesOf(decisions) == fates
    requires forall i :: 0 <= i < |decisions| ==>
      Attached(decisions[i]) && (fates[i].outcome.Failed? || decisions[i].state != null)
    modifies table, summary, set d | d in decisions :: d.state
    ensures table.rows == FinalizeFrom(old(table.rows), PlansOf(decisions), fates, luck.clock, luck.stamps, 0)
    ensures summary.Value() == CountFrom(old(summary.Value()), PlansOf(decisions), fates, luck.stamps, 0)
  {
    ghost var plans := PlansOf(decisions);
    ghost var rows := FinalizeFrom(table.rows, plans, fates, luck.clock, luck.stamps, 0);
    ghost var counts := CountFrom(summary.Value(), plans, fates, luck.stamps, 0);
    for i := 0 to |decisions|
      invariant rows == FinalizeFrom(table.rows, plans, fates, luck.clock, luck.stamps, i)
      invariant counts == CountFrom(summary.Value(), plans, fates, luck.stamps, i)
      invariant RowsPresent(decisions, table.rows)
    {
      FinalizeAt(decisions, i, summary, table, fates[i], luck);
    }
  }

  method ExecuteWrites(decisions: seq<IndexingDecision>, index: AlgoliaIndex, skies: Skies)
    requires index.Valid() && NoDup(decisions)
    requires FatesOf(decisions) == PlannedFates(PlansOf(decisions))
    requires forall i :: 0 <= i < |decisions| ==> Attached(decisions[i])
    modifies index, decisions
    ensures index.Valid()
    ensures index.log == old(index.log) + WritesOf(PlansOf(decisions), index.chunkSize, skies)
    ensures index.hosted == Apply(old(index.hosted), WritesOf(PlansOf(decisions), index.chunkSize, skies))
    ensures FatesOf(decisions) == FinalFates(PlansOf(decisions), index.chunkSize, skies)
    ensures forall i :: 0 <= i < |decisions| ==>
      FatesOf(decisions)[i].outcome.Failed? || decisions[i].state != null
  {
    ghost var plans := PlansOf(decisions);
    ExecuteSaves(decisions, index, skies);
    ExecuteDeletes(decisions, index, skies);
    ConcatAssociates(
      old(index.log), Saves(plans, index.chunkSize, skies).writes, Deletes(plans, index.chunkSize, skies).writes);
    index.LogExtended(old(index.log), WritesOf(plans, index.chunkSize, skies));
    FatesOnlyFall(plans, index.chunkSize, skies);
    forall i | 0 <= i < |decisions|
      ensures FatesOf(decisions)[i].outcome.Failed? || decisions[i].state != null
    {
      assert Attached(decisions[i]) && plans[i] == decisions[i].plan;
    }
  }

  lemma FatesOnlyFall(plans: seq<Plan>, chunk: nat, skies: Skies)
    requires chunk > 0
    ensures forall i :: 0 <= i < |plans| ==>
      var final := FinalFates(plans, chunk, skies)[i].outcome;
      final.Failed? || final == plans[i].desired
  {
  }

  method IndexContentBatch(task: Task, table: StateTable, index: AlgoliaIndex, luck: Luck)
    returns (summary: BatchSummary, ghost plans: seq<Plan>)
    requires index.Valid()
    modifies table, index
    ensures index.Valid() && fresh(summary)
    ensures PlansFit(plans, task, old(table.rows), old(index.hosted), luck)
    ensures index.log == old(index.log) + WritesOf(plans, index.chunkSize, luck.skies)
    ensures index.hosted == Apply(old(index.hosted), WritesOf(plans, index.chunkSize, luck.skies))
    ensures table.rows == RowsAfterTask(old(table.rows), task, plans, index.chunkSize, luck)
    ensures summary.Value() == CountsAfterTask(plans, index.chunkSize, luck)
  {
    summary := new BatchSummary(task.contentType);
    var decisions := ResolveAll(task, table, index, luck);
    plans := PlansOf(decisions);
    ExecuteWrites(decisions, index, luck.skies);
    FinalizeAll(decisions, summary, table, FinalFates(plans, index.chunkSize, luck.skies), luck);
  }
}
