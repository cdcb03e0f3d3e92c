/**
 What becomes of one record of a batch, said in terms of what the task was handed, the record's row and the index: its
 outcome, its row and what is hosted for it.
 */
module BatchOutcomes {
  import opened Prelude
  import opened ContentRefs
  import opened SearchIndex
  import opened IndexingStates
  import opened BatchIndexer
  import opened BatchEffects

  // ---------------------------------------------------------------- when requests go through

  /** Every request of the call that carries these writes is accepted. */
  ghost predicate AllAccepted(weather: Weather, chunk: nat, writes: seq<Write>) {
    forall n: nat :: n * chunk < |writes| ==> weather(n).Accepted?
  }

  lemma CallGoesThrough(weather: Weather, chunk: nat, writes: seq<Write>)
    requires chunk > 0
    ensures Deliver(|writes|, chunk, weather, 0, 0).ok <==> AllAccepted(weather, chunk, writes)
  {
    DeliveredIffAllAccepted(|writes|, chunk, weather, 0, 0);
    forall n: nat
      ensures weather(0 + n) == weather(n)
    {
    }
    if AllAccepted(weather, chunk, writes) {
      forall n: nat | n * chunk < |writes| - 0
        ensures weather(0 + n).Accepted?
      {
      }
    }
    if Deliver(|writes|, chunk, weather, 0, 0).ok {
      forall n: nat | n * chunk < |writes|
        ensures weather(n).Accepted?
      {
        assert weather(0 + n).Accepted?;
      }
    }
  }

  /** A record's writes go through exactly when the bulk call does, or after it failed the record's own retry. */
  lemma OkExactly(jobs: seq<seq<Write>>, chunk: nat, bulk: Weather, record: nat -> Weather, i: nat)
    requires chunk > 0 && i < |jobs|
    ensures BulkWithFallback(jobs, chunk, bulk, record).ok[i]
            <==> AllAccepted(bulk, chunk, Flatten(jobs)) || AllAccepted(record(i), chunk, jobs[i])
  {
    CallGoesThrough(bulk, chunk, Flatten(jobs));
    CallGoesThrough(record(i), chunk, jobs[i]);
    AttemptOk(jobs, chunk, record, 0, i);
  }

  // ---------------------------------------------------------------- what is planned for a record

  /** The record exists and its row could be read. */
  ghost predicate Found(r: Round, i: nat)
    requires i < |r.task.keys|
  {
    RefAt(r.task, i) in r.task.contents && !r.luck.lookups(i).LookupRaises?
  }

  /** A row that tracks nothing makes the task browse the index, and the browse raised. */
  ghost predicate BrowseFailed(rows: Rows, r: Round, i: nat)
    requires i < |r.task.keys|
  {
    RowOrEmpty(rows, RefAt(r.task, i)).objectIds == [] && r.luck.lookups(i).BrowseRaises?
  }

  /** Not forced, indexed no earlier than the record was modified, and not failed since. */
  ghost predicate Current(rows: Rows, r: Round, i: nat)
    requires i < |r.task.keys| && Found(r, i)
  {
    var row := RowOrEmpty(rows, RefAt(r.task, i));
    && !r.task.force
    && row.lastIndexedAt.Some? && r.task.contents[RefAt(r.task, i)] <= row.lastIndexedAt.value
    && row.lastFailureAt.None?
  }

  ghost predicate Generated(r: Round, key: string) {
    key in r.task.generated && r.task.generated[key] != []
  }

  /** The four plans, told apart by the task, the row and the reads. */
  lemma PlannedExactly(rows: Rows, hosted: Hosted, r: Round, owner: Owner, i: nat)
    requires Legal(rows, hosted, r, owner) && i < |r.plans|
    ensures var key, desired := r.task.keys[i], r.plans[i].desired;
            && (desired.Skipped? <==> Found(r, i) && key in r.task.indexable && Current(rows, r, i))
            && (desired.Removed? <==>
                  && Found(r, i) && !BrowseFailed(rows, r, i)
                  && (key !in r.task.indexable || (!Current(rows, r, i) && !Generated(r, key))))
            && (desired.Indexed? <==>
                  && Found(r, i) && !BrowseFailed(rows, r, i)
                  && key in r.task.indexable && !Current(rows, r, i) && Generated(r, key))
            && (desired.Failed? <==>
                  || !Found(r, i)
                  || (BrowseFailed(rows, r, i) && !(key in r.task.indexable && Current(rows, r, i))))
    ensures r.plans[i].ref == RefAt(r.task, i)
    ensures r.plans[i].hasContent <==> RefAt(r.task, i) in r.task.contents
    ensures r.plans[i].hasState <==> !r.plans[i].desired.Failed?
    ensures r.plans[i].reason
            == (if RefAt(r.task, i) !in r.task.contents then Some(ContentMissing)
                else if r.plans[i].desired.Failed? then Some(PlanningRaised) else None)
  {
    PlanAt(rows, hosted, r, owner, i);
  }

  /** An id the task knows of for the record: tracked by its row or, if none is, filed under it by the index. */
  ghost predicate KnownId(rows: Rows, hosted: Hosted, ref: ContentRef, id: string) {
    var tracked := RowOrEmpty(rows, ref).objectIds;
    || id in tracked
    || (tracked == [] && id in hosted && hosted[id].aggregationKey == AggregationKeyFor(ref))
  }

  /** What a plan writes and deletes: what was generated, and the known ids that were not generated again. */
  lemma WritesExactly(rows: Rows, hosted: Hosted, r: Round, owner: Owner, i: nat, id: string)
    requires Legal(rows, hosted, r, owner) && i < |r.plans|
    ensures var plan, key := r.plans[i], r.task.keys[i];
            && (plan.desired.Indexed? ==> key in r.task.generated && plan.newObjects == r.task.generated[key])
            && (!plan.desired.Indexed? ==> plan.newObjects == [])
            && (id in plan.idsToDelete <==>
                  && (plan.desired.Indexed? || plan.desired.Removed?)
                  && KnownId(rows, hosted, RefAt(r.task, i), id)
                  && forall shard | shard in plan.newObjects :: shard.objectId != id)
  {
    var plan, row := r.plans[i], RowOrEmpty(rows, RefAt(r.task, i));
    PlanAt(rows, hosted, r, owner, i);
    assert id in plan.idsToDelete <==> id in Elems(plan.idsToDelete);
    assert id in ExistingIds(row, RefAt(r.task, i), hosted) <==> KnownId(rows, hosted, RefAt(r.task, i), id);
    if n :| 0 <= n < |plan.newObjects| && plan.newObjects[n].objectId == id {
      assert IdsOf(plan.newObjects)[n] == id;
    }
  }

  // ---------------------------------------------------------------- what becomes of it

  ghost predicate SavesGoThrough(r: Round, i: nat)
    requires r.chunk > 0 && i < |r.plans|
  {
    || AllAccepted(r.luck.skies.saveBulk, r.chunk, Flatten(SaveJobs(r.plans)))
    || AllAccepted(r.luck.skies.saveRecord(i), r.chunk, Puts(r.plans[i].newObjects))
  }

  ghost predicate DeletesGoThrough(r: Round, i: nat)
    requires r.chunk > 0 && i < |r.plans|
  {
    || AllAccepted(r.luck.skies.deleteBulk, r.chunk,
                   Flatten(DeleteJobs(r.plans, FatesAfterSaves(r.plans, r.chunk, r.luck.skies))))
    || AllAccepted(r.luck.skies.deleteRecord(i), r.chunk, Drops(r.plans[i].idsToDelete))
  }

  lemma NothingToSave(rows: Rows, hosted: Hosted, r: Round, owner: Owner, i: nat)
    requires Legal(rows, hosted, r, owner) && i < |r.plans|
    ensures SaveJobs(r.plans)[i] == Puts(r.plans[i].newObjects)
  {
    PlanAt(rows, hosted, r, owner, i);
  }

  lemma RemovedSavesNothing(rows: Rows, hosted: Hosted, r: Round, owner: Owner, i: nat)
    requires Legal(rows, hosted, r, owner) && i < |r.plans| && r.plans[i].desired.Removed?
    ensures SavesGoThrough(r, i)
  {
    PlanAt(rows, hosted, r, owner, i);
    assert |Puts(r.plans[i].newObjects)| == 0;
    assert AllAccepted(r.luck.skies.saveRecord(i), r.chunk, Puts(r.plans[i].newObjects));
  }

  /** A record ends as planned when its saves and deletes go through, otherwise FAILED for the first that did not. */
  lemma OutcomeExactly(rows: Rows, hosted: Hosted, r: Round, owner: Owner, i: nat)
    requires Legal(rows, hosted, r, owner) && i < |r.plans|
    ensures var plan := r.plans[i];
            Fates(r)[i] ==
              if plan.desired.Skipped? || plan.desired.Failed? then Fate(plan.desired, plan.reason)
              else if !SavesGoThrough(r, i) then Fate(Failed, Some(SaveRaised))
              else if !DeletesGoThrough(r, i) then Fate(Failed, Some(DeleteRaised))
              else Fate(plan.desired, plan.reason)
  {
    var skies := r.luck.skies;
    var fates := FatesAfterSaves(r.plans, r.chunk, skies);
    NothingToSave(rows, hosted, r, owner, i);
    OkExactly(SaveJobs(r.plans), r.chunk, skies.saveBulk, skies.saveRecord, i);
    OkExactly(DeleteJobs(r.plans, fates), r.chunk, skies.deleteBulk, skies.deleteRecord, i);
    if r.plans[i].desired.Skipped? || r.plans[i].desired.Failed? || fates[i].outcome.Failed? {
      EmptyJobIsOk(DeleteJobs(r.plans, fates), r.chunk, skies.deleteBulk, skies.deleteRecord, i);
    }
    if r.plans[i].desired.Skipped? || r.plans[i].desired.Failed? {
      PlanAt(rows, hosted, r, owner, i);
      EmptyJobIsOk(SaveJobs(r.plans), r.chunk, skies.saveBulk, skies.saveRecord, i);
    }
  }

  /** A record that is to be skipped has nothing to write, so nothing can fail. */
  lemma SkippedStaysSkipped(r: Round, i: nat)
    requires r.chunk > 0 && i < |r.plans| && r.plans[i].desired.Skipped?
    ensures Fates(r)[i].outcome.Skipped?
  {
    var skies := r.luck.skies;
    EmptyJobIsOk(SaveJobs(r.plans), r.chunk, skies.saveBulk, skies.saveRecord, i);
    EmptyJobIsOk(DeleteJobs(r.plans, FatesAfterSaves(r.plans, r.chunk, skies)), r.chunk, skies.deleteBulk,
                 skies.deleteRecord, i);
  }

  /** With complete tracking a record that ends REMOVED hosts nothing afterwards. */
  lemma RemovedHostsNothing(rows: Rows, hosted: Hosted, r: Round, owner: Owner, i: nat, id: string)
    requires Legal(rows, hosted, r, owner) && i < |r.plans| && Fates(r)[i].outcome.Removed?
    requires TrackingComplete(rows, hosted, owner, r.plans[i].ref) && owner(id) == Some(r.plans[i].ref)
    ensures id !in HostedAfter(hosted, r)
  {
    var ref := r.plans[i].ref;
    OutcomeExactly(rows, hosted, r, owner, i);
    PlanAt(rows, hosted, r, owner, i);
    DeleteTookEffect(rows, hosted, r, owner, i);
    forall k | 0 <= k < |r.plans| && r.plans[k].ref == ref
      ensures !r.plans[k].desired.Indexed?
    {
      TwinsAgree(rows, hosted, r, owner, i, k);
    }
    NothingElseAppears(rows, hosted, r, owner, ref, id);
    if id in hosted {
      assert id in Elems(r.plans[i].idsToDelete);
    }
  }

  // ---------------------------------------------------------------- its row

  lemma {:induction false} RowOfOthersKept(rows: Rows, plans: seq<Plan>, fates: seq<Fate>, clock: Clock,
      faults: StampFaults, i: nat, ref: ContentRef)
    requires i <= |plans| == |fates|
    requires forall j | i <= j < |plans| :: plans[j].ref != ref || fates[j].outcome.Skipped?
    ensures RowOrEmpty(FinalizeFrom(rows, plans, fates, clock, faults, i), ref) == RowOrEmpty(rows, ref)
    decreases |plans| - i
  {
    if i < |plans| {
      var next := Finalize(rows, plans[i], fates[i], clock(i), faults(i)).rows;
      RowOfOthersKept(next, plans, fates, clock, faults, i + 1, ref);
    }
  }

  /** What a stamp that does not raise leaves in the row, field by field. */
  ghost predicate AsStamped(before: Row, after: Row, plan: Plan, fate: Fate, at: int) {
    match fate.outcome
    case Indexed =>
      && after.lastIndexedAt == Some(at) && after.objectIds == IdsOf(plan.newObjects)
      && after.removedAt.None? && after.lastFailureAt.None? && after.failureReason.None?
    case Removed =>
      && after.removedAt == Some(at)
      && after.lastIndexedAt == before.lastIndexedAt && after.objectIds == before.objectIds
      && after.lastFailureAt == before.lastFailureAt && after.failureReason == before.failureReason
    case Skipped => after == before
    case Failed =>
      if !plan.hasContent then after == before
      else
        && after.lastFailureAt == Some(at) && after.failureReason.Some?
        && (fate.reason.Some? ==> after.failureReason == fate.reason)
        && after.lastIndexedAt == before.lastIndexedAt && after.objectIds == before.objectIds
        && after.removedAt == before.removedAt
  }

  lemma {:induction false} RowOfOne(rows: Rows, plans: seq<Plan>, fates: seq<Fate>, clock: Clock,
      faults: StampFaults, i: nat, k: nat)
    requires i <= k < |plans| == |fates|
    requires forall j | i <= j < |plans| && j != k :: plans[j].ref != plans[k].ref
    requires !StampRaises(plans[k], fates[k], faults(k))
    ensures AsStamped(RowOrEmpty(rows, plans[k].ref),
                      RowOrEmpty(FinalizeFrom(rows, plans, fates, clock, faults, i), plans[k].ref),
                      plans[k], fates[k], clock(k))
    decreases |plans| - i
  {
    var next := Finalize(rows, plans[i], fates[i], clock(i), faults(i)).rows;
    if i < k {
      assert RowOrEmpty(next, plans[k].ref) == RowOrEmpty(rows, plans[k].ref);
      RowOfOne(next, plans, fates, clock, faults, i + 1, k);
    } else {
      RowOfOthersKept(next, plans, fates, clock, faults, i + 1, plans[k].ref);
    }
  }

  lemma {:induction false} Pass1KeepsRows(rows: Rows, task: Task, luck: Luck, i: nat, ref: ContentRef)
    requires i <= |task.keys|
    ensures RowOrEmpty(RowsFromPass1(rows, task, luck, i), ref) == RowOrEmpty(rows, ref)
    ensures ref in rows ==> ref in RowsFromPass1(rows, task, luck, i)
    decreases |task.keys| - i
  {
    if i < |task.keys| {
      var next := RowsAfterPlanning(rows, RefAt(task, i), ContentOf(task, RefAt(task, i)), luck.lookups(i));
      Pass1KeepsRows(next, task, luck, i + 1, ref);
    }
  }

  /** The row of a record listed once, after the whole task. */
  lemma RowExactly(rows: Rows, hosted: Hosted, r: Round, owner: Owner, i: nat)
    requires Legal(rows, hosted, r, owner) && i < |r.plans| && NoDup(r.task.keys)
    requires !StampRaises(r.plans[i], Fates(r)[i], r.luck.stamps(i))
    ensures AsStamped(RowOrEmpty(rows, RefAt(r.task, i)),
                      RowOrEmpty(RowsAfterTask(rows, r.task, r.plans, r.chunk, r.luck), RefAt(r.task, i)),
                      r.plans[i], Fates(r)[i], r.luck.clock(i))
  {
    Pass1KeepsRows(rows, r.task, r.luck, 0, RefAt(r.task, i));
    forall j | 0 <= j < |r.plans|
      ensures r.plans[j].ref == RefAt(r.task, j)
    {
      PlanAt(rows, hosted, r, owner, j);
    }
    assert forall j | 0 <= j < |r.plans| && j != i :: r.plans[j].ref != r.plans[i].ref;
    RowOfOne(RowsFromPass1(rows, r.task, r.luck, 0), r.plans, Fates(r), r.luck.clock, r.luck.stamps, 0, i);
  }

  /** Which stamps raise, and that the row is then left as it was. */
  lemma RaisesExactly(rows: Rows, plan: Plan, fate: Fate, at: int, fault: StampFault)
    ensures var stamped := Finalize(rows, plan, fate, at, fault);
            && stamped.raised == StampRaises(plan, fate, fault)
            && (stamped.raised <==>
                  || (fault.SaveRaises? && (fate.outcome.Indexed? || fate.outcome.Removed?
                                            || (fate.outcome.Failed? && plan.hasContent)))
                  || (fault.GetRaises? && fate.outcome.Failed? && plan.hasContent && !plan.hasState))
            && (stamped.raised ==> RowOrEmpty(stamped.rows, plan.ref) == RowOrEmpty(rows, plan.ref))
  {
  }

  // ---------------------------------------------------------------- which records have rows

  /** Pass 1 found the record, and so made sure of its row. */
  ghost predicate MakesRow(task: Task, luck: Luck, i: nat, ref: ContentRef)
    requires i < |task.keys|
  {
    RefAt(task, i) == ref && ref in task.contents && !luck.lookups(i).LookupRaises?
  }

  lemma {:induction false} Pass1Rows(rows: Rows, task: Task, luck: Luck, i: nat, ref: ContentRef)
    requires i <= |task.keys|
    ensures ref in RowsFromPass1(rows, task, luck, i)
            <==> ref in rows || exists j | i <= j < |task.keys| :: MakesRow(task, luck, j, ref)
    decreases |task.keys| - i
  {
    if i < |task.keys| {
      var next := RowsAfterPlanning(rows, RefAt(task, i), ContentOf(task, RefAt(task, i)), luck.lookups(i));
      assert ref in next <==> ref in rows || MakesRow(task, luck, i, ref);
      Pass1Rows(next, task, luck, i + 1, ref);
    }
  }

  /** A failure to read a record is stamped on a row made for that purpose, unless making it raises. */
  ghost predicate MakesRowLate(plans: seq<Plan>, fates: seq<Fate>, faults: StampFaults, i: nat, ref: ContentRef)
    requires i < |plans| == |fates|
  {
    && plans[i].ref == ref && fates[i].outcome.Failed? && plans[i].hasContent && !plans[i].hasState
    && !faults(i).GetRaises?
  }

  lemma {:induction false} FinalizedRows(rows: Rows, plans: seq<Plan>, fates: seq<Fate>, clock: Clock,
      faults: StampFaults, i: nat, ref: ContentRef)
    requires i <= |plans| == |fates|
    requires forall j | i <= j < |plans| && plans[j].ref == ref && (plans[j].hasState || !fates[j].outcome.Failed?) ::
               ref in rows
    ensures ref in FinalizeFrom(rows, plans, fates, clock, faults, i)
            <==> ref in rows || exists j | i <= j < |plans| :: MakesRowLate(plans, fates, faults, j, ref)
    decreases |plans| - i
  {
    if i < |plans| {
      var next := Finalize(rows, plans[i], fates[i], clock(i), faults(i)).rows;
      assert ref in next <==> ref in rows || MakesRowLate(plans, fates, faults, i, ref);
      FinalizedRows(next, plans, fates, clock, faults, i + 1, ref);
    }
  }

  /** The record exists and is listed here, and its row could be read, or else made for the stamp of the failure. */
  ghost predicate RowMade(r: Round, i: nat, ref: ContentRef)
    requires i < |r.task.keys|
  {
    && RefAt(r.task, i) == ref && ref in r.task.contents
    && (!r.luck.lookups(i).LookupRaises? || !r.luck.stamps(i).GetRaises?)
  }

  lemma RowMadeExactly(rows: Rows, hosted: Hosted, r: Round, owner: Owner, i: nat, ref: ContentRef)
    requires Legal(rows, hosted, r, owner) && i < |r.plans|
    ensures RowMade(r, i, ref)
            <==> MakesRow(r.task, r.luck, i, ref) || MakesRowLate(r.plans, Fates(r), r.luck.stamps, i, ref)
    ensures r.plans[i].ref == ref && (r.plans[i].hasState || !Fates(r)[i].outcome.Failed?)
            ==> MakesRow(r.task, r.luck, i, ref)
  {
    PlannedExactly(rows, hosted, r, owner, i);
    OutcomeExactly(rows, hosted, r, owner, i);
  }

  lemma RowsFrom(rows: Rows, r: Round, fates: seq<Fate>, ref: ContentRef)
    requires |r.plans| == |fates| == |r.task.keys|
    requires forall i | 0 <= i < |r.plans| ::
               && (RowMade(r, i, ref)
                   <==> MakesRow(r.task, r.luck, i, ref) || MakesRowLate(r.plans, fates, r.luck.stamps, i, ref))
               && (r.plans[i].ref == ref && (r.plans[i].hasState || !fates[i].outcome.Failed?)
                   ==> MakesRow(r.task, r.luck, i, ref))
    ensures ref in FinalizeFrom(RowsFromPass1(rows, r.task, r.luck, 0), r.plans, fates, r.luck.clock, r.luck.stamps, 0)
            <==> ref in rows || exists i | 0 <= i < |r.plans| :: RowMade(r, i, ref)
  {
    Pass1Rows(rows, r.task, r.luck, 0, ref);
    FinalizedRows(RowsFromPass1(rows, r.task, r.luck, 0), r.plans, fates, r.luck.clock, r.luck.stamps, 0, ref);
  }

  /** After the task a record has a row exactly when it had one, or it exists and its row could be read or made. */
  lemma RowsExactly(rows: Rows, hosted: Hosted, r: Round, owner: Owner, ref: ContentRef)
    requires Legal(rows, hosted, r, owner)
    ensures ref in RowsAfterTask(rows, r.task, r.plans, r.chunk, r.luck)
            <==> ref in rows || exists i | 0 <= i < |r.plans| :: RowMade(r, i, ref)
  {
    forall i | 0 <= i < |r.plans|
      ensures RowMade(r, i, ref)
              <==> MakesRow(r.task, r.luck, i, ref) || MakesRowLate(r.plans, Fates(r), r.luck.stamps, i, ref)
      ensures r.plans[i].ref == ref && (r.plans[i].hasState || !Fates(r)[i].outcome.Failed?)
              ==> MakesRow(r.task, r.luck, i, ref)
    {
      RowMadeExactly(rows, hosted, r, owner, i, ref);
    }
    RowsFrom(rows, r, Fates(r), ref);
  }

  // ---------------------------------------------------------------- the summary

  /** The record ended FAILED, or its stamp raised. */
  predicate CountsAsFailed(plans: seq<Plan>, fates: seq<Fate>, faults: StampFaults, i: nat)
    requires i < |plans| == |fates|
  {
    fates[i].outcome.Failed? || StampRaises(plans[i], fates[i], faults(i))
  }

  /** How many records, from one on, end with an outcome and are stamped. */
  function Ending(plans: seq<Plan>, fates: seq<Fate>, faults: StampFaults, o: Outcome, from: nat): nat
    requires |plans| == |fates|
    decreases |plans| - from
  {
    if from >= |plans| then 0
    else
      (if fates[from].outcome == o && !CountsAsFailed(plans, fates, faults, from) then 1 else 0)
      + Ending(plans, fates, faults, o, from + 1)
  }

  /** The keys, from one record on, of those that fail or are not stamped. */
  function FailingKeys(plans: seq<Plan>, fates: seq<Fate>, faults: StampFaults, from: nat): seq<string>
    requires |plans| == |fates|
    decreases |plans| - from
  {
    if from >= |plans| then []
    else
      (if CountsAsFailed(plans, fates, faults, from) then [plans[from].ref.key] else [])
      + FailingKeys(plans, fates, faults, from + 1)
  }

  lemma {:induction false} CountedFrom(c: Counts, plans: seq<Plan>, fates: seq<Fate>, faults: StampFaults, i: nat)
    requires i <= |plans| == |fates|
    ensures var r := CountFrom(c, plans, fates, faults, i);
            && r.indexed == c.indexed + Ending(plans, fates, faults, Indexed, i)
            && r.skipped == c.skipped + Ending(plans, fates, faults, Skipped, i)
            && r.removed == c.removed + Ending(plans, fates, faults, Removed, i)
            && r.failed == c.failed + |FailingKeys(plans, fates, faults, i)|
            && r.failedKeys == c.failedKeys + FailingKeys(plans, fates, faults, i)
    decreases |plans| - i
  {
    if i < |plans| {
      var next := CountOne(c, plans[i], fates[i], StampRaises(plans[i], fates[i], faults(i)));
      CountedFrom(next, plans, fates, faults, i + 1);
      if CountsAsFailed(plans, fates, faults, i) {
        ConcatAssociates(c.failedKeys, [plans[i].ref.key], FailingKeys(plans, fates, faults, i + 1));
      }
    }
  }

  /** The summary: each counter is the number of records that ended so, and the failed keys are listed in order. */
  lemma SummaryExactly(r: Round)
    requires r.chunk > 0
    ensures var plans, fates, faults := r.plans, Fates(r), r.luck.stamps;
            CountsAfterTask(r.plans, r.chunk, r.luck)
            == Counts(Ending(plans, fates, faults, Indexed, 0), Ending(plans, fates, faults, Skipped, 0),
                      Ending(plans, fates, faults, Removed, 0), |FailingKeys(plans, fates, faults, 0)|,
                      FailingKeys(plans, fates, faults, 0))
  {
    CountedFrom(Counts(0, 0, 0, 0, []), r.plans, Fates(r), r.luck.stamps, 0);
  }

  // ---------------------------------------------------------------- a record that is no longer indexable

  /** A record whose key is not indexable ends REMOVED, if it is found and its deletes go through. */
  lemma UnindexableEndsRemoved(rows: Rows, hosted: Hosted, r: Round, owner: Owner, i: nat)
    requires Legal(rows, hosted, r, owner) && i < |r.plans|
    requires r.task.keys[i] !in r.task.indexable && RefAt(r.task, i) in r.task.contents
    requires r.luck.lookups(i).NoReadFault? && DeletesGoThrough(r, i)
    ensures Fates(r)[i].outcome.Removed? && r.plans[i].ref == RefAt(r.task, i)
  {
    PlannedExactly(rows, hosted, r, owner, i);
    RemovedSavesNothing(rows, hosted, r, owner, i);
    OutcomeExactly(rows, hosted, r, owner, i);
  }

  /** So nothing is hosted for it afterwards, if its tracking was complete. */
  lemma UnindexableHostsNothing(rows: Rows, hosted: Hosted, r: Round, owner: Owner, i: nat, id: string)
    requires Legal(rows, hosted, r, owner) && i < |r.plans|
    requires r.task.keys[i] !in r.task.indexable && RefAt(r.task, i) in r.task.contents
    requires r.luck.lookups(i).NoReadFault? && DeletesGoThrough(r, i)
    requires TrackingComplete(rows, hosted, owner, RefAt(r.task, i)) && owner(id) == Some(RefAt(r.task, i))
    ensures id !in HostedAfter(hosted, r)
  {
    UnindexableEndsRemoved(rows, hosted, r, owner, i);
    RemovedHostsNothing(rows, hosted, r, owner, i, id);
  }

  /** And its row says when, if it is listed once and its stamp does not raise. */
  lemma UnindexableIsStamped(rows: Rows, hosted: Hosted, r: Round, owner: Owner, i: nat)
    requires Legal(rows, hosted, r, owner) && i < |r.plans| && NoDup(r.task.keys)
    requires r.task.keys[i] !in r.task.indexable && RefAt(r.task, i) in r.task.contents
    requires r.luck.lookups(i).NoReadFault? && DeletesGoThrough(r, i) && r.luck.stamps(i).NoStampFault?
    ensures var before := RowOrEmpty(rows, RefAt(r.task, i));
            RowOrEmpty(RowsAfterTask(rows, r.task, r.plans, r.chunk, r.luck), RefAt(r.task, i))
            == Row(before.lastIndexedAt, Some(r.luck.clock(i)), before.objectIds, before.lastFailureAt,
                   before.failureReason)
  {
    UnindexableEndsRemoved(rows, hosted, r, owner, i);
    RowExactly(rows, hosted, r, owner, i);
  }
}
