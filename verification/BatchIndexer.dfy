/**
 One indexing task over a batch of content keys: pass 1 plans every record, pass 2 writes to the index in bulk
 with a per-record fallback, pass 3 stamps the rows. Every failure is an explicit parameter.
 */
module BatchIndexer {
  import opened Prelude
  import opened ContentRefs
  import opened ObjectIds
  import opened SearchIndex
  import opened IndexingStates

  datatype Outcome = Indexed | Skipped | Removed | Failed

  /** What pass 1 resolved for one record; never changed afterwards. */
  datatype Plan = Plan(
    ref: ContentRef,
    desired: Outcome,
    hasContent: bool,
    hasState: bool,
    newObjects: seq<Shard>,
    idsToDelete: seq<string>,
    reason: Option<Reason>)

  function IdsOf(shards: seq<Shard>): (ids: seq<string>)
    ensures |ids| == |shards| && forall i :: 0 <= i < |shards| ==> ids[i] == shards[i].objectId
  {
    seq(|shards|, i requires 0 <= i < |shards| => shards[i].objectId)
  }

  // ---------------------------------------------------------------- pass 1: resolve

  datatype ReadFault = NoReadFault | LookupRaises | BrowseRaises

  /** The tracked ids, or, for a row that tracks none, whatever the index files under the record. */
  function ExistingIds(row: Row, ref: ContentRef, hosted: Hosted): set<string> {
    if row.objectIds != [] then Elems(row.objectIds) else FiledUnder(hosted, AggregationKeyFor(ref))
  }

  predicate UpToDate(row: Row, modified: int, force: bool) {
    !force && row.lastIndexedAt.Some? && row.lastIndexedAt.value >= modified && row.lastFailureAt.None?
  }

  predicate BrowseFails(row: Row, fault: ReadFault) {
    row.objectIds == [] && fault.BrowseRaises?
  }

  /** Everything pass 1 looks at for one record. `content` is the record's modification time, if it exists. */
  datatype Sight = Sight(content: Option<int>, row: Row, generated: seq<Shard>, indexable: bool, force: bool)

  function Desired(sight: Sight, fault: ReadFault): Outcome {
    if sight.content.None? || fault.LookupRaises? then Failed
    else if !sight.indexable then
      if BrowseFails(sight.row, fault) then Failed else Removed
    else if UpToDate(sight.row, sight.content.value, sight.force) then Skipped
    else if BrowseFails(sight.row, fault) then Failed
    else if sight.generated == [] then Removed
    else Indexed
  }

  /** The plans pass 1 may produce. The order of the ids to delete is left open. */
  ghost predicate PlanFits(plan: Plan, ref: ContentRef, sight: Sight, fault: ReadFault, hosted: Hosted) {
    var existing := ExistingIds(sight.row, ref, hosted);
    && plan.ref == ref
    && plan.desired == Desired(sight, fault)
    && plan.hasContent == sight.content.Some?
    && plan.hasState == !plan.desired.Failed?
    && plan.newObjects == (if plan.desired.Indexed? then sight.generated else [])
    && Elems(plan.idsToDelete) == (match plan.desired
                                   case Indexed => existing - Elems(IdsOf(sight.generated))
                                   case Removed => existing
                                   case _ => {})
    && plan.reason == (if !plan.desired.Failed? then None
                       else if sight.content.None? then Some(ContentMissing)
                       else Some(PlanningRaised))
  }

  function RowsAfterPlanning(rows: Rows, ref: ContentRef, content: Option<int>, fault: ReadFault): Rows {
    if content.Some? && !fault.LookupRaises? then WithRow(rows, ref) else rows
  }

  // ---------------------------------------------------------------- pass 2: bulk writes with fallback

  /** Where a record stands: the outcome so far, and why it failed if it did. */
  datatype Fate = Fate(outcome: Outcome, reason: Option<Reason>)

  datatype Effect = Effect(writes: seq<Write>, ok: seq<bool>)

  function SaveJob(plan: Plan): seq<Write> {
    if plan.desired.Indexed? then Puts(plan.newObjects) else []
  }

  function SaveJobs(plans: seq<Plan>): (jobs: seq<seq<Write>>)
    ensures |jobs| == |plans| && forall i :: 0 <= i < |plans| ==> jobs[i] == SaveJob(plans[i])
  {
    seq(|plans|, i requires 0 <= i < |plans| => SaveJob(plans[i]))
  }

  function DeleteJob(plan: Plan, fate: Fate): seq<Write> {
    if fate.outcome.Indexed? || fate.outcome.Removed? then Drops(plan.idsToDelete) else []
  }

  function DeleteJobs(plans: seq<Plan>, fates: seq<Fate>): (jobs: seq<seq<Write>>)
    requires |plans| == |fates|
    ensures |jobs| == |plans| && forall i :: 0 <= i < |plans| ==> jobs[i] == DeleteJob(plans[i], fates[i])
  {
    seq(|plans|, i requires 0 <= i < |plans| => DeleteJob(plans[i], fates[i]))
  }

  /** Jobs i and later, each retried on its own; the weather of a retry may depend on whose it is. */
  function Attempts(jobs: seq<seq<Write>>, chunk: nat, weather: nat -> Weather, i: nat): (e: Effect)
    requires chunk > 0 && i <= |jobs|
    ensures |e.ok| == |jobs| - i
    decreases |jobs| - i
  {
    if i == |jobs| then Effect([], [])
    else
      var d := Deliver(|jobs[i]|, chunk, weather(i), 0, 0);
      var rest := Attempts(jobs, chunk, weather, i + 1);
      Effect(jobs[i][..d.sent] + rest.writes, [d.ok] + rest.ok)
  }

  /** One bulk call over all jobs and, if it raises, one retry per job. */
  function BulkWithFallback(jobs: seq<seq<Write>>, chunk: nat, bulk: Weather, record: nat -> Weather): (e: Effect)
    requires chunk > 0
    ensures |e.ok| == |jobs|
  {
    var all := Flatten(jobs);
    var d := Deliver(|all|, chunk, bulk, 0, 0);
    if d.ok then Effect(all, seq(|jobs|, i => true))
    else
      var retried := Attempts(jobs, chunk, record, 0);
      Effect(all[..d.sent] + retried.writes, retried.ok)
  }

  function Fallen(fates: seq<Fate>, ok: seq<bool>, why: Reason): (r: seq<Fate>)
    requires |fates| == |ok|
    ensures |r| == |fates|
    ensures forall i :: 0 <= i < |r| ==> r[i] == if ok[i] then fates[i] else Fate(Failed, Some(why))
  {
    seq(|fates|, i requires 0 <= i < |fates| => if ok[i] then fates[i] else Fate(Failed, Some(why)))
  }

  function PlannedFates(plans: seq<Plan>): (r: seq<Fate>)
    ensures |r| == |plans| && forall i :: 0 <= i < |r| ==> r[i] == Fate(plans[i].desired, plans[i].reason)
  {
    seq(|plans|, i requires 0 <= i < |plans| => Fate(plans[i].desired, plans[i].reason))
  }

  /** The weather of one task's four kinds of call. */
  datatype Skies = Skies(
    saveBulk: Weather,
    saveRecord: nat -> Weather,
    deleteBulk: Weather,
    deleteRecord: nat -> Weather)

  function Saves(plans: seq<Plan>, chunk: nat, skies: Skies): (e: Effect)
    requires chunk > 0
    ensures |e.ok| == |plans|
  {
    BulkWithFallback(SaveJobs(plans), chunk, skies.saveBulk, skies.saveRecord)
  }

  function FatesAfterSaves(plans: seq<Plan>, chunk: nat, skies: Skies): (r: seq<Fate>)
    requires chunk > 0
    ensures |r| == |plans|
  {
    Fallen(PlannedFates(plans), Saves(plans, chunk, skies).ok, SaveRaised)
  }

  function Deletes(plans: seq<Plan>, chunk: nat, skies: Skies): (e: Effect)
    requires chunk > 0
    ensures |e.ok| == |plans|
  {
    var jobs := DeleteJobs(plans, FatesAfterSaves(plans, chunk, skies));
    BulkWithFallback(jobs, chunk, skies.deleteBulk, skies.deleteRecord)
  }

  function FinalFates(plans: seq<Plan>, chunk: nat, skies: Skies): (r: seq<Fate>)
    requires chunk > 0
    ensures |r| == |plans|
  {
    Fallen(FatesAfterSaves(plans, chunk, skies), Deletes(plans, chunk, skies).ok, DeleteRaised)
  }

  /** Every write the index accepts during pass 2, in order; its prefixes are the intermediate states. */
  function WritesOf(plans: seq<Plan>, chunk: nat, skies: Skies): seq<Write>
    requires chunk > 0
  {
    Saves(plans, chunk, skies).writes + Deletes(plans, chunk, skies).writes
  }

  // ---------------------------------------------------------------- pass 3: finalize

  datatype StampFault = NoStampFault | GetRaises | SaveRaises

  datatype Stamped = Stamped(rows: Rows, raised: bool)

  function Finalize(rows: Rows, plan: Plan, fate: Fate, at: int, fault: StampFault): Stamped {
    var ref := plan.ref;
    var row := RowOrEmpty(rows, ref);
    match fate.outcome
    case Skipped => Stamped(rows, false)
    case Indexed =>
      if fault.SaveRaises? then Stamped(rows, true)
      else Stamped(rows[ref := StampIndexed(row, IdsOf(plan.newObjects), at)], false)
    case Removed =>
      if fault.SaveRaises? then Stamped(rows, true)
      else Stamped(rows[ref := StampRemoved(row, at)], false)
    case Failed =>
      if !plan.hasContent then Stamped(rows, false)
      else if !plan.hasState && fault.GetRaises? then Stamped(rows, true)
      else
        var present := if plan.hasState then rows else WithRow(rows, ref);
        if fault.SaveRaises? then Stamped(present, true)
        else
          var reason := if fate.reason.Some? then fate.reason.value else PlanningRaised;
          Stamped(present[ref := StampFailed(row, reason, at)], false)
  }

  type Clock = nat -> int

  type StampFaults = nat -> StampFault

  /** Records i and later stamped one after the other. */
  function FinalizeFrom(rows: Rows, plans: seq<Plan>, fates: seq<Fate>, clock: Clock, faults: StampFaults, i: nat): Rows
    requires i <= |plans| == |fates|
    decreases |plans| - i
  {
    if i == |plans| then rows
    else FinalizeFrom(Finalize(rows, plans[i], fates[i], clock(i), faults(i)).rows, plans, fates, clock, faults, i + 1)
  }

  /** Whether stamping a record raises; it does not depend on the rows. */
  predicate StampRaises(plan: Plan, fate: Fate, fault: StampFault) {
    match fate.outcome
    case Skipped => false
    case Indexed => fault.SaveRaises?
    case Removed => fault.SaveRaises?
    case Failed => plan.hasContent && (fault.SaveRaises? || (!plan.hasState && fault.GetRaises?))
  }

  datatype Counts = Counts(indexed: nat, skipped: nat, removed: nat, failed: nat, failedKeys: seq<string>)

  function CountOne(c: Counts, plan: Plan, fate: Fate, raised: bool): Counts {
    if raised || fate.outcome.Failed? then c.(failed := c.failed + 1, failedKeys := c.failedKeys + [plan.ref.key])
    else
      match fate.outcome
      case Indexed => c.(indexed := c.indexed + 1)
      case Skipped => c.(skipped := c.skipped + 1)
      case Removed => c.(removed := c.removed + 1)
  }

  function CountFrom(c: Counts, plans: seq<Plan>, fates: seq<Fate>, faults: StampFaults, i: nat): Counts
    requires i <= |plans| == |fates|
    decreases |plans| - i
  {
    if i == |plans| then c
    else
      var raised := StampRaises(plans[i], fates[i], faults(i));
      CountFrom(CountOne(c, plans[i], fates[i], raised), plans, fates, faults, i + 1)
  }

  // ---------------------------------------------------------------- the whole task

  /** What a task is handed: its keys, and the content, generator output and indexable keys it reads. */
  datatype Task = Task(
    contentType: ContentType,
    keys: seq<string>,
    force: bool,
    contents: map<ContentRef, int>,
    generated: map<string, seq<Shard>>,
    indexable: set<string>)

  /** Everything outside the task's control, by position in the batch. */
  datatype Luck = Luck(lookups: nat -> ReadFault, skies: Skies, clock: Clock, stamps: StampFaults)

  function RefAt(task: Task, i: nat): ContentRef
    requires i < |task.keys|
  {
    ContentRef(task.contentType, task.keys[i])
  }

  function ContentOf(task: Task, ref: ContentRef): Option<int> {
    if ref in task.contents then Some(task.contents[ref]) else None
  }

  function GeneratedFor(task: Task, key: string): seq<Shard> {
    if key in task.generated then task.generated[key] else []
  }

  function SightOf(task: Task, rows: Rows, ref: ContentRef): Sight {
    Sight(ContentOf(task, ref), RowOrEmpty(rows, ref), GeneratedFor(task, ref.key), ref.key in task.indexable,
          task.force)
  }

  ghost predicate PlansFit(plans: seq<Plan>, task: Task, rows: Rows, hosted: Hosted, luck: Luck) {
    |plans| == |task.keys|
    && forall i {:trigger plans[i]} :: 0 <= i < |plans| ==>
         PlanFits(plans[i], RefAt(task, i), SightOf(task, rows, RefAt(task, i)), luck.lookups(i), hosted)
  }

  /** Pass 1 creates the rows it does not find. */
  function RowsFromPass1(rows: Rows, task: Task, luck: Luck, i: nat): Rows
    requires i <= |task.keys|
    decreases |task.keys| - i
  {
    if i == |task.keys| then rows
    else
      var ref := RefAt(task, i);
      RowsFromPass1(RowsAfterPlanning(rows, ref, ContentOf(task, ref), luck.lookups(i)), task, luck, i + 1)
  }

  function RowsAfterTask(rows: Rows, task: Task, plans: seq<Plan>, chunk: nat, luck: Luck): Rows
    requires chunk > 0
  {
    FinalizeFrom(RowsFromPass1(rows, task, luck, 0), plans, FinalFates(plans, chunk, luck.skies),
                 luck.clock, luck.stamps, 0)
  }

  function CountsAfterTask(plans: seq<Plan>, chunk: nat, luck: Luck): Counts
    requires chunk > 0
  {
    CountFrom(Counts(0, 0, 0, 0, []), plans, FinalFates(plans, chunk, luck.skies), luck.stamps, 0)
  }

  /** Every record is counted exactly once, and the failed keys are as many as the failures. */
  lemma {:induction false} EachRecordCountedOnce(
    c: Counts, plans: seq<Plan>, fates: seq<Fate>, faults: StampFaults, i: nat)
    requires i <= |plans| == |fates|
    requires |c.failedKeys| == c.failed
    ensures var r := CountFrom(c, plans, fates, faults, i);
            && r.indexed + r.skipped + r.removed + r.failed
              == c.indexed + c.skipped + c.removed + c.failed + |plans| - i
            && |r.failedKeys| == r.failed
    decreases |plans| - i
  {
    if i < |plans| {
      var raised := StampRaises(plans[i], fates[i], faults(i));
      EachRecordCountedOnce(CountOne(c, plans[i], fates[i], raised), plans, fates, faults, i + 1);
    }
  }

  // ---------------------------------------------------------------- laws of bulk writes with fallback

  /** Nothing is written that no job asked for. */
  lemma {:induction false} AttemptsOnlyJobs(
    jobs: seq<seq<Write>>, chunk: nat, weather: nat -> Weather, i: nat, w: Write)
    requires chunk > 0 && i <= |jobs| && w in Attempts(jobs, chunk, weather, i).writes
    ensures exists k :: i <= k < |jobs| && w in jobs[k]
    decreases |jobs| - i
  {
    if w !in jobs[i] {
      AttemptsOnlyJobs(jobs, chunk, weather, i + 1, w);
    }
  }

  lemma EffectOnlyJobs(jobs: seq<seq<Write>>, chunk: nat, bulk: Weather, record: nat -> Weather, w: Write)
    requires chunk > 0 && w in BulkWithFallback(jobs, chunk, bulk, record).writes
    ensures exists i :: 0 <= i < |jobs| && w in jobs[i]
  {
    FlattenMembers(jobs);
    if w !in Flatten(jobs) {
      AttemptsOnlyJobs(jobs, chunk, record, 0, w);
    }
  }

  /** A job whose retry returned normally has been written in full. */
  lemma {:induction false} AttemptedInFull(
    jobs: seq<seq<Write>>, chunk: nat, weather: nat -> Weather, i: nat, k: nat, w: Write)
    requires chunk > 0 && i <= k < |jobs| && w in jobs[k]
    requires Attempts(jobs, chunk, weather, i).ok[k - i]
    ensures w in Attempts(jobs, chunk, weather, i).writes
    decreases |jobs| - i
  {
    if i < k {
      AttemptedInFull(jobs, chunk, weather, i + 1, k, w);
    } else {
      var d := Deliver(|jobs[i]|, chunk, weather(i), 0, 0);
      assert jobs[i][..d.sent] == jobs[i];
    }
  }

  lemma OkMeansWritten(jobs: seq<seq<Write>>, chunk: nat, bulk: Weather, record: nat -> Weather, i: nat, w: Write)
    requires chunk > 0 && i < |jobs| && w in jobs[i]
    requires BulkWithFallback(jobs, chunk, bulk, record).ok[i]
    ensures w in BulkWithFallback(jobs, chunk, bulk, record).writes
  {
    FlattenMembers(jobs);
    var d := Deliver(|Flatten(jobs)|, chunk, bulk, 0, 0);
    if !d.ok {
      AttemptedInFull(jobs, chunk, record, 0, i, w);
    }
  }

  lemma {:induction false} AttemptOk(jobs: seq<seq<Write>>, chunk: nat, weather: nat -> Weather, from: nat, i: nat)
    requires chunk > 0 && from <= i < |jobs|
    ensures Attempts(jobs, chunk, weather, from).ok[i - from] == Deliver(|jobs[i]|, chunk, weather(i), 0, 0).ok
    decreases i - from
  {
    if from < i {
      AttemptOk(jobs, chunk, weather, from + 1, i);
    }
  }

  /** A record with nothing to write cannot fail to write it. */
  lemma EmptyJobIsOk(jobs: seq<seq<Write>>, chunk: nat, bulk: Weather, record: nat -> Weather, i: nat)
    requires chunk > 0 && i < |jobs| && jobs[i] == []
    ensures BulkWithFallback(jobs, chunk, bulk, record).ok[i]
  {
    AttemptOk(jobs, chunk, record, 0, i);
  }

  lemma {:induction false} AttemptsAllOk(jobs: seq<seq<Write>>, chunk: nat, weather: nat -> Weather, i: nat)
    requires chunk > 0 && i <= |jobs|
    requires false !in Attempts(jobs, chunk, weather, i).ok
    ensures Attempts(jobs, chunk, weather, i).writes == Flatten(jobs[i..])
    decreases |jobs| - i
  {
    if i < |jobs| {
      var d := Deliver(|jobs[i]|, chunk, weather(i), 0, 0);
      var rest := Attempts(jobs, chunk, weather, i + 1);
      assert Attempts(jobs, chunk, weather, i).ok == [d.ok] + rest.ok;
      assert d.ok;
      AttemptsAllOk(jobs, chunk, weather, i + 1);
      FlattenFront(jobs[i..]);
      assert jobs[i..][1..] == jobs[i + 1..];
      assert jobs[i][..d.sent] == jobs[i];
    }
  }

  /**
   Wherever the bulk call broke off, if every retry succeeds the index ends exactly as it would have after a
   bulk call that never failed. Holds for any jobs, conflicting ones included.
   */
  lemma FallbackRefinesBulk(h: Hosted, jobs: seq<seq<Write>>, chunk: nat, bulk: Weather, record: nat -> Weather)
    requires chunk > 0
    requires false !in BulkWithFallback(jobs, chunk, bulk, record).ok
    ensures Apply(h, BulkWithFallback(jobs, chunk, bulk, record).writes) == Apply(h, Flatten(jobs))
  {
    var d := Deliver(|Flatten(jobs)|, chunk, bulk, 0, 0);
    if !d.ok {
      assert BulkWithFallback(jobs, chunk, bulk, record).ok == Attempts(jobs, chunk, record, 0).ok;
      AttemptsAllOk(jobs, chunk, record, 0);
      assert jobs[0..] == jobs;
      ReplayAfterPrefix(h, Flatten(jobs), d.sent);
    }
  }
}
