/** What one batch task does to the index, record by record, whatever fails on the way. */
module BatchEffects {
  import opened Prelude
  import opened ContentRefs
  import opened SearchIndex
  import opened IndexingStates
  import opened BatchIndexer

  /** Which record an objectID belongs to, if it belongs to an indexed record at all. */
  type Owner = string -> Option<ContentRef>

  /** One run of the task: what it was handed, what pass 1 planned, and what happened to it. */
  datatype Round = Round(task: Task, plans: seq<Plan>, luck: Luck, chunk: nat)

  function Fates(r: Round): (fates: seq<Fate>)
    requires r.chunk > 0
    ensures |fates| == |r.plans|
  {
    FinalFates(r.plans, r.chunk, r.luck.skies)
  }

  function HostedAfter(hosted: Hosted, r: Round): Hosted
    requires r.chunk > 0
  {
    Apply(hosted, WritesOf(r.plans, r.chunk, r.luck.skies))
  }

  function ShardsFor(r: Round, ref: ContentRef): seq<Shard> {
    GeneratedFor(r.task, ref.key)
  }

  /** The generator labels each shard as its record's own and never repeats an objectID within a record. */
  ghost predicate WellGenerated(r: Round, owner: Owner) {
    forall key, shard :: key in r.task.generated && shard in r.task.generated[key] ==>
      var ref := ContentRef(r.task.contentType, key);
      && owner(shard.objectId) == Some(ref)
      && shard.aggregationKey == AggregationKeyFor(ref)
      && (forall other :: other in r.task.generated[key] && other.objectId == shard.objectId ==> other == shard)
  }

  /** Every hosted object sits under its own id, and is filed under a record exactly when that record owns the id. */
  ghost predicate WellFiled(hosted: Hosted, owner: Owner) {
    forall id :: id in hosted ==>
      && hosted[id].objectId == id
      && forall ref :: hosted[id].aggregationKey == AggregationKeyFor(ref) <==> owner(id) == Some(ref)
  }

  ghost predicate WellTracked(rows: Rows, owner: Owner) {
    forall ref, id :: ref in rows && id in rows[ref].objectIds ==> owner(id) == Some(ref)
  }

  ghost predicate Legal(rows: Rows, hosted: Hosted, r: Round, owner: Owner) {
    && r.chunk > 0
    && PlansFit(r.plans, r.task, rows, hosted, r.luck)
    && WellGenerated(r, owner) && WellFiled(hosted, owner) && WellTracked(rows, owner)
  }

  // ---------------------------------------------------------------- what the writes can be

  lemma PlanAt(rows: Rows, hosted: Hosted, r: Round, owner: Owner, i: nat)
    requires Legal(rows, hosted, r, owner) && i < |r.plans|
    ensures PlanFits(r.plans[i], RefAt(r.task, i), SightOf(r.task, rows, RefAt(r.task, i)), r.luck.lookups(i), hosted)
    ensures r.plans[i].ref == RefAt(r.task, i)
  {
    var plan := r.plans[i];
  }

  lemma NewObjectsOwned(rows: Rows, hosted: Hosted, r: Round, owner: Owner, i: nat, shard: Shard)
    requires Legal(rows, hosted, r, owner) && i < |r.plans| && shard in r.plans[i].newObjects
    ensures owner(shard.objectId) == Some(r.plans[i].ref)
    ensures r.plans[i].desired.Indexed? && r.plans[i].newObjects == ShardsFor(r, r.plans[i].ref)
    ensures shard.aggregationKey == AggregationKeyFor(r.plans[i].ref)
  {
    PlanAt(rows, hosted, r, owner, i);
    assert r.task.keys[i] in r.task.generated;
  }

  lemma DeletedIdsOwned(rows: Rows, hosted: Hosted, r: Round, owner: Owner, i: nat, id: string)
    requires Legal(rows, hosted, r, owner) && i < |r.plans| && id in r.plans[i].idsToDelete
    ensures owner(id) == Some(r.plans[i].ref)
    ensures id in ExistingIds(RowOrEmpty(rows, r.plans[i].ref), r.plans[i].ref, hosted)
  {
    PlanAt(rows, hosted, r, owner, i);
    assert id in Elems(r.plans[i].idsToDelete);
  }

  lemma SavedBy(rows: Rows, hosted: Hosted, r: Round, owner: Owner, w: Write) returns (i: nat)
    requires Legal(rows, hosted, r, owner) && w in Saves(r.plans, r.chunk, r.luck.skies).writes
    ensures i < |r.plans| && w.Put? && w.shard in r.plans[i].newObjects
    ensures owner(w.Target()) == Some(r.plans[i].ref)
  {
    var skies := r.luck.skies;
    EffectOnlyJobs(SaveJobs(r.plans), r.chunk, skies.saveBulk, skies.saveRecord, w);
    i :| 0 <= i < |r.plans| && w in SaveJobs(r.plans)[i];
    NewObjectsOwned(rows, hosted, r, owner, i, w.shard);
  }

  lemma DropOfJob(plan: Plan, fate: Fate, w: Write)
    requires w in DeleteJob(plan, fate)
    ensures w.Drop? && w.id in plan.idsToDelete && (fate.outcome.Indexed? || fate.outcome.Removed?)
  {
  }

  lemma DeletedBy(rows: Rows, hosted: Hosted, r: Round, owner: Owner, w: Write) returns (i: nat)
    requires Legal(rows, hosted, r, owner) && w in Deletes(r.plans, r.chunk, r.luck.skies).writes
    ensures i < |r.plans| && w.Drop? && w.id in r.plans[i].idsToDelete
    ensures var fate := FatesAfterSaves(r.plans, r.chunk, r.luck.skies)[i];
            fate.outcome == r.plans[i].desired && (fate.outcome.Indexed? || fate.outcome.Removed?)
    ensures owner(w.Target()) == Some(r.plans[i].ref)
  {
    var skies := r.luck.skies;
    var fates := FatesAfterSaves(r.plans, r.chunk, skies);
    EffectOnlyJobs(DeleteJobs(r.plans, fates), r.chunk, skies.deleteBulk, skies.deleteRecord, w);
    i :| 0 <= i < |r.plans| && w in DeleteJobs(r.plans, fates)[i];
    DropOfJob(r.plans[i], fates[i], w);
    DeletedIdsOwned(rows, hosted, r, owner, i, w.id);
  }

  lemma SavesConsistent(rows: Rows, hosted: Hosted, r: Round, owner: Owner)
    requires Legal(rows, hosted, r, owner)
    ensures Consistent(Saves(r.plans, r.chunk, r.luck.skies).writes)
  {
    var ws := Saves(r.plans, r.chunk, r.luck.skies).writes;
    forall v, w | v in ws && w in ws && v.Target() == w.Target()
      ensures v == w
    {
      var i := SavedBy(rows, hosted, r, owner, v);
      var j := SavedBy(rows, hosted, r, owner, w);
      NewObjectsOwned(rows, hosted, r, owner, i, v.shard);
      NewObjectsOwned(rows, hosted, r, owner, j, w.shard);
      assert v.shard in r.task.generated[r.plans[i].ref.key];
      PlanAt(rows, hosted, r, owner, i);
    }
  }

  lemma DeletesConsistent(rows: Rows, hosted: Hosted, r: Round, owner: Owner)
    requires Legal(rows, hosted, r, owner)
    ensures Consistent(Deletes(r.plans, r.chunk, r.luck.skies).writes)
  {
    var ws := Deletes(r.plans, r.chunk, r.luck.skies).writes;
    forall v, w | v in ws && w in ws && v.Target() == w.Target()
      ensures v == w
    {
      var _ := DeletedBy(rows, hosted, r, owner, v);
      var _ := DeletedBy(rows, hosted, r, owner, w);
    }
  }

  /** Plans for the same record agree on what to do, save that a read may have failed for one of them. */
  lemma TwinsAgree(rows: Rows, hosted: Hosted, r: Round, owner: Owner, i: nat, k: nat)
    requires Legal(rows, hosted, r, owner) && i < |r.plans| && k < |r.plans| && r.plans[i].ref == r.plans[k].ref
    ensures r.plans[i].hasContent == r.plans[k].hasContent
    ensures r.plans[i].desired == r.plans[k].desired || r.plans[i].desired.Failed? || r.plans[k].desired.Failed?
    ensures r.plans[i].desired == r.plans[k].desired ==>
      r.plans[i].newObjects == r.plans[k].newObjects && Elems(r.plans[i].idsToDelete) == Elems(r.plans[k].idsToDelete)
  {
    PlanAt(rows, hosted, r, owner, i);
    PlanAt(rows, hosted, r, owner, k);
  }

  // ---------------------------------------------------------------- outcomes and the index

  lemma IdOfMember(shards: seq<Shard>, shard: Shard)
    requires shard in shards
    ensures shard.objectId in IdsOf(shards)
  {
    var n :| 0 <= n < |shards| && shards[n] == shard;
    assert IdsOf(shards)[n] == shard.objectId;
  }

  /** No delete of pass 2 touches an object the same task set out to save. */
  lemma DeletesSpareNewObjects(rows: Rows, hosted: Hosted, r: Round, owner: Owner, i: nat, shard: Shard)
    requires Legal(rows, hosted, r, owner) && i < |r.plans| && shard in r.plans[i].newObjects
    ensures shard.objectId !in Targets(Deletes(r.plans, r.chunk, r.luck.skies).writes)
  {
    var ws := Deletes(r.plans, r.chunk, r.luck.skies).writes;
    forall w | w in ws
      ensures w.Target() != shard.objectId
    {
      var k := DeletedBy(rows, hosted, r, owner, w);
      NewObjectsOwned(rows, hosted, r, owner, i, shard);
      if r.plans[k].ref == r.plans[i].ref {
        TwinsAgree(rows, hosted, r, owner, i, k);
        PlanAt(rows, hosted, r, owner, k);
        assert w.id in Elems(r.plans[k].idsToDelete);
        IdOfMember(r.plans[i].newObjects, shard);
      }
    }
  }

  /** Once the saves are done, a new object of a record whose save went through is hosted as generated. */
  lemma SavedIsHosted(rows: Rows, hosted: Hosted, r: Round, owner: Owner, k: nat, shard: Shard)
    requires Legal(rows, hosted, r, owner) && k < |r.plans| && r.plans[k].desired.Indexed?
    requires shard in r.plans[k].newObjects && Saves(r.plans, r.chunk, r.luck.skies).ok[k]
    ensures Reflects(Apply(hosted, Saves(r.plans, r.chunk, r.luck.skies).writes), Put(shard))
  {
    var skies := r.luck.skies;
    assert Put(shard) in SaveJobs(r.plans)[k] by {
      var n :| 0 <= n < |r.plans[k].newObjects| && r.plans[k].newObjects[n] == shard;
      assert Puts(r.plans[k].newObjects)[n] == Put(shard);
    }
    OkMeansWritten(SaveJobs(r.plans), r.chunk, skies.saveBulk, skies.saveRecord, k, Put(shard));
    SavesConsistent(rows, hosted, r, owner);
    ConsistentSettles(hosted, Saves(r.plans, r.chunk, skies).writes, Put(shard));
  }

  /** A record that ends INDEXED has all its new objects hosted as generated, and none of its orphans. */
  lemma IndexedMeansHosted(rows: Rows, hosted: Hosted, r: Round, owner: Owner, i: nat)
    requires Legal(rows, hosted, r, owner) && i < |r.plans| && Fates(r)[i].outcome.Indexed?
    ensures r.plans[i].desired.Indexed?
    ensures forall shard :: shard in r.plans[i].newObjects ==> Reflects(HostedAfter(hosted, r), Put(shard))
    ensures forall id :: id in r.plans[i].idsToDelete ==> id !in HostedAfter(hosted, r)
  {
    var skies := r.luck.skies;
    var saves, deletes := Saves(r.plans, r.chunk, skies), Deletes(r.plans, r.chunk, skies);
    var fates := FatesAfterSaves(r.plans, r.chunk, skies);
    assert saves.ok[i] && deletes.ok[i] && fates[i].outcome.Indexed?;
    ApplyConcat(hosted, saves.writes, deletes.writes);
    var mid := Apply(hosted, saves.writes);
    forall shard | shard in r.plans[i].newObjects
      ensures Reflects(HostedAfter(hosted, r), Put(shard))
    {
      SavedIsHosted(rows, hosted, r, owner, i, shard);
      DeletesSpareNewObjects(rows, hosted, r, owner, i, shard);
      UntouchedStays(mid, deletes.writes, shard.objectId);
    }
    DeleteTookEffect(rows, hosted, r, owner, i);
  }

  /** When the index accepts every request, every record ends as it was planned. */
  lemma AllAcceptedAsPlanned(r: Round, i: nat)
    requires r.chunk > 0 && i < |r.plans|
    requires forall n :: r.luck.skies.saveBulk(n).Accepted? && r.luck.skies.deleteBulk(n).Accepted?
    ensures Fates(r)[i] == Fate(r.plans[i].desired, r.plans[i].reason)
  {
    var skies := r.luck.skies;
    DeliveredIffAllAccepted(|Flatten(SaveJobs(r.plans))|, r.chunk, skies.saveBulk, 0, 0);
    assert Saves(r.plans, r.chunk, skies).ok[i];
    var drops := DeleteJobs(r.plans, FatesAfterSaves(r.plans, r.chunk, skies));
    DeliveredIffAllAccepted(|Flatten(drops)|, r.chunk, skies.deleteBulk, 0, 0);
    assert Deletes(r.plans, r.chunk, skies).ok[i];
  }

  /** A record whose deletes were attempted and did not fail hosts none of the ids it set out to delete. */
  lemma DeleteTookEffect(rows: Rows, hosted: Hosted, r: Round, owner: Owner, i: nat)
    requires Legal(rows, hosted, r, owner) && i < |r.plans|
    requires Fates(r)[i].outcome.Indexed? || Fates(r)[i].outcome.Removed?
    ensures forall id :: id in r.plans[i].idsToDelete ==> id !in HostedAfter(hosted, r)
  {
    var skies := r.luck.skies;
    var saves, deletes := Saves(r.plans, r.chunk, skies), Deletes(r.plans, r.chunk, skies);
    var fates := FatesAfterSaves(r.plans, r.chunk, skies);
    ApplyConcat(hosted, saves.writes, deletes.writes);
    forall id | id in r.plans[i].idsToDelete
      ensures id !in HostedAfter(hosted, r)
    {
      assert Drop(id) in DeleteJobs(r.plans, fates)[i] by {
        var n :| 0 <= n < |r.plans[i].idsToDelete| && r.plans[i].idsToDelete[n] == id;
        assert Drops(r.plans[i].idsToDelete)[n] == Drop(id);
      }
      OkMeansWritten(DeleteJobs(r.plans, fates), r.chunk, skies.deleteBulk, skies.deleteRecord, i, Drop(id));
      DeletesConsistent(rows, hosted, r, owner);
      ConsistentSettles(Apply(hosted, saves.writes), deletes.writes, Drop(id));
    }
  }

  ghost predicate PlansToSave(r: Round, ref: ContentRef) {
    exists i :: 0 <= i < |r.plans| && r.plans[i].ref == ref && r.plans[i].desired.Indexed?
  }

  ghost predicate PlansToWrite(r: Round, ref: ContentRef) {
    exists i :: 0 <= i < |r.plans| && r.plans[i].ref == ref
      && (r.plans[i].desired.Indexed? || r.plans[i].desired.Removed?)
  }

  /** Objects appear only as saved: an id no accepted save wrote is hosted afterwards only as it was before. */
  lemma OnlySavedAppears(rows: Rows, hosted: Hosted, r: Round, owner: Owner, ref: ContentRef, id: string)
    requires Legal(rows, hosted, r, owner) && owner(id) == Some(ref)
    requires id !in Targets(Saves(r.plans, r.chunk, r.luck.skies).writes)
    ensures id in HostedAfter(hosted, r) ==> id in hosted && HostedAfter(hosted, r)[id] == hosted[id]
    ensures !PlansToWrite(r, ref) ==> SameAt(hosted, HostedAfter(hosted, r), id)
  {
    var skies := r.luck.skies;
    var saves, deletes := Saves(r.plans, r.chunk, skies).writes, Deletes(r.plans, r.chunk, skies).writes;
    var mid := Apply(hosted, saves);
    ApplyConcat(hosted, saves, deletes);
    UntouchedStays(hosted, saves, id);
    if w :| w in deletes && w.Target() == id {
      var i := DeletedBy(rows, hosted, r, owner, w);
      DeletesConsistent(rows, hosted, r, owner);
      ConsistentSettles(mid, deletes, w);
    } else {
      UntouchedStays(mid, deletes, id);
    }
  }

  /** What was not newly generated for a record neither appears nor changes. */
  lemma NothingElseAppears(rows: Rows, hosted: Hosted, r: Round, owner: Owner, ref: ContentRef, id: string)
    requires Legal(rows, hosted, r, owner) && owner(id) == Some(ref)
    requires !PlansToSave(r, ref) || id !in IdsOf(ShardsFor(r, ref))
    ensures id in HostedAfter(hosted, r) ==> id in hosted && HostedAfter(hosted, r)[id] == hosted[id]
    ensures !PlansToWrite(r, ref) ==> SameAt(hosted, HostedAfter(hosted, r), id)
  {
    forall w | w in Saves(r.plans, r.chunk, r.luck.skies).writes
      ensures w.Target() != id
    {
      var i := SavedBy(rows, hosted, r, owner, w);
      NewObjectsOwned(rows, hosted, r, owner, i, w.shard);
      IdOfMember(r.plans[i].newObjects, w.shard);
    }
    OnlySavedAppears(rows, hosted, r, owner, ref, id);
  }

  /** The index stays well filed. */
  lemma StaysWellFiled(rows: Rows, hosted: Hosted, r: Round, owner: Owner)
    requires Legal(rows, hosted, r, owner)
    ensures WellFiled(HostedAfter(hosted, r), owner)
  {
    var ws := WritesOf(r.plans, r.chunk, r.luck.skies);
    forall w | w in ws && w.Put?
      ensures forall ref :: w.shard.aggregationKey == AggregationKeyFor(ref) <==> owner(w.shard.objectId) == Some(ref)
    {
      if w in Saves(r.plans, r.chunk, r.luck.skies).writes {
        var i := SavedBy(rows, hosted, r, owner, w);
        NewObjectsOwned(rows, hosted, r, owner, i, w.shard);
        forall ref: ContentRef {
          AggregationKeyInjective(ref, r.plans[i].ref);
        }
      } else {
        var _ := DeletedBy(rows, hosted, r, owner, w);
      }
    }
    ApplyWellFiled(hosted, ws, owner);
  }

  lemma {:induction false} ApplyWellFiled(hosted: Hosted, ws: seq<Write>, owner: Owner)
    requires WellFiled(hosted, owner)
    requires forall w :: w in ws && w.Put? ==>
      forall ref :: w.shard.aggregationKey == AggregationKeyFor(ref) <==> owner(w.shard.objectId) == Some(ref)
    ensures WellFiled(Apply(hosted, ws), owner)
  {
    if ws != [] {
      var init, last := ws[..|ws| - 1], ws[|ws| - 1];
      assert last in ws && forall w :: w in init ==> w in ws;
      ApplyWellFiled(hosted, init, owner);
    }
  }

  // ---------------------------------------------------------------- exactness after success

  /** Whatever the index hosts for the record is among its row's tracked ids, unless the row tracks none. */
  ghost predicate TrackingComplete(rows: Rows, hosted: Hosted, owner: Owner, ref: ContentRef) {
    RowOrEmpty(rows, ref).objectIds != [] ==>
      forall id :: id in hosted && owner(id) == Some(ref) ==> id in RowOrEmpty(rows, ref).objectIds
  }

  /** With complete tracking, whatever a record that ends INDEXED hosts is one of its new objects. */
  lemma HostedIsNew(rows: Rows, hosted: Hosted, r: Round, owner: Owner, i: nat, id: string)
    requires Legal(rows, hosted, r, owner) && i < |r.plans| && Fates(r)[i].outcome.Indexed?
    requires TrackingComplete(rows, hosted, owner, r.plans[i].ref)
    requires id in HostedAfter(hosted, r) && owner(id) == Some(r.plans[i].ref)
    ensures HostedAfter(hosted, r)[id] in r.plans[i].newObjects
  {
    var plan := r.plans[i];
    IndexedMeansHosted(rows, hosted, r, owner, i);
    PlanAt(rows, hosted, r, owner, i);
    if id in IdsOf(plan.newObjects) {
      var n :| 0 <= n < |plan.newObjects| && IdsOf(plan.newObjects)[n] == id;
      assert Reflects(HostedAfter(hosted, r), Put(plan.newObjects[n]));
    } else {
      NothingElseAppears(rows, hosted, r, owner, plan.ref, id);
      assert false;
    }
  }

  /** With complete tracking, a record that ends INDEXED hosts its new objects and nothing else. */
  lemma IndexedExactly(rows: Rows, hosted: Hosted, r: Round, owner: Owner, i: nat)
    requires Legal(rows, hosted, r, owner) && i < |r.plans| && Fates(r)[i].outcome.Indexed?
    requires TrackingComplete(rows, hosted, owner, r.plans[i].ref)
    ensures forall shard :: shard in r.plans[i].newObjects <==>
      shard.objectId in HostedAfter(hosted, r) && owner(shard.objectId) == Some(r.plans[i].ref)
      && HostedAfter(hosted, r)[shard.objectId] == shard
    ensures forall id :: id in HostedAfter(hosted, r) && owner(id) == Some(r.plans[i].ref) ==>
      HostedAfter(hosted, r)[id] in r.plans[i].newObjects
  {
    var ref, after := r.plans[i].ref, HostedAfter(hosted, r);
    forall id | id in after && owner(id) == Some(ref)
      ensures after[id] in r.plans[i].newObjects
    {
      HostedIsNew(rows, hosted, r, owner, i, id);
    }
    IndexedMeansHosted(rows, hosted, r, owner, i);
    forall shard | shard in r.plans[i].newObjects
      ensures shard.objectId in after && owner(shard.objectId) == Some(ref) && after[shard.objectId] == shard
    {
      assert Reflects(after, Put(shard));
      NewObjectsOwned(rows, hosted, r, owner, i, shard);
    }
  }

  /**
   What an INDEXED record hosts in general: the ids of its new objects, and whatever it hosted before that was neither
   tracked nor browsed, left as it was. An untracked leftover survives every run that does not generate its id again.
   */
  lemma IndexedInGeneral(rows: Rows, hosted: Hosted, r: Round, owner: Owner, i: nat, id: string)
    requires Legal(rows, hosted, r, owner) && i < |r.plans| && Fates(r)[i].outcome.Indexed?
    requires owner(id) == Some(r.plans[i].ref)
    ensures var ref, after := r.plans[i].ref, HostedAfter(hosted, r);
            && (id in after <==>
                  || id in IdsOf(r.plans[i].newObjects)
                  || (id in hosted && id !in ExistingIds(RowOrEmpty(rows, ref), ref, hosted)))
            && (id in after && id !in IdsOf(r.plans[i].newObjects) ==> after[id] == hosted[id])
  {
    var ref := r.plans[i].ref;
    PlanAt(rows, hosted, r, owner, i);
    IndexedMeansHosted(rows, hosted, r, owner, i);
    if id in IdsOf(r.plans[i].newObjects) {
      var n :| 0 <= n < |r.plans[i].newObjects| && IdsOf(r.plans[i].newObjects)[n] == id;
      assert r.plans[i].newObjects[n] in r.plans[i].newObjects;
    } else {
      NothingElseAppears(rows, hosted, r, owner, ref, id);
      if id in ExistingIds(RowOrEmpty(rows, ref), ref, hosted) {
        assert id in Elems(r.plans[i].idsToDelete);
      } else {
        LeftAlone(rows, hosted, r, owner, ref, id);
      }
    }
  }

  /** No write of the task touches an id that is neither newly generated nor known to exist. */
  lemma LeftAlone(rows: Rows, hosted: Hosted, r: Round, owner: Owner, ref: ContentRef, id: string)
    requires Legal(rows, hosted, r, owner) && owner(id) == Some(ref)
    requires id !in IdsOf(ShardsFor(r, ref)) && id !in ExistingIds(RowOrEmpty(rows, ref), ref, hosted)
    ensures SameAt(hosted, HostedAfter(hosted, r), id)
  {
    var saves := Saves(r.plans, r.chunk, r.luck.skies).writes;
    var deletes := Deletes(r.plans, r.chunk, r.luck.skies).writes;
    forall w | w in saves
      ensures w.Target() != id
    {
      var k := SavedBy(rows, hosted, r, owner, w);
      NewObjectsOwned(rows, hosted, r, owner, k, w.shard);
      IdOfMember(r.plans[k].newObjects, w.shard);
    }
    forall w | w in deletes
      ensures w.Target() != id
    {
      var k := DeletedBy(rows, hosted, r, owner, w);
      DeletedIdsOwned(rows, hosted, r, owner, k, w.id);
    }
    ApplyConcat(hosted, saves, deletes);
    UntouchedStays(hosted, saves, id);
    UntouchedStays(Apply(hosted, saves), deletes, id);
  }

  /** The record hosts exactly its new ids if and only if everything it hosted was known to exist or is new again. */
  lemma ExactIffNothingUnknown(rows: Rows, hosted: Hosted, r: Round, owner: Owner, i: nat)
    requires Legal(rows, hosted, r, owner) && i < |r.plans| && Fates(r)[i].outcome.Indexed?
    ensures var ref, ids := r.plans[i].ref, IdsOf(r.plans[i].newObjects);
            (forall id :: id in HostedAfter(hosted, r) && owner(id) == Some(ref) <==> id in ids)
            <==> forall id :: id in hosted && owner(id) == Some(ref) ==>
                   id in ExistingIds(RowOrEmpty(rows, ref), ref, hosted) || id in ids
  {
    var ref, shards := r.plans[i].ref, r.plans[i].newObjects;
    forall id | id in IdsOf(shards)
      ensures owner(id) == Some(ref)
    {
      var n :| 0 <= n < |shards| && IdsOf(shards)[n] == id;
      NewObjectsOwned(rows, hosted, r, owner, i, shards[n]);
    }
    forall id: string | owner(id) == Some(ref)
      ensures id in HostedAfter(hosted, r)
              <==> id in IdsOf(shards) || (id in hosted && id !in ExistingIds(RowOrEmpty(rows, ref), ref, hosted))
    {
      IndexedInGeneral(rows, hosted, r, owner, i, id);
    }
  }

  // ---------------------------------------------------------------- one hosted object through a task

  /** Every accepted write to the object's id writes the object itself. */
  ghost predicate Spared(r: Round, shard: Shard)
    requires r.chunk > 0
  {
    forall w | w in WritesOf(r.plans, r.chunk, r.luck.skies) && w.Target() == shard.objectId :: w == Put(shard)
  }

  /** A hosted object is still hosted as it was exactly when the accepted writes spare it. */
  lemma StaysIffSpared(rows: Rows, hosted: Hosted, r: Round, owner: Owner, shard: Shard)
    requires Legal(rows, hosted, r, owner) && Reflects(hosted, Put(shard))
    ensures Reflects(HostedAfter(hosted, r), Put(shard)) <==> Spared(r, shard)
  {
    var id := shard.objectId;
    var saves := Saves(r.plans, r.chunk, r.luck.skies).writes;
    var deletes := Deletes(r.plans, r.chunk, r.luck.skies).writes;
    var mid := Apply(hosted, saves);
    ApplyConcat(hosted, saves, deletes);
    SavedOrAsBefore(rows, hosted, r, owner, shard);
    if w :| w in deletes && w.Target() == id {
      var _ := DeletedBy(rows, hosted, r, owner, w);
      DeletesConsistent(rows, hosted, r, owner);
      ConsistentSettles(mid, deletes, w);
      assert w in WritesOf(r.plans, r.chunk, r.luck.skies);
    } else {
      UntouchedStays(mid, deletes, id);
      assert forall v :: v in saves ==> v in WritesOf(r.plans, r.chunk, r.luck.skies);
    }
  }

  lemma SavedOrAsBefore(rows: Rows, hosted: Hosted, r: Round, owner: Owner, shard: Shard)
    requires Legal(rows, hosted, r, owner) && Reflects(hosted, Put(shard))
    ensures var saves := Saves(r.plans, r.chunk, r.luck.skies).writes;
            Reflects(Apply(hosted, saves), Put(shard))
            <==> forall w | w in saves && w.Target() == shard.objectId :: w == Put(shard)
  {
    var saves := Saves(r.plans, r.chunk, r.luck.skies).writes;
    if w :| w in saves && w.Target() == shard.objectId {
      var _ := SavedBy(rows, hosted, r, owner, w);
      SavesConsistent(rows, hosted, r, owner);
      ConsistentSettles(hosted, saves, w);
    } else {
      UntouchedStays(hosted, saves, shard.objectId);
    }
  }

  /** The same by ids: what the record hosts afterwards is exactly the ids of its new objects. */
  lemma IndexedIdsExactly(rows: Rows, hosted: Hosted, r: Round, owner: Owner, i: nat)
    requires Legal(rows, hosted, r, owner) && i < |r.plans| && Fates(r)[i].outcome.Indexed?
    requires TrackingComplete(rows, hosted, owner, r.plans[i].ref)
    ensures forall id :: id in HostedAfter(hosted, r) && owner(id) == Some(r.plans[i].ref) <==>
      id in IdsOf(r.plans[i].newObjects)
  {
    var after, shards := HostedAfter(hosted, r), r.plans[i].newObjects;
    IndexedExactly(rows, hosted, r, owner, i);
    StaysWellFiled(rows, hosted, r, owner);
    forall id: string
      ensures id in after && owner(id) == Some(r.plans[i].ref) <==> id in IdsOf(shards)
    {
      if id in after && owner(id) == Some(r.plans[i].ref) {
        IdOfMember(shards, after[id]);
      }
      if id in IdsOf(shards) {
        var n :| 0 <= n < |shards| && IdsOf(shards)[n] == id;
        assert shards[n] in shards;
      }
    }
  }

  // ---------------------------------------------------------------- every intermediate state of pass 2

  /** What the index hosts once the first n writes of pass 2 were accepted. */
  function Midway(hosted: Hosted, r: Round, n: nat): Hosted
    requires r.chunk > 0 && n <= |WritesOf(r.plans, r.chunk, r.luck.skies)|
  {
    Apply(hosted, WritesOf(r.plans, r.chunk, r.luck.skies)[..n])
  }

  lemma {:induction false} PutsOnlyAdd(hosted: Hosted, ws: seq<Write>, id: string)
    requires forall w :: w in ws ==> w.Put?
    requires id in hosted
    ensures id in Apply(hosted, ws)
  {
    if ws != [] {
      var init, last := ws[..|ws| - 1], ws[|ws| - 1];
      assert last in ws && forall w :: w in init ==> w in ws;
      PutsOnlyAdd(hosted, init, id);
    }
  }

  lemma ApplyPrefix(hosted: Hosted, a: seq<Write>, b: seq<Write>, n: nat)
    requires n <= |a + b|
    ensures n <= |a| ==> Apply(hosted, (a + b)[..n]) == Apply(hosted, a[..n])
    ensures n > |a| ==> Apply(hosted, (a + b)[..n]) == Apply(Apply(hosted, a), b[..n - |a|])
  {
    PrefixOfConcat(a, b, n);
    if n > |a| {
      ApplyConcat(hosted, a, b[..n - |a|]);
    }
  }

  /** The prefix splits into saves and deletes: all saves come first. */
  lemma MidwaySplits(hosted: Hosted, r: Round, n: nat, saves: seq<Write>, deletes: seq<Write>)
    requires r.chunk > 0 && WritesOf(r.plans, r.chunk, r.luck.skies) == saves + deletes && n <= |saves + deletes|
    ensures n <= |saves| ==> Midway(hosted, r, n) == Apply(hosted, saves[..n])
    ensures n > |saves| ==> Midway(hosted, r, n) == Apply(Apply(hosted, saves), deletes[..n - |saves|])
  {
    ApplyPrefix(hosted, saves, deletes, n);
  }

  lemma SavesArePuts(rows: Rows, hosted: Hosted, r: Round, owner: Owner)
    requires Legal(rows, hosted, r, owner)
    ensures forall w :: w in Saves(r.plans, r.chunk, r.luck.skies).writes ==> w.Put?
  {
    forall w | w in Saves(r.plans, r.chunk, r.luck.skies).writes
      ensures w.Put?
    {
      var _ := SavedBy(rows, hosted, r, owner, w);
    }
  }

  /** While the deletes run, a record's id survives as long as no delete asks for it. */
  lemma SurvivesDeletes(rows: Rows, hosted: Hosted, r: Round, owner: Owner, id: string, n: nat)
    requires Legal(rows, hosted, r, owner) && id in hosted
    requires n <= |WritesOf(r.plans, r.chunk, r.luck.skies)|
    requires id !in Targets(Deletes(r.plans, r.chunk, r.luck.skies).writes)
    ensures id in Midway(hosted, r, n)
  {
    var saves, deletes := Saves(r.plans, r.chunk, r.luck.skies).writes, Deletes(r.plans, r.chunk, r.luck.skies).writes;
    MidwaySplits(hosted, r, n, saves, deletes);
    SavesArePuts(rows, hosted, r, owner);
    if n <= |saves| {
      PutsOnlyAdd(hosted, saves[..n], id);
    } else {
      PutsOnlyAdd(hosted, saves, id);
      UntouchedStays(Apply(hosted, saves), deletes[..n - |saves|], id);
    }
  }

  ghost predicate HostsSomething(hosted: Hosted, owner: Owner, ref: ContentRef) {
    exists id :: id in hosted && owner(id) == Some(ref)
  }

  /** At no moment of pass 2, whatever fails, does a hosted record that is to be indexed drop out of the index. */
  lemma NeverBare(rows: Rows, hosted: Hosted, r: Round, owner: Owner, i: nat, n: nat)
    requires Legal(rows, hosted, r, owner) && i < |r.plans| && r.plans[i].desired.Indexed?
    requires HostsSomething(hosted, owner, r.plans[i].ref)
    requires n <= |WritesOf(r.plans, r.chunk, r.luck.skies)|
    ensures HostsSomething(Midway(hosted, r, n), owner, r.plans[i].ref)
  {
    var ref := r.plans[i].ref;
    var saves, deletes := Saves(r.plans, r.chunk, r.luck.skies), Deletes(r.plans, r.chunk, r.luck.skies).writes;
    var id :| id in hosted && owner(id) == Some(ref);
    MidwaySplits(hosted, r, n, saves.writes, deletes);
    if id !in Targets(deletes) {
      SurvivesDeletes(rows, hosted, r, owner, id, n);
    } else if n <= |saves.writes| {
      SavesArePuts(rows, hosted, r, owner);
      PutsOnlyAdd(hosted, saves.writes[..n], id);
    } else {
      var w :| w in deletes && w.Target() == id;
      var k := DeletedBy(rows, hosted, r, owner, w);
      TwinsAgree(rows, hosted, r, owner, i, k);
      PlanAt(rows, hosted, r, owner, k);
      SavedObjectStays(rows, hosted, r, owner, k, n);
    }
  }

  /** Once its saves went through, a record's first new object is hosted at every later moment. */
  lemma SavedObjectStays(rows: Rows, hosted: Hosted, r: Round, owner: Owner, k: nat, n: nat)
    requires Legal(rows, hosted, r, owner) && k < |r.plans| && r.plans[k].newObjects != []
    requires Saves(r.plans, r.chunk, r.luck.skies).ok[k]
    requires |Saves(r.plans, r.chunk, r.luck.skies).writes| < n <= |WritesOf(r.plans, r.chunk, r.luck.skies)|
    ensures HostsSomething(Midway(hosted, r, n), owner, r.plans[k].ref)
  {
    var shard := r.plans[k].newObjects[0];
    NewObjectsOwned(rows, hosted, r, owner, k, shard);
    SavedIsHosted(rows, hosted, r, owner, k, shard);
    DeletesSpareNewObjects(rows, hosted, r, owner, k, shard);
    StaysThroughDeletes(hosted, r, n, shard.objectId);
  }

  lemma StaysThroughDeletes(hosted: Hosted, r: Round, n: nat, id: string)
    requires r.chunk > 0
    requires |Saves(r.plans, r.chunk, r.luck.skies).writes| < n <= |WritesOf(r.plans, r.chunk, r.luck.skies)|
    requires id in Apply(hosted, Saves(r.plans, r.chunk, r.luck.skies).writes)
    requires id !in Targets(Deletes(r.plans, r.chunk, r.luck.skies).writes)
    ensures id in Midway(hosted, r, n)
  {
    var saves, deletes := Saves(r.plans, r.chunk, r.luck.skies).writes, Deletes(r.plans, r.chunk, r.luck.skies).writes;
    MidwaySplits(hosted, r, n, saves, deletes);
    StaysThroughPrefix(Apply(hosted, saves), deletes, n - |saves|, id);
  }

  lemma StaysThroughPrefix(hosted: Hosted, ws: seq<Write>, n: nat, id: string)
    requires id in hosted && id !in Targets(ws) && n <= |ws|
    ensures id in Apply(hosted, ws[..n])
  {
    assert forall w :: w in ws[..n] ==> w in ws;
    UntouchedStays(hosted, ws[..n], id);
  }

  /** A record all of whose saves failed keeps every id it hosted, at every moment. */
  lemma FailedSaveLosesNothing(rows: Rows, hosted: Hosted, r: Round, owner: Owner, i: nat, n: nat, id: string)
    requires Legal(rows, hosted, r, owner) && i < |r.plans| && r.plans[i].desired.Indexed?
    requires forall k | 0 <= k < |r.plans| && r.plans[k].ref == r.plans[i].ref && r.plans[k].desired.Indexed? ::
               !Saves(r.plans, r.chunk, r.luck.skies).ok[k]
    requires n <= |WritesOf(r.plans, r.chunk, r.luck.skies)|
    requires id in hosted && owner(id) == Some(r.plans[i].ref)
    ensures id in Midway(hosted, r, n)
  {
    var deletes := Deletes(r.plans, r.chunk, r.luck.skies).writes;
    forall w | w in deletes
      ensures w.Target() != id
    {
      var k := DeletedBy(rows, hosted, r, owner, w);
      if r.plans[k].ref == r.plans[i].ref {
        TwinsAgree(rows, hosted, r, owner, i, k);
        assert false;
      }
    }
    SurvivesDeletes(rows, hosted, r, owner, id, n);
  }
}
