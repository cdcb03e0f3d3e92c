/**
 A leftover that outlives a success: a course indexed with one object is to get a second one, the call that saves both
 is accepted but raises and its retry is refused, so the run ends FAILED with the second object hosted and not tracked;
 the next run generates the first object alone and ends INDEXED.
 */
module Leftover {
  import opened Prelude
  import opened SearchIndex
  import opened IndexingStates
  import opened BatchIndexer
  import opened BatchEffects
  import opened IndexingRuns
  import opened FirstBatch

  function SecondObject(body: Body): Shard {
    Object(body).(objectId := SECOND_ID)
  }

  /** The bulk save raises after it was accepted, and the retry is refused. */
  function BadLuck(): Luck {
    GoodLuck().(skies := Skies(_ => AcceptedThenRaised, _ => _ => Refused, _ => Accepted, _ => _ => Accepted),
                clock := _ => 10)
  }

  /** The edited course now has two objects. */
  function GrowingRound(body: Body): Round {
    var shards := [Object(body), SecondObject(body)];
    Round(SecondTask(body).(generated := map[REF.key := shards]),
          [Plan(REF, Indexed, true, true, shards, [], None)], BadLuck(), 1000)
  }

  /** And then one again. */
  function ShrunkRound(body: Body): Round {
    TheRound(body).(task := SecondTask(body), luck := GoodLuck().(clock := _ => 11))
  }

  function Torn(body: Body): System {
    After(Edited(body), Batch(GrowingRound(body)))
  }

  lemma GrowingIsPossible(body: Body)
    ensures Sound(Edited(body), TheOwner()) && Possible(Edited(body), Batch(GrowingRound(body)), TheOwner())
  {
    EditedSystem(body);
    var r, s := GrowingRound(body), Edited(body);
    assert RefAt(r.task, 0) == REF;
    assert Elems(r.plans[0].idsToDelete) == {} == Elems([OBJECT_ID]) - Elems(IdsOf(r.plans[0].newObjects)) by {
      assert IdsOf(r.plans[0].newObjects)[0] == OBJECT_ID;
    }
    assert PlanFits(r.plans[0], REF, SightOf(r.task, s.book.rows, REF), r.luck.lookups(0), s.hosted);
    GrowingIsWellGenerated(body);
  }

  lemma GrowingIsWellGenerated(body: Body)
    ensures WellGenerated(GrowingRound(body), TheOwner())
  {
    var r := GrowingRound(body);
    forall key, shard | key in r.task.generated && shard in r.task.generated[key]
      ensures key == REF.key && (shard == Object(body) || shard == SecondObject(body))
    {
    }
  }

  /** Both objects go in, and the record fails all the same. */
  lemma GrowingFails(body: Body)
    ensures var r := GrowingRound(body);
            && Saves(r.plans, 1000, r.luck.skies).writes == [Put(Object(body)), Put(SecondObject(body))]
            && Fates(r)[0] == Fate(Failed, Some(SaveRaised))
  {
    var r := GrowingRound(body);
    var jobs := SaveJobs(r.plans);
    assert Flatten(jobs) == Flatten(jobs[..0]) + jobs[0];
    assert jobs[0] == [Put(Object(body)), Put(SecondObject(body))];
    assert Deliver(2, 1000, r.luck.skies.saveBulk, 0, 0) == Delivery(2, false);
    assert Deliver(2, 1000, r.luck.skies.saveRecord(0), 0, 0) == Delivery(0, false);
    assert Attempts(jobs, 1000, r.luck.skies.saveRecord, 0) == Effect([], [false]);
    assert FatesAfterSaves(r.plans, 1000, r.luck.skies)[0] == Fate(Failed, Some(SaveRaised));
    var drops := DeleteJobs(r.plans, FatesAfterSaves(r.plans, 1000, r.luck.skies));
    assert Flatten(drops) == Flatten(drops[..0]) + drops[0] == [];
    assert Deletes(r.plans, 1000, r.luck.skies) == Effect([], [true]);
  }

  /** After the failed run the second object is hosted and on account, while the row tracks the first one only. */
  lemma TornSystem(body: Body)
    ensures var s := Torn(body);
            && Sound(s, TheOwner()) && s.contents == map[REF := 9]
            && SECOND_ID in s.hosted && SECOND_ID in StrayOf(s.book, REF)
            && REF in s.book.rows && s.book.rows[REF].objectIds == [OBJECT_ID] && s.book.rows[REF].lastFailureAt.Some?
  {
    var r, s := GrowingRound(body), Edited(body);
    EditedSystem(body);
    GrowingIsPossible(body);
    GrowingFails(body);
    StepKeepsSound(s, Batch(r), TheOwner());
    assert r.plans[0].newObjects[1] == SecondObject(body) && IdsOf(r.plans[0].newObjects)[1] == SECOND_ID;
    assert Put(SecondObject(body)) in Saves(r.plans, 1000, r.luck.skies).writes;
    assert SECOND_ID in Saved(r);
    AcceptedIsHosted(s.book.rows, s.hosted, r, TheOwner(), 0, SECOND_ID);
    assert LeftBehind(r, REF, SECOND_ID, 0);
    LeftoversWereWritten(s.book, r, REF, SECOND_ID);
    FailureIsStamped(body);
  }

  lemma FailureIsStamped(body: Body)
    ensures var rows := Torn(body).book.rows;
            REF in rows && rows[REF] == StampFailed(StampIndexed(EMPTY_ROW, [OBJECT_ID], 7), SaveRaised, 10)
  {
    var r, rows := GrowingRound(body), Edited(body).book.rows;
    EditedSystem(body);
    GrowingFails(body);
    BookAfterRows(Edited(body).book, r);
    assert RowsFromPass1(rows, r.task, r.luck, 0) == RowsFromPass1(rows, r.task, r.luck, 1) == rows;
    var after := Finalize(rows, r.plans[0], Fates(r)[0], 10, NoStampFault).rows;
    assert FinalizeFrom(rows, r.plans, Fates(r), r.luck.clock, r.luck.stamps, 0)
        == FinalizeFrom(after, r.plans, Fates(r), r.luck.clock, r.luck.stamps, 1) == after;
  }

  /** Whatever else the system is like, as long as the row tracks the first object and has failed. */
  lemma ShrunkIsPossible(s: System, body: Body)
    requires s.contents == map[REF := 9] && REF in s.book.rows
    requires s.book.rows[REF].objectIds == [OBJECT_ID] && s.book.rows[REF].lastFailureAt.Some?
    ensures Possible(s, Batch(ShrunkRound(body)), TheOwner())
  {
    var r := ShrunkRound(body);
    TheRoundIsPossible(body);
    assert RefAt(r.task, 0) == REF;
    assert IdsOf([Object(body)]) == [OBJECT_ID];
    assert Elems(r.plans[0].idsToDelete) == {} == Elems([OBJECT_ID]) - Elems(IdsOf([Object(body)]));
    assert PlanFits(r.plans[0], REF, SightOf(r.task, s.book.rows, REF), r.luck.lookups(0), s.hosted);
  }

  /** The record ends INDEXED, and hosts an object that is not among its new ones. */
  lemma ALeftoverOutlivesSuccess(body: Body)
    ensures var s, r := Torn(body), ShrunkRound(body);
            && Sound(s, TheOwner()) && Possible(s, Batch(r), TheOwner()) && Fates(r)[0].outcome.Indexed?
            && TheOwner()(SECOND_ID) == Some(r.plans[0].ref)
            && SECOND_ID in HostedAfter(s.hosted, r) && SECOND_ID !in IdsOf(r.plans[0].newObjects)
  {
    TornSystem(body);
    ShrunkIsPossible(Torn(body), body);
    TheFateIsIndexed(body);
    IndexedInGeneral(Torn(body).book.rows, Torn(body).hosted, ShrunkRound(body), TheOwner(), 0, SECOND_ID);
  }
}
