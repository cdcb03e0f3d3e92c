/**
 The smallest runs there are: one course, never indexed before, whose only object is accepted; and the same course
 edited and indexed again, with the second stamp raising.
 */
module FirstBatch {
  import opened Prelude
  import opened ObjectIds
  import opened ContentRefs
  import opened SearchIndex
  import opened IndexingStates
  import opened BatchIndexer
  import opened BatchEffects
  import opened IndexingRuns
  import opened RaisedStamps
  import opened Redispatch

  const REF := ContentRef(Course, "edX+DemoX")

  const OBJECT_ID := "course-0"

  const SECOND_ID := "course-1"

  function Object(body: Body): Shard {
    Shard(OBJECT_ID, AggregationKeyFor(REF), body, CatalogFacet([]))
  }

  function TheOwner(): Owner {
    id => if id == OBJECT_ID || id == SECOND_ID then Some(REF) else None
  }

  function Before(): System {
    System(map[], Book(map[], map[], {}, map[]), map[REF := 5])
  }

  function TheTask(body: Body): Task {
    Task(Course, [REF.key], false, map[REF := 5], map[REF.key := [Object(body)]], {REF.key})
  }

  /** Everything goes well, and the row is stamped after the record was last modified. */
  function GoodLuck(): Luck {
    Luck(_ => NoReadFault, Skies(_ => Accepted, _ => _ => Accepted, _ => Accepted, _ => _ => Accepted), _ => 7,
      _ => NoStampFault)
  }

  function TheRound(body: Body): Round {
    Round(TheTask(body), [Plan(REF, Indexed, true, true, [Object(body)], [], None)], GoodLuck(), 1000)
  }

  lemma NothingHosted(key: string)
    ensures FiledUnder(map[], key) == {}
  {
  }

  /** The hypotheses of the theorems about runs can be met. */
  lemma TheRoundIsPossible(body: Body)
    ensures Sound(Before(), TheOwner()) && Possible(Before(), Batch(TheRound(body)), TheOwner())
  {
    SoundAtDeployment(map[], map[REF := 5], TheOwner());
    var r := TheRound(body);
    NothingHosted(AggregationKeyFor(REF));
    assert RefAt(r.task, 0) == REF;
    assert Elems(r.plans[0].idsToDelete) == {};
    assert ExistingIds(EMPTY_ROW, REF, map[]) == {};
    assert PlanFits(r.plans[0], REF, SightOf(r.task, map[], REF), r.luck.lookups(0), map[]);
    assert WellGenerated(r, TheOwner()) by {
      forall ref: ContentRef
        ensures AggregationKeyFor(REF) == AggregationKeyFor(ref) <==> ref == REF
      {
        AggregationKeyInjective(REF, ref);
      }
    }
  }

  lemma TheFateIsIndexed(body: Body)
    ensures Fates(TheRound(body)) == [Fate(Indexed, None)]
    ensures WritesOf(TheRound(body).plans, 1000, GoodLuck().skies) == [Put(Object(body))]
  {
    var r := TheRound(body);
    var jobs := SaveJobs(r.plans);
    assert Flatten(jobs) == Flatten(jobs[..0]) + jobs[0];
    DeliveredIffAllAccepted(|Flatten(jobs)|, 1000, r.luck.skies.saveBulk, 0, 0);
    assert Saves(r.plans, 1000, r.luck.skies).ok == [true];
    assert FatesAfterSaves(r.plans, 1000, r.luck.skies) == [Fate(Indexed, None)];
    var drops := DeleteJobs(r.plans, FatesAfterSaves(r.plans, 1000, r.luck.skies));
    assert Flatten(drops) == Flatten(drops[..0]) + drops[0];
    DeliveredIffAllAccepted(|Flatten(drops)|, 1000, r.luck.skies.deleteBulk, 0, 0);
    assert Deletes(r.plans, 1000, r.luck.skies).ok == [true];
  }

  /** And so can those about failure-free rounds; the course is due before the round and not after it. */
  lemma TheRoundIsCalm(body: Body)
    ensures Calm(TheRound(body), Before().contents)
    ensures Possible(Before(), Batch(TheRound(body)), TheOwner())
    ensures CourseDue(Before().book.rows, Before().contents, REF.key)
    ensures !CourseDue(After(Before(), Batch(TheRound(body))).book.rows, Before().contents, REF.key)
  {
    TheRoundIsPossible(body);
    TheFateIsIndexed(body);
    assert RefAt(TheTask(body), 0) == REF;
    StillDueIffNoShards(Before(), TheRound(body), TheOwner(), 0);
  }

  // ---------------------------------------------------------------- and once more, with a stamp that raises

  /** The course was indexed at 7 and edited at 9. */
  function Edited(body: Body): System {
    After(After(Before(), Batch(TheRound(body))), Edit(map[REF := 9]))
  }

  function SecondTask(body: Body): Task {
    TheTask(body).(contents := map[REF := 9])
  }

  function SecondRound(body: Body): Round {
    TheRound(body).(task := SecondTask(body), luck := GoodLuck().(stamps := _ => SaveRaises))
  }

  lemma EditedSystem(body: Body)
    ensures Edited(body) == System(map[OBJECT_ID := Object(body)],
                                   Book(map[REF := StampIndexed(EMPTY_ROW, [OBJECT_ID], 7)],
                                        map[REF := [Object(body)]], {}, map[]),
                                   map[REF := 9])
    ensures Sound(Edited(body), TheOwner())
  {
    var r := TheRound(body);
    TheRoundIsPossible(body);
    TheFateIsIndexed(body);
    StepKeepsSound(Before(), Batch(r), TheOwner());
    StepKeepsSound(After(Before(), Batch(r)), Edit(map[REF := 9]), TheOwner());
    assert Apply(map[], [Put(Object(body))][..0]) == map[];
    assert HostedAfter(map[], r) == map[OBJECT_ID := Object(body)];
    assert RowsFromPass1(map[], r.task, r.luck, 0) == RowsFromPass1(map[REF := EMPTY_ROW], r.task, r.luck, 1);
    var book := Book(map[REF := EMPTY_ROW], map[], {}, map[]);
    var noted := NoteOne(book, r, 0);
    assert BookAfter(Before().book, r) == NoteFrom(noted, r, 1);
    assert IdsOf(r.plans[0].newObjects) == [OBJECT_ID];
    assert noted.rows == map[REF := StampIndexed(EMPTY_ROW, [OBJECT_ID], 7)];
  }

  lemma SecondRoundIsPossible(was: Body, body: Body)
    ensures Sound(Edited(was), TheOwner()) && Possible(Edited(was), Batch(SecondRound(body)), TheOwner())
  {
    EditedSystem(was);
    TheRoundIsPossible(body);
    var r, s := SecondRound(body), Edited(was);
    assert RefAt(r.task, 0) == REF;
    assert IdsOf([Object(body)]) == [OBJECT_ID];
    assert Elems(r.plans[0].idsToDelete) == {} == Elems([OBJECT_ID]) - Elems(IdsOf([Object(body)]));
    assert PlanFits(r.plans[0], REF, SightOf(r.task, s.book.rows, REF), r.luck.lookups(0), s.hosted);
  }

  /**
   A clean row that misleads: the edited course is indexed again under the id it had, the stamp raises, and the row
   still vouches for the object of the first run, which the index no longer hosts.
   */
  lemma ACleanRowMisleads(was: Body, body: Body)
    requires was != body
    ensures Sound(Edited(was), TheOwner()) && Possible(Edited(was), Batch(SecondRound(body)), TheOwner())
    ensures var after := After(Edited(was), Batch(SecondRound(body)));
            REF in after.book.rows && Clean(after.book.rows[REF]) && !TellsTruth(after, REF)
  {
    var r := SecondRound(body);
    SecondRoundIsPossible(was, body);
    EditedSystem(was);
    TheFateIsIndexed(body);
    RaisedStampsKeepRow(Edited(was), r, TheOwner(), REF);
    RaisedIndexed(Edited(was), r, TheOwner(), 0);
    assert Object(was) in Edited(was).book.written[REF] && Object(was) !in r.plans[0].newObjects;
  }
}
