/** Whole histories: any sequence of content edits and batch tasks, with every failure the task can meet. */
module IndexingRuns {
  import opened Prelude
  import opened ContentRefs
  import opened SearchIndex
  import opened IndexingStates
  import opened BatchIndexer
  import opened BatchEffects
  import opened BatchOutcomes

  /**
   The rows together with three facts about their past: the objects of each record's last INDEXED run, the
   records whose last stamp since then raised, and the ids the index accepted from runs that did not end INDEXED.
   */
  datatype Book = Book(
    rows: Rows,
    written: map<ContentRef, seq<Shard>>,
    torn: set<ContentRef>,
    stray: map<ContentRef, set<string>>)

  datatype System = System(hosted: Hosted, book: Book, contents: map<ContentRef, int>)

  datatype Step = Edit(contents: map<ContentRef, int>) | Batch(round: Round)

  function StrayOf(book: Book, ref: ContentRef): set<string> {
    if ref in book.stray then book.stray[ref] else {}
  }

  // ---------------------------------------------------------------- one step

  /** The ids of all the objects the index accepted during the round. */
  function Saved(r: Round): set<string>
    requires r.chunk > 0
  {
    Targets(Saves(r.plans, r.chunk, r.luck.skies).writes)
  }

  /** One record's pass 3, with the record of the past kept alongside; `saved` are the ids accepted in pass 2. */
  function Note(book: Book, plan: Plan, fate: Fate, saved: set<string>, at: int, fault: StampFault): Book {
    var ref := plan.ref;
    var rows := Finalize(book.rows, plan, fate, at, fault).rows;
    var raised := StampRaises(plan, fate, fault);
    if fate.outcome.Indexed? && !raised then
      Book(rows, book.written[ref := plan.newObjects], book.torn - {ref}, book.stray)
    else
      Book(rows, book.written,
           if raised then book.torn + {ref} else book.torn,
           book.stray[ref := StrayOf(book, ref) + Elems(IdsOf(plan.newObjects)) * saved])
  }

  function NoteOne(book: Book, r: Round, i: nat): Book
    requires r.chunk > 0 && i < |r.plans|
  {
    Note(book, r.plans[i], Fates(r)[i], Saved(r), r.luck.clock(i), r.luck.stamps(i))
  }

  /** Pass 3 from record i on. */
  function NoteFrom(book: Book, r: Round, i: nat): Book
    requires r.chunk > 0 && i <= |r.plans|
    decreases |r.plans| - i
  {
    if i == |r.plans| then book else NoteFrom(NoteOne(book, r, i), r, i + 1)
  }

  function BookAfter(book: Book, r: Round): Book
    requires r.chunk > 0 && |r.plans| == |r.task.keys|
  {
    NoteFrom(book.(rows := RowsFromPass1(book.rows, r.task, r.luck, 0)), r, 0)
  }

  /** The rows in the book are the rows the task leaves behind. */
  lemma {:induction false} NoteFromRows(book: Book, r: Round, i: nat)
    requires r.chunk > 0 && i <= |r.plans|
    ensures NoteFrom(book, r, i).rows == FinalizeFrom(book.rows, r.plans, Fates(r), r.luck.clock, r.luck.stamps, i)
    decreases |r.plans| - i
  {
    if i < |r.plans| {
      NoteFromRows(NoteOne(book, r, i), r, i + 1);
    }
  }

  lemma BookAfterRows(book: Book, r: Round)
    requires r.chunk > 0 && |r.plans| == |r.task.keys|
    ensures BookAfter(book, r).rows == RowsAfterTask(book.rows, r.task, r.plans, r.chunk, r.luck)
  {
    NoteFromRows(book.(rows := RowsFromPass1(book.rows, r.task, r.luck, 0)), r, 0);
  }

  /** The rows of records that still exist: deleting content deletes its row. */
  function Surviving(rows: Rows, contents: map<ContentRef, int>): Rows {
    map ref | ref in rows && ref in contents :: rows[ref]
  }

  ghost predicate Possible(s: System, step: Step, owner: Owner) {
    match step
    case Edit(_) => true
    case Batch(r) =>
      && r.chunk > 0
      && r.task.contents == s.contents
      && PlansFit(r.plans, r.task, s.book.rows, s.hosted, r.luck)
      && WellGenerated(r, owner)
  }

  function After(s: System, step: Step): System
    requires step.Batch? ==> step.round.chunk > 0 && |step.round.plans| == |step.round.task.keys|
  {
    match step
    case Edit(contents) => System(s.hosted, s.book.(rows := Surviving(s.book.rows, contents)), contents)
    case Batch(r) => System(HostedAfter(s.hosted, r), BookAfter(s.book, r), s.contents)
  }

  /** An edit deletes the rows of content that is gone and touches nothing else. */
  lemma EditExactly(s: System, contents: map<ContentRef, int>, ref: ContentRef)
    ensures var after := After(s, Edit(contents));
            && after.contents == contents && after.hosted == s.hosted
            && (ref in after.book.rows <==> ref in s.book.rows && ref in contents)
            && (ref in after.book.rows ==> after.book.rows[ref] == s.book.rows[ref])
            && after.book.written == s.book.written && after.book.torn == s.book.torn
            && after.book.stray == s.book.stray
  {
  }

  // ---------------------------------------------------------------- what the book remembers

  /** Plan j stamped the record INDEXED. */
  ghost predicate Succeeds(r: Round, ref: ContentRef, j: nat)
    requires r.chunk > 0 && j < |r.plans|
  {
    r.plans[j].ref == ref && Fates(r)[j].outcome.Indexed? && !StampRaises(r.plans[j], Fates(r)[j], r.luck.stamps(j))
  }

  ghost predicate Raises(r: Round, ref: ContentRef, j: nat)
    requires r.chunk > 0 && j < |r.plans|
  {
    r.plans[j].ref == ref && StampRaises(r.plans[j], Fates(r)[j], r.luck.stamps(j))
  }

  ghost predicate NoSuccessFrom(r: Round, ref: ContentRef, i: nat)
    requires r.chunk > 0
  {
    forall j | i <= j < |r.plans| :: !Succeeds(r, ref, j)
  }

  /** A stamp raised, and no later one made the record INDEXED. */
  ghost predicate RaisedLast(r: Round, ref: ContentRef, i: nat)
    requires r.chunk > 0
  {
    exists j | i <= j < |r.plans| :: Raises(r, ref, j) && NoSuccessFrom(r, ref, j + 1)
  }

  ghost predicate SucceededLast(r: Round, ref: ContentRef, i: nat, shards: seq<Shard>)
    requires r.chunk > 0
  {
    exists j | i <= j < |r.plans| ::
      Succeeds(r, ref, j) && NoSuccessFrom(r, ref, j + 1) && r.plans[j].newObjects == shards
  }

  /** What one stamp does to the memory of a record. */
  lemma RememberedOne(book: Book, r: Round, ref: ContentRef, i: nat)
    requires r.chunk > 0 && i < |r.plans|
    ensures var next := NoteOne(book, r, i);
            && (ref in next.torn <==> Raises(r, ref, i) || (ref in book.torn && !Succeeds(r, ref, i)))
            && (Succeeds(r, ref, i) ==> ref in next.written && next.written[ref] == r.plans[i].newObjects)
            && (!Succeeds(r, ref, i) ==> (ref in next.written <==> ref in book.written)
                                         && (ref in book.written ==> next.written[ref] == book.written[ref]))
  {
  }

  lemma SuccessSplit(r: Round, ref: ContentRef, i: nat)
    requires r.chunk > 0 && i < |r.plans|
    ensures NoSuccessFrom(r, ref, i) <==> !Succeeds(r, ref, i) && NoSuccessFrom(r, ref, i + 1)
    ensures RaisedLast(r, ref, i)
            <==> (Raises(r, ref, i) && NoSuccessFrom(r, ref, i + 1)) || RaisedLast(r, ref, i + 1)
    ensures forall shards :: SucceededLast(r, ref, i, shards)
              <==> (Succeeds(r, ref, i) && NoSuccessFrom(r, ref, i + 1) && r.plans[i].newObjects == shards)
                   || SucceededLast(r, ref, i + 1, shards)
  {
  }

  lemma TornNext(book: Book, r: Round, ref: ContentRef, i: nat)
    requires r.chunk > 0 && i < |r.plans|
    ensures RaisedLast(r, ref, i) || (ref in book.torn && NoSuccessFrom(r, ref, i))
            <==> RaisedLast(r, ref, i + 1) || (ref in NoteOne(book, r, i).torn && NoSuccessFrom(r, ref, i + 1))
  {
    RememberedOne(book, r, ref, i);
    SuccessSplit(r, ref, i);
  }

  lemma {:induction false} TornFrom(book: Book, r: Round, ref: ContentRef, i: nat)
    requires r.chunk > 0 && i <= |r.plans|
    ensures ref in NoteFrom(book, r, i).torn
            <==> RaisedLast(r, ref, i) || (ref in book.torn && NoSuccessFrom(r, ref, i))
    decreases |r.plans| - i
  {
    if i < |r.plans| {
      TornNext(book, r, ref, i);
      TornFrom(NoteOne(book, r, i), r, ref, i + 1);
    }
  }

  /** As in `before`, or as the last success from plan i on left it. */
  ghost predicate WrittenAs(before: Book, after: Book, r: Round, ref: ContentRef, i: nat)
    requires r.chunk > 0
  {
    if NoSuccessFrom(r, ref, i) then
      && (ref in after.written <==> ref in before.written)
      && (ref in before.written ==> after.written[ref] == before.written[ref])
    else
      ref in after.written && SucceededLast(r, ref, i, after.written[ref])
  }

  lemma WrittenNext(before: Book, after: Book, r: Round, ref: ContentRef, i: nat)
    requires r.chunk > 0 && i < |r.plans| && WrittenAs(NoteOne(before, r, i), after, r, ref, i + 1)
    ensures WrittenAs(before, after, r, ref, i)
  {
    RememberedOne(before, r, ref, i);
    SuccessSplit(r, ref, i);
  }

  lemma {:induction false} WrittenFrom(book: Book, r: Round, ref: ContentRef, i: nat)
    requires r.chunk > 0 && i <= |r.plans|
    ensures WrittenAs(book, NoteFrom(book, r, i), r, ref, i)
    decreases |r.plans| - i
  {
    if i < |r.plans| {
      WrittenFrom(NoteOne(book, r, i), r, ref, i + 1);
      WrittenNext(book, NoteFrom(book, r, i), r, ref, i);
    }
  }

  /**
   After a batch a record is marked as torn exactly when a stamp of it raised, now or before, and it has not been
   stamped INDEXED since; what is remembered of it as written is what the last stamp that made it INDEXED wrote.
   */
  lemma RememberedExactly(book: Book, r: Round, ref: ContentRef)
    requires r.chunk > 0 && |r.plans| == |r.task.keys|
    ensures ref in BookAfter(book, r).torn
            <==> RaisedLast(r, ref, 0) || (ref in book.torn && NoSuccessFrom(r, ref, 0))
    ensures WrittenAs(book, BookAfter(book, r), r, ref, 0)
  {
    var start := book.(rows := RowsFromPass1(book.rows, r.task, r.luck, 0));
    TornFrom(start, r, ref, 0);
    WrittenFrom(start, r, ref, 0);
  }

  // ---------------------------------------------------------------- the invariant

  /** The row's tracked ids are those of its last INDEXED run, and that run's objects are hosted as it wrote them. */
  ghost predicate TellsTruth(s: System, ref: ContentRef) {
    var book := s.book;
    && ref in book.rows && ref in book.written
    && book.rows[ref].objectIds == IdsOf(book.written[ref])
    && forall shard :: shard in book.written[ref] ==> Reflects(s.hosted, Put(shard))
  }

  /** A clean row tells the truth. Rows whose stamping raised since their last INDEXED run are exempt. */
  ghost predicate CleanRowHosted(s: System, ref: ContentRef) {
    ref in s.book.rows && Clean(s.book.rows[ref]) && ref !in s.book.torn ==> TellsTruth(s, ref)
  }

  /** A row that tracks anything accounts for everything hosted for its record, save what unsuccessful runs wrote. */
  ghost predicate HostedAccountedFor(s: System, owner: Owner, ref: ContentRef) {
    var book := s.book;
    ref in book.rows && book.rows[ref].objectIds != [] ==>
      forall id :: id in s.hosted && owner(id) == Some(ref) ==>
        id in book.rows[ref].objectIds || id in StrayOf(book, ref)
  }

  ghost predicate Sound(s: System, owner: Owner) {
    && WellFiled(s.hosted, owner)
    && WellTracked(s.book.rows, owner)
    && (forall ref :: CleanRowHosted(s, ref))
    && (forall ref :: HostedAccountedFor(s, owner, ref))
  }

  /** A deployment that starts with no rows, over an index filled by earlier full reindexes, is sound. */
  lemma SoundAtDeployment(hosted: Hosted, contents: map<ContentRef, int>, owner: Owner)
    requires WellFiled(hosted, owner)
    ensures Sound(System(hosted, Book(map[], map[], {}, map[]), contents), owner)
  {
  }

  // ---------------------------------------------------------------- following one record through pass 3

  /** Plan j stamped its record INDEXED, and the record's ids and noted objects are still the ones it wrote. */
  ghost predicate SetBy(book: Book, r: Round, ref: ContentRef, j: nat)
    requires r.chunk > 0
  {
    && j < |r.plans| && r.plans[j].ref == ref && Fates(r)[j].outcome.Indexed?
    && ref in book.rows && book.rows[ref].objectIds == IdsOf(r.plans[j].newObjects)
    && ref in book.written && book.written[ref] == r.plans[j].newObjects
  }

  ghost predicate SetBySome(book: Book, r: Round, ref: ContentRef, upTo: nat)
    requires r.chunk > 0
  {
    exists j :: 0 <= j < upTo && SetBy(book, r, ref, j)
  }

  ghost predicate UntouchedSoFar(r: Round, ref: ContentRef, upTo: nat)
    requires r.chunk > 0 && upTo <= |r.plans|
  {
    forall j :: 0 <= j < upTo && r.plans[j].ref == ref ==> Fates(r)[j].outcome.Skipped? || !r.plans[j].hasContent
  }

  ghost predicate StraysNoted(book: Book, r: Round, ref: ContentRef, upTo: nat)
    requires r.chunk > 0 && upTo <= |r.plans|
  {
    forall j :: 0 <= j < upTo && r.plans[j].ref == ref && r.plans[j].desired.Indexed? ==>
      Elems(IdsOf(r.plans[j].newObjects)) * Saved(r) <= StrayOf(book, ref)
  }

  /** No stamp of the round has set the record's ids yet. */
  ghost predicate NotYetSet(start: Book, book: Book, r: Round, ref: ContentRef, upTo: nat)
    requires r.chunk > 0 && upTo <= |r.plans|
  {
    var row, before := RowOrEmpty(book.rows, ref), RowOrEmpty(start.rows, ref);
    && row.objectIds == before.objectIds
    && (ref in start.written <==> ref in book.written)
    && (ref in start.written ==> book.written[ref] == start.written[ref])
    && StraysNoted(book, r, ref, upTo)
    && (Clean(row) && ref !in book.torn ==> UntouchedSoFar(r, ref, upTo) && row == before && ref !in start.torn)
  }

  /** What is known of one record after the first i stamps of a round that began with `start`. */
  ghost predicate Followed(start: Book, book: Book, r: Round, ref: ContentRef, i: nat)
    requires r.chunk > 0 && i <= |r.plans|
  {
    && StrayOf(start, ref) <= StrayOf(book, ref)
    && (SetBySome(book, r, ref, i) || NotYetSet(start, book, r, ref, i))
  }

  ghost predicate FatesPossible(r: Round)
    requires r.chunk > 0
  {
    forall i :: 0 <= i < |r.plans| ==>
      && (Fates(r)[i].outcome.Failed? || Fates(r)[i].outcome == r.plans[i].desired)
      && (Fates(r)[i].outcome.Indexed? || Fates(r)[i].outcome.Removed? ==> r.plans[i].hasContent)
  }

  /** A stamp leaves every other record's part of the book alone. */
  lemma NoteSparesOthers(
    book: Book, plan: Plan, fate: Fate, saved: set<string>, at: int, fault: StampFault, ref: ContentRef)
    requires ref != plan.ref
    ensures var next := Note(book, plan, fate, saved, at, fault);
            && RowOrEmpty(next.rows, ref) == RowOrEmpty(book.rows, ref)
            && (ref in next.rows <==> ref in book.rows)
            && (ref in next.written <==> ref in book.written)
            && (ref in book.written ==> next.written[ref] == book.written[ref])
            && (ref in next.torn <==> ref in book.torn)
            && StrayOf(next, ref) == StrayOf(book, ref)
  {
  }

  /**
   A stamp that does not make its record INDEXED keeps the ids, notes what was written, and leaves no new clean row.
   */
  lemma NoteWithoutSuccess(book: Book, plan: Plan, fate: Fate, saved: set<string>, at: int, fault: StampFault)
    requires !fate.outcome.Indexed? || StampRaises(plan, fate, fault)
    ensures var next := Note(book, plan, fate, saved, at, fault);
            && RowOrEmpty(next.rows, plan.ref).objectIds == RowOrEmpty(book.rows, plan.ref).objectIds
            && (plan.ref in book.rows ==> plan.ref in next.rows)
            && next.written == book.written
            && StrayOf(book, plan.ref) <= StrayOf(next, plan.ref)
            && (plan.desired.Indexed? ==> Elems(IdsOf(plan.newObjects)) * saved <= StrayOf(next, plan.ref))
            && (Clean(RowOrEmpty(next.rows, plan.ref)) && plan.ref !in next.torn ==>
                  && (fate.outcome.Skipped? || (fate.outcome.Failed? && !plan.hasContent))
                  && RowOrEmpty(next.rows, plan.ref) == RowOrEmpty(book.rows, plan.ref)
                  && plan.ref !in book.torn)
  {
  }

  lemma FollowOther(start: Book, book: Book, r: Round, ref: ContentRef, i: nat)
    requires r.chunk > 0 && i < |r.plans| && r.plans[i].ref != ref
    requires Followed(start, book, r, ref, i)
    ensures Followed(start, NoteOne(book, r, i), r, ref, i + 1)
  {
    var next := NoteOne(book, r, i);
    NoteSparesOthers(book, r.plans[i], Fates(r)[i], Saved(r), r.luck.clock(i), r.luck.stamps(i), ref);
    if SetBySome(book, r, ref, i) {
      var j :| 0 <= j < i && SetBy(book, r, ref, j);
      assert SetBy(next, r, ref, j);
    }
  }

  lemma NotSetByThis(start: Book, book: Book, r: Round, ref: ContentRef, i: nat)
    requires r.chunk > 0 && i < |r.plans| && r.plans[i].ref == ref
    requires !Fates(r)[i].outcome.Indexed? || StampRaises(r.plans[i], Fates(r)[i], r.luck.stamps(i))
    requires NotYetSet(start, book, r, ref, i)
    ensures NotYetSet(start, NoteOne(book, r, i), r, ref, i + 1)
  {
    NoteWithoutSuccess(book, r.plans[i], Fates(r)[i], Saved(r), r.luck.clock(i), r.luck.stamps(i));
  }

  lemma SetStays(book: Book, r: Round, ref: ContentRef, i: nat, j: nat)
    requires r.chunk > 0 && j < i < |r.plans| && r.plans[i].ref == ref && SetBy(book, r, ref, j)
    requires !Fates(r)[i].outcome.Indexed? || StampRaises(r.plans[i], Fates(r)[i], r.luck.stamps(i))
    ensures SetBy(NoteOne(book, r, i), r, ref, j)
  {
    NoteWithoutSuccess(book, r.plans[i], Fates(r)[i], Saved(r), r.luck.clock(i), r.luck.stamps(i));
  }

  lemma FollowOwn(start: Book, book: Book, r: Round, ref: ContentRef, i: nat)
    requires r.chunk > 0 && i < |r.plans| && r.plans[i].ref == ref
    requires !Fates(r)[i].outcome.Indexed? || StampRaises(r.plans[i], Fates(r)[i], r.luck.stamps(i))
    requires Followed(start, book, r, ref, i)
    ensures Followed(start, NoteOne(book, r, i), r, ref, i + 1)
  {
    NoteWithoutSuccess(book, r.plans[i], Fates(r)[i], Saved(r), r.luck.clock(i), r.luck.stamps(i));
    if SetBySome(book, r, ref, i) {
      var j :| 0 <= j < i && SetBy(book, r, ref, j);
      SetStays(book, r, ref, i, j);
    } else {
      NotSetByThis(start, book, r, ref, i);
    }
  }

  lemma FollowOne(start: Book, book: Book, r: Round, ref: ContentRef, i: nat)
    requires r.chunk > 0 && i < |r.plans|
    requires Followed(start, book, r, ref, i)
    ensures Followed(start, NoteOne(book, r, i), r, ref, i + 1)
  {
    var plan, fate := r.plans[i], Fates(r)[i];
    if plan.ref != ref {
      FollowOther(start, book, r, ref, i);
    } else if fate.outcome.Indexed? && !StampRaises(plan, fate, r.luck.stamps(i)) {
      assert SetBy(NoteOne(book, r, i), r, ref, i);
    } else {
      FollowOwn(start, book, r, ref, i);
    }
  }

  lemma {:induction false} FollowAll(start: Book, book: Book, r: Round, ref: ContentRef, i: nat)
    requires r.chunk > 0 && i <= |r.plans|
    requires Followed(start, book, r, ref, i)
    ensures Followed(start, NoteFrom(book, r, i), r, ref, |r.plans|)
    decreases |r.plans| - i
  {
    if i < |r.plans| {
      FollowOne(start, book, r, ref, i);
      FollowAll(start, NoteOne(book, r, i), r, ref, i + 1);
    }
  }

  lemma FatesArePossible(rows: Rows, hosted: Hosted, r: Round, owner: Owner)
    requires Legal(rows, hosted, r, owner)
    ensures FatesPossible(r)
  {
    forall i | 0 <= i < |r.plans|
      ensures Fates(r)[i].outcome.Failed? || Fates(r)[i].outcome == r.plans[i].desired
      ensures Fates(r)[i].outcome.Indexed? || Fates(r)[i].outcome.Removed? ==> r.plans[i].hasContent
    {
      PlanAt(rows, hosted, r, owner, i);
    }
  }

  /** After the whole round: the record was stamped INDEXED by some plan, or its ids are as before. */
  lemma RoundFollowed(s: System, r: Round, owner: Owner, ref: ContentRef)
    requires Sound(s, owner) && Possible(s, Batch(r), owner)
    ensures Followed(s.book, BookAfter(s.book, r), r, ref, |r.plans|)
  {
    var start := s.book.(rows := RowsFromPass1(s.book.rows, r.task, r.luck, 0));
    Pass1KeepsRows(s.book.rows, r.task, r.luck, 0, ref);
    FollowAll(s.book, start, r, ref, 0);
  }

  // ---------------------------------------------------------------- the invariant is kept

  lemma KeepsCleanRows(s: System, r: Round, owner: Owner, ref: ContentRef)
    requires Sound(s, owner) && Possible(s, Batch(r), owner)
    ensures CleanRowHosted(After(s, Batch(r)), ref)
  {
    var after := After(s, Batch(r));
    RoundFollowed(s, r, owner, ref);
    if ref in after.book.rows && Clean(after.book.rows[ref]) && ref !in after.book.torn {
      if SetBySome(after.book, r, ref, |r.plans|) {
        var j :| 0 <= j < |r.plans| && SetBy(after.book, r, ref, j);
        IndexedMeansHosted(s.book.rows, s.hosted, r, owner, j);
      } else {
        assert ref in s.book.rows && CleanRowHosted(s, ref);
        NoWritesFor(s, r, owner, ref);
        forall shard | shard in s.book.written[ref]
          ensures Reflects(after.hosted, Put(shard))
        {
          WrittenStays(s, r, owner, ref, shard);
        }
      }
    }
  }

  /** What a truthful row's last INDEXED run wrote is still hosted after a batch that plans no write for the record. */
  lemma WrittenStays(s: System, r: Round, owner: Owner, ref: ContentRef, shard: Shard)
    requires Sound(s, owner) && Possible(s, Batch(r), owner)
    requires TellsTruth(s, ref) && shard in s.book.written[ref] && !PlansToWrite(r, ref)
    ensures Reflects(HostedAfter(s.hosted, r), Put(shard))
  {
    IdOfMember(s.book.written[ref], shard);
    assert owner(shard.objectId) == Some(ref);
    NothingElseAppears(s.book.rows, s.hosted, r, owner, ref, shard.objectId);
  }

  /** A record all of whose plans ended SKIPPED, or had no content, had nothing planned for it. */
  lemma NoWritesFor(s: System, r: Round, owner: Owner, ref: ContentRef)
    requires Sound(s, owner) && Possible(s, Batch(r), owner)
    requires UntouchedSoFar(r, ref, |r.plans|)
    ensures !PlansToWrite(r, ref)
  {
    forall i | 0 <= i < |r.plans| && r.plans[i].ref == ref
      ensures !r.plans[i].desired.Indexed? && !r.plans[i].desired.Removed?
    {
      FatesArePossible(s.book.rows, s.hosted, r, owner);
      PlanAt(s.book.rows, s.hosted, r, owner, i);
    }
  }

  lemma KeepsAccounts(s: System, r: Round, owner: Owner, ref: ContentRef)
    requires Sound(s, owner) && Possible(s, Batch(r), owner)
    ensures HostedAccountedFor(After(s, Batch(r)), owner, ref)
  {
    var after := After(s, Batch(r));
    var book := after.book;
    RoundFollowed(s, r, owner, ref);
    if ref in book.rows && book.rows[ref].objectIds != [] {
      forall id | id in after.hosted && owner(id) == Some(ref)
        ensures id in book.rows[ref].objectIds || id in StrayOf(book, ref)
      {
        if SetBySome(book, r, ref, |r.plans|) {
          var j :| 0 <= j < |r.plans| && SetBy(book, r, ref, j);
          AccountedAfterIndexing(s, r, owner, j, id);
        } else {
          assert ref in s.book.rows && HostedAccountedFor(s, owner, ref);
          AccountedWithoutIndexing(s, r, owner, ref, id);
        }
      }
    }
  }

  lemma AccountedAfterIndexing(s: System, r: Round, owner: Owner, j: nat, id: string)
    requires Sound(s, owner) && Possible(s, Batch(r), owner)
    requires j < |r.plans| && Fates(r)[j].outcome.Indexed?
    requires id in HostedAfter(s.hosted, r) && owner(id) == Some(r.plans[j].ref)
    ensures id in IdsOf(r.plans[j].newObjects) || id in StrayOf(s.book, r.plans[j].ref)
  {
    var ref := r.plans[j].ref;
    PlanAt(s.book.rows, s.hosted, r, owner, j);
    IndexedMeansHosted(s.book.rows, s.hosted, r, owner, j);
    if id !in IdsOf(r.plans[j].newObjects) {
      NothingElseAppears(s.book.rows, s.hosted, r, owner, ref, id);
      assert HostedAccountedFor(s, owner, ref);
      assert id !in Elems(r.plans[j].idsToDelete);
    }
  }

  lemma AccountedWithoutIndexing(s: System, r: Round, owner: Owner, ref: ContentRef, id: string)
    requires Sound(s, owner) && Possible(s, Batch(r), owner)
    requires StraysNoted(BookAfter(s.book, r), r, ref, |r.plans|)
    requires id in HostedAfter(s.hosted, r) && owner(id) == Some(ref)
    ensures id in s.hosted || id in StrayOf(BookAfter(s.book, r), ref)
  {
    if w :| w in Saves(r.plans, r.chunk, r.luck.skies).writes && w.Target() == id {
      var i := SavedBy(s.book.rows, s.hosted, r, owner, w);
      NewObjectsOwned(s.book.rows, s.hosted, r, owner, i, w.shard);
      IdOfMember(r.plans[i].newObjects, w.shard);
      assert id in Elems(IdsOf(r.plans[i].newObjects)) * Saved(r);
    } else {
      OnlySavedAppears(s.book.rows, s.hosted, r, owner, ref, id);
    }
  }

  /** Plan j set out to save the id, the index accepted it, and the plan was not stamped INDEXED. */
  ghost predicate LeftBehind(r: Round, ref: ContentRef, id: string, j: nat)
    requires r.chunk > 0 && j < |r.plans|
  {
    && r.plans[j].ref == ref && id in IdsOf(r.plans[j].newObjects) && id in Saved(r)
    && !(Fates(r)[j].outcome.Indexed? && !StampRaises(r.plans[j], Fates(r)[j], r.luck.stamps(j)))
  }

  ghost predicate LeavesBehind(r: Round, ref: ContentRef, id: string, from: nat)
    requires r.chunk > 0
  {
    exists j | from <= j < |r.plans| :: LeftBehind(r, ref, id, j)
  }

  lemma LeavesBehindSplit(r: Round, ref: ContentRef, id: string, i: nat)
    requires r.chunk > 0 && i < |r.plans|
    ensures LeavesBehind(r, ref, id, i) <==> LeftBehind(r, ref, id, i) || LeavesBehind(r, ref, id, i + 1)
  {
  }

  lemma NotedOne(book: Book, r: Round, ref: ContentRef, i: nat, id: string)
    requires r.chunk > 0 && i < |r.plans|
    ensures id in StrayOf(NoteOne(book, r, i), ref) <==> id in StrayOf(book, ref) || LeftBehind(r, ref, id, i)
  {
    if r.plans[i].ref != ref {
      NoteSparesOthers(book, r.plans[i], Fates(r)[i], Saved(r), r.luck.clock(i), r.luck.stamps(i), ref);
    }
  }

  lemma {:induction false} NotedFrom(book: Book, r: Round, ref: ContentRef, i: nat, id: string)
    requires r.chunk > 0 && i <= |r.plans|
    ensures id in StrayOf(NoteFrom(book, r, i), ref)
            <==> id in StrayOf(book, ref) || LeavesBehind(r, ref, id, i)
    decreases |r.plans| - i
  {
    if i < |r.plans| {
      NotedOne(book, r, ref, i, id);
      NotedFrom(NoteOne(book, r, i), r, ref, i + 1, id);
      LeavesBehindSplit(r, ref, id, i);
    }
  }

  /**
   What a batch adds to the account of leftovers is exactly what it left: ids the index accepted for the record from a
   plan that was not stamped INDEXED. A run all of whose saves were refused adds nothing.
   */
  lemma LeftoversWereWritten(book: Book, r: Round, ref: ContentRef, id: string)
    requires r.chunk > 0 && |r.plans| == |r.task.keys|
    ensures id in StrayOf(BookAfter(book, r), ref)
            <==> id in StrayOf(book, ref) || LeavesBehind(r, ref, id, 0)
  {
    NotedFrom(book.(rows := RowsFromPass1(book.rows, r.task, r.luck, 0)), r, ref, 0, id);
  }

  /** Whatever the index accepted of a record's new objects is hosted when the batch is over. */
  lemma AcceptedIsHosted(rows: Rows, hosted: Hosted, r: Round, owner: Owner, j: nat, id: string)
    requires Legal(rows, hosted, r, owner) && j < |r.plans| && id in IdsOf(r.plans[j].newObjects) && id in Saved(r)
    ensures id in HostedAfter(hosted, r)
  {
    var saves, deletes := Saves(r.plans, r.chunk, r.luck.skies).writes, Deletes(r.plans, r.chunk, r.luck.skies).writes;
    var w :| w in saves && w.Target() == id;
    var _ := SavedBy(rows, hosted, r, owner, w);
    SavesConsistent(rows, hosted, r, owner);
    ConsistentSettles(hosted, saves, w);
    var n :| 0 <= n < |r.plans[j].newObjects| && IdsOf(r.plans[j].newObjects)[n] == id;
    DeletesSpareNewObjects(rows, hosted, r, owner, j, r.plans[j].newObjects[n]);
    ApplyConcat(hosted, saves, deletes);
    UntouchedStays(Apply(hosted, saves), deletes, id);
  }

  lemma NewIdOwned(rows: Rows, hosted: Hosted, r: Round, owner: Owner, j: nat, id: string)
    requires Legal(rows, hosted, r, owner) && j < |r.plans| && id in IdsOf(r.plans[j].newObjects)
    ensures owner(id) == Some(r.plans[j].ref)
  {
    var n :| 0 <= n < |r.plans[j].newObjects| && IdsOf(r.plans[j].newObjects)[n] == id;
    NewObjectsOwned(rows, hosted, r, owner, j, r.plans[j].newObjects[n]);
  }

  lemma KeepsTracking(s: System, r: Round, owner: Owner)
    requires Sound(s, owner) && Possible(s, Batch(r), owner)
    ensures WellTracked(BookAfter(s.book, r).rows, owner)
  {
    var book := BookAfter(s.book, r);
    forall ref, id | ref in book.rows && id in book.rows[ref].objectIds
      ensures owner(id) == Some(ref)
    {
      RoundFollowed(s, r, owner, ref);
      if SetBySome(book, r, ref, |r.plans|) {
        var j :| 0 <= j < |r.plans| && SetBy(book, r, ref, j);
        NewIdOwned(s.book.rows, s.hosted, r, owner, j, id);
      } else {
        assert id in RowOrEmpty(s.book.rows, ref).objectIds;
      }
    }
  }

  lemma StepKeepsSound(s: System, step: Step, owner: Owner)
    requires Sound(s, owner) && Possible(s, step, owner)
    ensures Sound(After(s, step), owner)
  {
    var after := After(s, step);
    match step
    case Edit(contents) =>
      forall ref: ContentRef
        ensures CleanRowHosted(after, ref) && HostedAccountedFor(after, owner, ref)
      {
        assert CleanRowHosted(s, ref) && HostedAccountedFor(s, owner, ref);
      }
    case Batch(r) =>
      StaysWellFiled(s.book.rows, s.hosted, r, owner);
      KeepsTracking(s, r, owner);
      forall ref: ContentRef
        ensures CleanRowHosted(after, ref) && HostedAccountedFor(after, owner, ref)
      {
        KeepsCleanRows(s, r, owner, ref);
        KeepsAccounts(s, r, owner, ref);
      }
  }

  // ---------------------------------------------------------------- whole runs

  ghost predicate PossibleRun(s: System, steps: seq<Step>, owner: Owner)
    decreases |steps|
  {
    steps == [] || (Possible(s, steps[0], owner) && PossibleRun(After(s, steps[0]), steps[1..], owner))
  }

  ghost function RunOf(s: System, steps: seq<Step>, owner: Owner): System
    requires PossibleRun(s, steps, owner)
    decreases |steps|
  {
    if steps == [] then s else RunOf(After(s, steps[0]), steps[1..], owner)
  }

  /** The main theorem: every run, with any failures in it, keeps the system sound. */
  lemma {:induction false} RunsStaySound(s: System, steps: seq<Step>, owner: Owner)
    requires Sound(s, owner) && PossibleRun(s, steps, owner)
    ensures Sound(RunOf(s, steps, owner), owner)
    decreases |steps|
  {
    if steps != [] {
      StepKeepsSound(s, steps[0], owner);
      RunsStaySound(After(s, steps[0]), steps[1..], owner);
    }
  }

  /** Over a run in which no batch leaves anything behind for the record, whatever failed, no leftover is on account. */
  lemma {:induction false} NothingLeftBehind(s: System, steps: seq<Step>, owner: Owner, ref: ContentRef)
    requires PossibleRun(s, steps, owner) && StrayOf(s.book, ref) == {}
    requires forall r, id | Batch(r) in steps && r.chunk > 0 :: !LeavesBehind(r, ref, id, 0)
    ensures StrayOf(RunOf(s, steps, owner).book, ref) == {}
    decreases |steps|
  {
    if steps != [] {
      if steps[0].Batch? {
        forall id: string
          ensures id !in StrayOf(After(s, steps[0]).book, ref)
        {
          LeftoversWereWritten(s.book, steps[0].round, ref, id);
        }
      }
      NothingLeftBehind(After(s, steps[0]), steps[1..], owner, ref);
    }
  }

  // ---------------------------------------------------------------- what the invariant gives

  /** If the index holds nothing on account from unsuccessful runs, the next success leaves exactly its new objects. */
  lemma SuccessIsExact(s: System, r: Round, owner: Owner, i: nat)
    requires Sound(s, owner) && Possible(s, Batch(r), owner)
    requires i < |r.plans| && Fates(r)[i].outcome.Indexed?
    requires StrayOf(s.book, r.plans[i].ref) == {}
    ensures forall id :: id in HostedAfter(s.hosted, r) && owner(id) == Some(r.plans[i].ref) <==>
      id in IdsOf(r.plans[i].newObjects)
    ensures forall shard :: shard in r.plans[i].newObjects ==> Reflects(HostedAfter(s.hosted, r), Put(shard))
  {
    var ref := r.plans[i].ref;
    assert HostedAccountedFor(s, owner, ref);
    assert TrackingComplete(s.book.rows, s.hosted, owner, ref);
    IndexedIdsExactly(s.book.rows, s.hosted, r, owner, i);
    IndexedMeansHosted(s.book.rows, s.hosted, r, owner, i);
  }

  /**
   In general a record that ends INDEXED hosts exactly its new objects if and only if its row tracked nothing, or every
   leftover of a failed run that is still hosted is tracked or generated again: any other leftover outlives the success.
   */
  lemma ExactIffNoLeftovers(s: System, r: Round, owner: Owner, i: nat)
    requires Sound(s, owner) && Possible(s, Batch(r), owner)
    requires i < |r.plans| && Fates(r)[i].outcome.Indexed?
    ensures var ref, ids := r.plans[i].ref, IdsOf(r.plans[i].newObjects);
            var tracked := RowOrEmpty(s.book.rows, ref).objectIds;
            (forall id :: id in HostedAfter(s.hosted, r) && owner(id) == Some(ref) <==> id in ids)
            <==> tracked == []
                 || forall id :: id in StrayOf(s.book, ref) && id in s.hosted && owner(id) == Some(ref) ==>
                      id in tracked || id in ids
  {
    var ref := r.plans[i].ref;
    var row := RowOrEmpty(s.book.rows, ref);
    ExactIffNothingUnknown(s.book.rows, s.hosted, r, owner, i);
    assert HostedAccountedFor(s, owner, ref);
    forall id | id in s.hosted && owner(id) == Some(ref)
      ensures id in ExistingIds(row, ref, s.hosted) <==> row.objectIds == [] || id in row.objectIds
    {
    }
  }
}
