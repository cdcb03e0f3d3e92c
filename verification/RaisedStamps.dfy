/**
 Why rows whose stamp raised are exempt from the invariant of IndexingRuns, and which of them tell the truth all the
 same: the task wrote to the index, and the row that should say so was left as it was.
 */
module RaisedStamps {
  import opened Prelude
  import opened ContentRefs
  import opened SearchIndex
  import opened IndexingStates
  import opened BatchIndexer
  import opened BatchEffects
  import opened BatchOutcomes
  import opened IndexingRuns

  /** Some plan of the record was stamped INDEXED. */
  ghost predicate StampedIndexed(r: Round, ref: ContentRef)
    requires r.chunk > 0
  {
    exists j :: 0 <= j < |r.plans| && r.plans[j].ref == ref && Stamps(r, j)
  }

  ghost predicate Stamps(r: Round, j: nat)
    requires r.chunk > 0 && j < |r.plans|
  {
    Fates(r)[j].outcome.Indexed? && !StampRaises(r.plans[j], Fates(r)[j], r.luck.stamps(j))
  }

  // ---------------------------------------------------------------- a record stamped INDEXED by the round

  /** What an INDEXED stamp sets lasts until the end of pass 3. */
  lemma {:induction false} StaysSet(book: Book, r: Round, ref: ContentRef, i: nat, j: nat)
    requires r.chunk > 0 && i <= |r.plans| && j < |r.plans| && r.plans[j].ref == ref && Stamps(r, j)
    requires i <= j || SetBySome(book, r, ref, i)
    ensures SetBySome(NoteFrom(book, r, i), r, ref, |r.plans|)
    decreases |r.plans| - i
  {
    if i < |r.plans| {
      if i >= j {
        SetStep(book, r, ref, i);
      }
      StaysSet(NoteOne(book, r, i), r, ref, i + 1, j);
    }
  }

  lemma SetStep(book: Book, r: Round, ref: ContentRef, i: nat)
    requires r.chunk > 0 && i < |r.plans|
    requires SetBySome(book, r, ref, i) || (r.plans[i].ref == ref && Stamps(r, i))
    ensures SetBySome(NoteOne(book, r, i), r, ref, i + 1)
  {
    var next := NoteOne(book, r, i);
    if r.plans[i].ref == ref && Stamps(r, i) {
      assert SetBy(next, r, ref, i);
    } else {
      var j :| 0 <= j < i && SetBy(book, r, ref, j);
      if r.plans[i].ref == ref {
        NoteWithoutSuccess(book, r.plans[i], Fates(r)[i], Saved(r), r.luck.clock(i), r.luck.stamps(i));
      } else {
        NoteSparesOthers(book, r.plans[i], Fates(r)[i], Saved(r), r.luck.clock(i), r.luck.stamps(i), ref);
      }
      assert SetBy(next, r, ref, j);
    }
  }

  // ---------------------------------------------------------------- a record not stamped INDEXED by the round

  /** Without an INDEXED stamp a row can lose its cleanness but not gain it, and what is noted as written stays. */
  ghost predicate Quiet(before: Book, after: Book, ref: ContentRef) {
    && (ref in after.written <==> ref in before.written)
    && (ref in before.written ==> after.written[ref] == before.written[ref])
    && (ref in before.rows ==> ref in after.rows)
    && (Clean(RowOrEmpty(after.rows, ref)) ==> RowOrEmpty(after.rows, ref) == RowOrEmpty(before.rows, ref))
  }

  lemma QuietStep(book: Book, plan: Plan, fate: Fate, saved: set<string>, at: int, fault: StampFault, ref: ContentRef)
    requires plan.ref == ref && fate.outcome.Indexed? ==> StampRaises(plan, fate, fault)
    ensures Quiet(book, Note(book, plan, fate, saved, at, fault), ref)
  {
    if plan.ref != ref {
      NoteSparesOthers(book, plan, fate, saved, at, fault, ref);
    }
  }

  lemma {:induction false} StaysQuiet(book: Book, r: Round, ref: ContentRef, i: nat)
    requires r.chunk > 0 && i <= |r.plans|
    requires !StampedIndexed(r, ref)
    ensures Quiet(book, NoteFrom(book, r, i), ref)
    decreases |r.plans| - i
  {
    if i < |r.plans| {
      var plan, fate, at, fault := r.plans[i], Fates(r)[i], r.luck.clock(i), r.luck.stamps(i);
      assert plan.ref == ref ==> !Stamps(r, i);
      QuietStep(book, plan, fate, Saved(r), at, fault, ref);
      StaysQuiet(NoteOne(book, r, i), r, ref, i + 1);
    }
  }

  lemma QuietRound(s: System, r: Round, owner: Owner, ref: ContentRef)
    requires Sound(s, owner) && Possible(s, Batch(r), owner)
    requires !StampedIndexed(r, ref)
    ensures Quiet(s.book, BookAfter(s.book, r), ref)
  {
    Pass1KeepsRows(s.book.rows, r.task, r.luck, 0, ref);
    StaysQuiet(s.book.(rows := RowsFromPass1(s.book.rows, r.task, r.luck, 0)), r, ref, 0);
  }

  /** A row all of whose stamps raised is the row of before: clean, if it was clean. */
  lemma RaisedStampsKeepRow(s: System, r: Round, owner: Owner, ref: ContentRef)
    requires Sound(s, owner) && Possible(s, Batch(r), owner) && ref in s.book.rows
    requires forall j :: 0 <= j < |r.plans| && r.plans[j].ref == ref ==>
      StampRaises(r.plans[j], Fates(r)[j], r.luck.stamps(j))
    ensures var rows := After(s, Batch(r)).book.rows; ref in rows && rows[ref] == s.book.rows[ref]
  {
    Pass1KeepsRows(s.book.rows, r.task, r.luck, 0, ref);
    var start := s.book.(rows := RowsFromPass1(s.book.rows, r.task, r.luck, 0));
    NoteFromRows(start, r, 0);
    RowKeptFrom(start.rows, r.plans, Fates(r), r.luck.clock, r.luck.stamps, ref, 0);
  }

  lemma {:induction false} RowKeptFrom(
    rows: Rows, plans: seq<Plan>, fates: seq<Fate>, clock: Clock, faults: StampFaults, ref: ContentRef, i: nat)
    requires i <= |plans| == |fates| && ref in rows
    requires forall j :: i <= j < |plans| && plans[j].ref == ref ==> StampRaises(plans[j], fates[j], faults(j))
    ensures var after := FinalizeFrom(rows, plans, fates, clock, faults, i);
            ref in after && after[ref] == rows[ref]
    decreases |plans| - i
  {
    if i < |plans| {
      var next := Finalize(rows, plans[i], fates[i], clock(i), faults(i)).rows;
      assert ref in next && next[ref] == rows[ref];
      RowKeptFrom(next, plans, fates, clock, faults, ref, i + 1);
    }
  }

  // ---------------------------------------------------------------- which clean rows tell the truth

  /**
   The exemption is exact: a row found clean after a batch, whatever its stamps did, tells the truth if and only if the
   batch stamped it INDEXED, or every write the index accepted left the objects of its last INDEXED run as they were.
   */
  lemma TruthfulIffStampedOrSpared(s: System, r: Round, owner: Owner, ref: ContentRef)
    requires Sound(s, owner) && Possible(s, Batch(r), owner) && ref !in s.book.torn
    requires var rows := After(s, Batch(r)).book.rows; ref in rows && Clean(rows[ref])
    ensures TellsTruth(After(s, Batch(r)), ref)
            <==> StampedIndexed(r, ref)
                 || (ref in s.book.written && forall shard :: shard in s.book.written[ref] ==> Spared(r, shard))
  {
    var after := After(s, Batch(r));
    if StampedIndexed(r, ref) {
      var i :| 0 <= i < |r.plans| && r.plans[i].ref == ref && Stamps(r, i);
      StaysSet(s.book.(rows := RowsFromPass1(s.book.rows, r.task, r.luck, 0)), r, ref, 0, i);
      var j :| 0 <= j < |r.plans| && SetBy(after.book, r, ref, j);
      IndexedMeansHosted(s.book.rows, s.hosted, r, owner, j);
    } else {
      CleanBefore(s, r, owner, ref);
      forall shard | shard in s.book.written[ref]
        ensures Reflects(after.hosted, Put(shard)) <==> Spared(r, shard)
      {
        StaysIffSpared(s.book.rows, s.hosted, r, owner, shard);
      }
    }
  }

  /** A row the batch did not stamp INDEXED and left clean is the clean, truthful row of before. */
  lemma CleanBefore(s: System, r: Round, owner: Owner, ref: ContentRef)
    requires Sound(s, owner) && Possible(s, Batch(r), owner) && ref !in s.book.torn
    requires var rows := After(s, Batch(r)).book.rows; ref in rows && Clean(rows[ref])
    requires !StampedIndexed(r, ref)
    ensures TellsTruth(s, ref) && Clean(s.book.rows[ref])
    ensures var after := After(s, Batch(r)).book;
            after.rows[ref] == s.book.rows[ref] && ref in after.written && after.written[ref] == s.book.written[ref]
  {
    QuietRound(s, r, owner, ref);
    assert CleanRowHosted(s, ref);
  }

  /** After an INDEXED run whose stamp raised: the row tells the truth if and only if the run wrote all of it again. */
  lemma RaisedIndexed(s: System, r: Round, owner: Owner, i: nat)
    requires Sound(s, owner) && Possible(s, Batch(r), owner) && i < |r.plans| && r.plans[i].ref !in s.book.torn
    requires var rows := After(s, Batch(r)).book.rows; r.plans[i].ref in rows && Clean(rows[r.plans[i].ref])
    requires Fates(r)[i].outcome.Indexed? && !StampedIndexed(r, r.plans[i].ref)
    ensures TellsTruth(After(s, Batch(r)), r.plans[i].ref)
            <==> r.plans[i].ref in s.book.written
                 && forall shard :: shard in s.book.written[r.plans[i].ref] ==> shard in r.plans[i].newObjects
  {
    var ref, after := r.plans[i].ref, HostedAfter(s.hosted, r);
    CleanBefore(s, r, owner, ref);
    IndexedMeansHosted(s.book.rows, s.hosted, r, owner, i);
    PlanAt(s.book.rows, s.hosted, r, owner, i);
    forall shard | shard in s.book.written[ref]
      ensures Reflects(after, Put(shard)) <==> shard in r.plans[i].newObjects
    {
      IdOfMember(s.book.written[ref], shard);
      if shard.objectId in IdsOf(r.plans[i].newObjects) {
        var n :| 0 <= n < |r.plans[i].newObjects| && IdsOf(r.plans[i].newObjects)[n] == shard.objectId;
        assert Reflects(after, Put(r.plans[i].newObjects[n]));
      } else {
        assert shard.objectId in Elems(r.plans[i].idsToDelete);
        if shard in r.plans[i].newObjects {
          IdOfMember(r.plans[i].newObjects, shard);
        }
      }
    }
  }

  /** After a REMOVED run whose stamp raised: the row tells the truth if and only if it tracks nothing. */
  lemma RaisedRemoved(s: System, r: Round, owner: Owner, i: nat)
    requires Sound(s, owner) && Possible(s, Batch(r), owner) && i < |r.plans| && r.plans[i].ref !in s.book.torn
    requires var rows := After(s, Batch(r)).book.rows; r.plans[i].ref in rows && Clean(rows[r.plans[i].ref])
    requires Fates(r)[i].outcome.Removed? && !StampedIndexed(r, r.plans[i].ref)
    ensures TellsTruth(After(s, Batch(r)), r.plans[i].ref)
            <==> After(s, Batch(r)).book.rows[r.plans[i].ref].objectIds == []
  {
    var ref := r.plans[i].ref;
    CleanBefore(s, r, owner, ref);
    if s.book.written[ref] != [] {
      RemovedIsGone(s, r, owner, i, s.book.written[ref][0]);
    }
  }

  lemma RemovedIsGone(s: System, r: Round, owner: Owner, i: nat, shard: Shard)
    requires Sound(s, owner) && Possible(s, Batch(r), owner)
    requires i < |r.plans| && Fates(r)[i].outcome.Removed? && TellsTruth(s, r.plans[i].ref)
    requires shard in s.book.written[r.plans[i].ref]
    ensures shard.objectId !in HostedAfter(s.hosted, r)
  {
    PlanAt(s.book.rows, s.hosted, r, owner, i);
    DeleteTookEffect(s.book.rows, s.hosted, r, owner, i);
    IdOfMember(s.book.written[r.plans[i].ref], shard);
    assert shard.objectId in Elems(r.plans[i].idsToDelete);
  }

  /** After a run that planned nothing for the record, however its stamp went, a clean row still tells the truth. */
  lemma RaisedWithoutPlan(s: System, r: Round, owner: Owner, ref: ContentRef)
    requires Sound(s, owner) && Possible(s, Batch(r), owner) && ref !in s.book.torn
    requires var rows := After(s, Batch(r)).book.rows; ref in rows && Clean(rows[ref])
    requires !PlansToWrite(r, ref)
    ensures TellsTruth(After(s, Batch(r)), ref)
  {
    NoneStamped(s, r, owner, ref);
    CleanBefore(s, r, owner, ref);
    forall shard | shard in s.book.written[ref]
      ensures Reflects(HostedAfter(s.hosted, r), Put(shard))
    {
      WrittenStays(s, r, owner, ref, shard);
    }
  }

  lemma NoneStamped(s: System, r: Round, owner: Owner, ref: ContentRef)
    requires Sound(s, owner) && Possible(s, Batch(r), owner) && !PlansToWrite(r, ref)
    ensures !StampedIndexed(r, ref)
  {
    FatesArePossible(s.book.rows, s.hosted, r, owner);
    forall j | 0 <= j < |r.plans| && r.plans[j].ref == ref
      ensures !Stamps(r, j)
    {
      PlanAt(s.book.rows, s.hosted, r, owner, j);
    }
  }
}
