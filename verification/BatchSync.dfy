/** What one batch of entries with distinct keys does to the content table, record by record. */
module BatchSync {
  import opened Prelude
  import opened ContentSync

  function KeyText(e: Entry): string {
    if KeyOf(e).Some? then KeyOf(e).value else ""
  }

  function Keys(batch: seq<Entry>): (r: seq<string>)
    ensures |r| == |batch| && forall i :: 0 <= i < |r| ==> r[i] == KeyText(batch[i])
  {
    seq(|batch|, i requires 0 <= i < |batch| => KeyText(batch[i]))
  }

  /** Every entry has a key, and no two the same. */
  ghost predicate Distinct(batch: seq<Entry>) {
    (forall e | e in batch :: KeyOf(e).Some?) && NoDup(Keys(batch))
  }

  lemma DistinctFront(batch: seq<Entry>)
    requires batch != [] && Distinct(batch)
    ensures Distinct(batch[..|batch| - 1])
    ensures KeyText(batch[|batch| - 1]) !in Keys(batch[..|batch| - 1])
    ensures Keys(batch) == Keys(batch[..|batch| - 1]) + [KeyText(batch[|batch| - 1])]
  {
    var front, last := batch[..|batch| - 1], batch[|batch| - 1];
    forall i | 0 <= i < |front|
      ensures Keys(front)[i] == Keys(batch)[i] && Keys(batch)[i] != Keys(batch)[|front|]
    {
    }
  }

  lemma KeyListed(batch: seq<Entry>, e: Entry)
    requires e in batch
    ensures KeyText(e) in Keys(batch)
  {
    var i :| 0 <= i < |batch| && batch[i] == e;
    assert Keys(batch)[i] == KeyText(e);
  }

  // ---------------------------------------------------------------- updates

  ghost predicate UpdatedAt(t: Table, u: Table, e: Entry, parse: Parser, at: int) {
    InTable(t, e) ==> KeyText(e) in u && u[KeyText(e)] == RecordAfter(t, e, parse, at)
  }

  lemma {:induction false} UpdatesEffect(t: Table, batch: seq<Entry>, parse: Parser, at: int)
    requires Distinct(batch)
    ensures var u := ApplyUpdates(t, UpdatesOf(t, batch, parse), at);
            && u.Keys == t.Keys
            && (forall k | k in t && k !in Keys(batch) :: u[k] == t[k])
            && (forall e | e in batch :: UpdatedAt(t, u, e, parse, at))
  {
    if batch != [] {
      var front, last := batch[..|batch| - 1], batch[|batch| - 1];
      DistinctFront(batch);
      UpdatesEffect(t, front, parse, at);
      UpdateStep(t, batch, parse, at);
      LastUpdated(t, ApplyUpdates(t, UpdatesOf(t, front, parse), at), batch, parse, at);
    }
  }

  function UpdatedBy(t: Table, u: Table, e: Entry, parse: Parser, at: int): Table {
    if InTable(t, e) && !Skipped(t, e, parse) then ApplyUpdate(u, DefaultsFor(e, true), at) else u
  }

  lemma UpdateStep(t: Table, batch: seq<Entry>, parse: Parser, at: int)
    requires batch != []
    ensures var front, last := batch[..|batch| - 1], batch[|batch| - 1];
            var u := ApplyUpdates(t, UpdatesOf(t, front, parse), at);
            ApplyUpdates(t, UpdatesOf(t, batch, parse), at)
            == UpdatedBy(t, u, last, parse, at)
  {
    var ds, last := UpdatesOf(t, batch, parse), batch[|batch| - 1];
    if InTable(t, last) && !Skipped(t, last, parse) {
      assert ds[..|ds| - 1] == UpdatesOf(t, batch[..|batch| - 1], parse);
    }
  }

  lemma UpdatedStays(t: Table, u: Table, front: seq<Entry>, last: Entry, parse: Parser, at: int)
    requires KeyText(last) !in Keys(front) && forall e | e in front :: UpdatedAt(t, u, e, parse, at)
    ensures forall e | e in front :: UpdatedAt(t, UpdatedBy(t, u, last, parse, at), e, parse, at)
  {
    forall e | e in front
      ensures UpdatedAt(t, UpdatedBy(t, u, last, parse, at), e, parse, at)
    {
      KeyListed(front, e);
      assert UpdatedAt(t, u, e, parse, at);
    }
  }

  lemma LastIsUpdated(t: Table, u: Table, last: Entry, parse: Parser, at: int)
    requires u.Keys == t.Keys && (InTable(t, last) ==> u[KeyText(last)] == t[KeyText(last)])
    ensures var u' := UpdatedBy(t, u, last, parse, at);
            && UpdatedAt(t, u', last, parse, at) && u'.Keys == t.Keys
            && forall k | k in t && k != KeyText(last) :: u'[k] == u[k]
  {
  }

  /** What the last entry adds to what the others did. */
  lemma LastUpdated(t: Table, u: Table, batch: seq<Entry>, parse: Parser, at: int)
    requires batch != [] && Distinct(batch) && u.Keys == t.Keys
    requires forall k | k in t && k !in Keys(batch[..|batch| - 1]) :: u[k] == t[k]
    requires forall e | e in batch[..|batch| - 1] :: UpdatedAt(t, u, e, parse, at)
    ensures var u' := UpdatedBy(t, u, batch[|batch| - 1], parse, at);
            && u'.Keys == t.Keys
            && (forall k | k in t && k !in Keys(batch) :: u'[k] == t[k])
            && (forall e | e in batch :: UpdatedAt(t, u', e, parse, at))
  {
    var front, last := batch[..|batch| - 1], batch[|batch| - 1];
    DistinctFront(batch);
    assert forall k :: k in Keys(batch) <==> k in Keys(front) || k == KeyText(last);
    LastIsUpdated(t, u, last, parse, at);
    UpdatedStays(t, u, front, last, parse, at);
    assert forall e | e in batch :: e in front || e == last;
  }

  // ---------------------------------------------------------------- inserts

  ghost predicate CreatedAt(t: Table, u: Table, e: Entry, at: int) {
    !InTable(t, e) ==> KeyText(e) in u && u[KeyText(e)] == CreatedRecord(DefaultsFor(e, false), at)
  }

  lemma InsertStep(t: Table, u: Table, batch: seq<Entry>, at: int)
    requires batch != []
    ensures var front, last := batch[..|batch| - 1], batch[|batch| - 1];
            var v := Inserts(u, CreationsOf(t, front), at);
            && Inserts(u, CreationsOf(t, batch), at)
              == (if InTable(t, last) then v else Insert(v, DefaultsFor(last, false), at))
            && (InsertedCount(u, CreationsOf(t, front), at, None) == |CreationsOf(t, front)|
                && (InTable(t, last) || Insertable(v, DefaultsFor(last, false)))
                ==> InsertedCount(u, CreationsOf(t, batch), at, None) == |CreationsOf(t, batch)|)
  {
    var last, ds := batch[|batch| - 1], CreationsOf(t, batch);
    if !InTable(t, last) {
      assert ds[..|ds| - 1] == CreationsOf(t, batch[..|batch| - 1]);
    }
  }

  /** The new rows go into a table that has the same keys as the one the batch was partitioned by. */
  lemma {:induction false} InsertsEffect(t: Table, u: Table, batch: seq<Entry>, at: int)
    requires Distinct(batch) && u.Keys == t.Keys
    ensures InsertedCount(u, CreationsOf(t, batch), at, None) == |CreationsOf(t, batch)|
    ensures var v := Inserts(u, CreationsOf(t, batch), at);
            && (forall k :: k in v <==> k in t || k in Keys(batch))
            && (forall k | k in u :: v[k] == u[k])
            && (forall e | e in batch :: CreatedAt(t, v, e, at))
  {
    if batch != [] {
      var v := Inserts(u, CreationsOf(t, batch[..|batch| - 1]), at);
      DistinctFront(batch);
      InsertsEffect(t, u, batch[..|batch| - 1], at);
      InsertStep(t, u, batch, at);
      LastInserted(t, u, v, batch, at);
    }
  }

  /** What the last entry adds to what the others did. */
  lemma LastInserted(t: Table, u: Table, v: Table, batch: seq<Entry>, at: int)
    requires batch != [] && Distinct(batch) && u.Keys == t.Keys
    requires forall k :: k in v <==> k in t || k in Keys(batch[..|batch| - 1])
    requires forall k | k in u :: v[k] == u[k]
    requires forall e | e in batch[..|batch| - 1] :: CreatedAt(t, v, e, at)
    ensures var last := batch[|batch| - 1];
            var v' := if InTable(t, last) then v else Insert(v, DefaultsFor(last, false), at);
            && (InTable(t, last) || Insertable(v, DefaultsFor(last, false)))
            && (forall k :: k in v' <==> k in t || k in Keys(batch))
            && (forall k | k in u :: v'[k] == u[k])
            && (forall e | e in batch :: CreatedAt(t, v', e, at))
  {
    var front, last := batch[..|batch| - 1], batch[|batch| - 1];
    DistinctFront(batch);
    assert forall k :: k in Keys(batch) <==> k in Keys(front) || k == KeyText(last);
    CreatedStays(t, v, front, last, at);
    assert forall e | e in batch :: e in front || e == last;
  }

  lemma CreatedStays(t: Table, v: Table, front: seq<Entry>, last: Entry, at: int)
    requires KeyText(last) !in Keys(front) && forall e | e in front :: CreatedAt(t, v, e, at)
    ensures forall e | e in front :: CreatedAt(t, Insert(v, DefaultsFor(last, false), at), e, at)
  {
    forall e | e in front
      ensures CreatedAt(t, Insert(v, DefaultsFor(last, false), at), e, at)
    {
      KeyListed(front, e);
      assert CreatedAt(t, v, e, at);
    }
  }

  // ---------------------------------------------------------------- the keys handed back

  lemma KeyTextsSnoc(ds: seq<Defaults>, d: Defaults)
    ensures KeyTexts(ds + [d]) == KeyTexts(ds) + KeyTexts([d])
  {
  }

  lemma MultisetSnoc(s: seq<string>, x: string)
    ensures multiset(s + [x]) == multiset(s) + multiset{x}
  {
  }

  lemma SumSnoc(a: multiset<string>, b: multiset<string>, c: multiset<string>, x: string)
    ensures (a + multiset{x}) + b + c == (a + b + c) + multiset{x}
    ensures a + (b + multiset{x}) + c == (a + b + c) + multiset{x}
    ensures a + b + (c + multiset{x}) == (a + b + c) + multiset{x}
  {
  }

  lemma {:induction false} KeysHandedBack(t: Table, batch: seq<Entry>, parse: Parser)
    requires forall e | e in batch :: KeyOf(e).Some?
    ensures multiset(KeyTexts(UpdatesOf(t, batch, parse))) + multiset(SkippedOf(t, batch, parse))
              + multiset(KeyTexts(CreationsOf(t, batch)))
            == multiset(Keys(batch))
  {
    if batch != [] {
      var front, last := batch[..|batch| - 1], batch[|batch| - 1];
      var us, ss, cs := UpdatesOf(t, front, parse), SkippedOf(t, front, parse), CreationsOf(t, front);
      KeysHandedBack(t, front, parse);
      assert Keys(batch) == Keys(front) + [KeyText(last)];
      MultisetSnoc(Keys(front), KeyText(last));
      SumSnoc(multiset(KeyTexts(us)), multiset(ss), multiset(KeyTexts(cs)), KeyText(last));
      if !InTable(t, last) {
        KeyTextsSnoc(cs, DefaultsFor(last, false));
        assert KeyTexts([DefaultsFor(last, false)]) == [KeyText(last)];
        MultisetSnoc(KeyTexts(cs), KeyText(last));
      } else if Skipped(t, last, parse) {
        MultisetSnoc(ss, KeyText(last));
      } else {
        KeyTextsSnoc(us, DefaultsFor(last, true));
        assert KeyTexts([DefaultsFor(last, true)]) == [KeyText(last)];
        MultisetSnoc(KeyTexts(us), KeyText(last));
      }
    }
  }

  // ---------------------------------------------------------------- the whole batch

  ghost predicate Became(before: Table, after: Table, batch: seq<Entry>, parse: Parser, at: int) {
    && (forall e | e in batch :: KeyText(e) in after && after[KeyText(e)] == RecordAfter(before, e, parse, at))
    && (forall k :: k in after <==> k in before || k in Keys(batch))
    && (forall k | k in before && k !in Keys(batch) :: after[k] == before[k])
  }

  lemma TableAfter(t: Table, batch: seq<Entry>, parse: Parser, at: int)
    requires Distinct(batch)
    ensures var u := ApplyUpdates(t, UpdatesOf(t, batch, parse), at);
            && InsertedCount(u, CreationsOf(t, batch), at, None) == |CreationsOf(t, batch)|
            && Became(t, Inserts(u, CreationsOf(t, batch), at), batch, parse, at)
  {
    var u := ApplyUpdates(t, UpdatesOf(t, batch, parse), at);
    var v := Inserts(u, CreationsOf(t, batch), at);
    UpdatesEffect(t, batch, parse, at);
    InsertsEffect(t, u, batch, at);
    forall e | e in batch
      ensures KeyText(e) in v && v[KeyText(e)] == RecordAfter(t, e, parse, at)
    {
      assert UpdatedAt(t, u, e, parse, at) && CreatedAt(t, v, e, at);
    }
  }

  /**
   Without trouble every entry's record becomes what it should, nothing else changes, and every key is handed back
   once.
   */
  lemma ProcessEffect(s: Store, batch: seq<Entry>, parse: Parser, at: int)
    requires Distinct(batch)
    ensures var s' := Process(s, batch, NoTrouble, parse, at);
            && Became(s.table, s'.table, batch, parse, at)
            && s'.retries == s.retries
            && multiset(s'.returned) == multiset(s.returned) + multiset(Keys(batch))
  {
    var us, cs := UpdatesOf(s.table, batch, parse), CreationsOf(s.table, batch);
    TableAfter(s.table, batch, parse, at);
    KeysHandedBack(s.table, batch, parse);
    assert cs[..|cs|] == cs;
    FourParts(s.returned, KeyTexts(us), SkippedOf(s.table, batch, parse), KeyTexts(cs));
  }

  lemma FourParts(a: seq<string>, b: seq<string>, c: seq<string>, d: seq<string>)
    ensures multiset(a + b + c + d) == multiset(a) + (multiset(b) + multiset(c) + multiset(d))
  {
  }

  // ---------------------------------------------------------------- a refused insert

  lemma {:induction false} InsertsGrow(t: Table, ds: seq<Defaults>, at: int)
    ensures forall k | k in t :: k in Inserts(t, ds, at)
    ensures forall i | 0 <= i < |ds| && ds[i].key.Some? :: ds[i].key.value in Inserts(t, ds, at)
  {
    if ds != [] {
      InsertsGrow(t, ds[..|ds| - 1], at);
      forall i | 0 <= i < |ds| && ds[i].key.Some?
        ensures ds[i].key.value in Inserts(t, ds, at)
      {
        if i < |ds| - 1 {
          assert ds[..|ds| - 1][i] == ds[i];
        }
      }
    }
  }

  lemma {:induction false} InsertedWereNew(t: Table, ds: seq<Defaults>, at: int, conflict: Option<nat>, i: nat)
    requires i < InsertedCount(t, ds, at, conflict)
    ensures ds[i].key.Some? && ds[i].key.value !in t
  {
    var front := ds[..|ds| - 1];
    if i < InsertedCount(t, front, at, conflict) {
      InsertedWereNew(t, front, at, conflict, i);
    } else {
      InsertsGrow(t, front, at);
    }
  }

  lemma {:induction false} InsertsAdd(t: Table, ds: seq<Defaults>, at: int, k: string)
    ensures k in Inserts(t, ds, at) <==> k in t || exists i | 0 <= i < |ds| :: ds[i].key == Some(k)
  {
    if ds != [] {
      InsertsAdd(t, ds[..|ds| - 1], at, k);
    }
  }

  /** The key is missing, stored already, used by an earlier row of the batch, or taken by a concurrent writer. */
  ghost predicate RefusedAt(t: Table, ds: seq<Defaults>, conflict: Option<nat>, i: nat)
    requires i < |ds|
  {
    || conflict == Some(i) || ds[i].key.None? || ds[i].key.value in t
    || exists j | 0 <= j < i :: ds[j].key == ds[i].key
  }

  lemma RefusedInFront(t: Table, ds: seq<Defaults>, conflict: Option<nat>, i: nat)
    requires i < |ds| - 1
    ensures RefusedAt(t, ds, conflict, i) <==> RefusedAt(t, ds[..|ds| - 1], conflict, i)
  {
    assert forall j | 0 <= j <= i :: ds[..|ds| - 1][j] == ds[j];
  }

  lemma LastRefused(t: Table, ds: seq<Defaults>, at: int, conflict: Option<nat>)
    requires ds != []
    ensures var front, last := ds[..|ds| - 1], |ds| - 1;
            RefusedAt(t, ds, conflict, last)
            <==> conflict == Some(last) || !Insertable(Inserts(t, front, at), ds[last])
  {
    var front, last := ds[..|ds| - 1], ds[|ds| - 1];
    if last.key.Some? {
      InsertsAdd(t, front, at, last.key.value);
      assert forall j | 0 <= j < |front| :: front[j] == ds[j];
    }
  }

  /** The inserts go on up to the first row that is refused. */
  lemma {:induction false} InsertedExactly(t: Table, ds: seq<Defaults>, at: int, conflict: Option<nat>)
    ensures var n := InsertedCount(t, ds, at, conflict);
            && (forall i | 0 <= i < n :: !RefusedAt(t, ds, conflict, i))
            && (n < |ds| ==> RefusedAt(t, ds, conflict, n))
  {
    if ds != [] {
      var front := ds[..|ds| - 1];
      InsertedExactly(t, front, at, conflict);
      LastRefused(t, ds, at, conflict);
      forall i | 0 <= i < |front|
        ensures RefusedAt(t, ds, conflict, i) <==> RefusedAt(t, front, conflict, i)
      {
        RefusedInFront(t, ds, conflict, i);
      }
    }
  }

  lemma UndoneKeys(t: Table, ds: seq<Defaults>, at: int, conflict: Option<nat>)
    ensures var n := InsertedCount(t, ds, at, conflict);
            (forall k | k in KeyTexts(ds[..n]) :: k in AfterInserts(t, ds, at, conflict)) <==> n == 0 || n == |ds|
  {
    var n := InsertedCount(t, ds, at, conflict);
    var keys := KeyTexts(ds[..n]);
    if n == |ds| {
      InsertsGrow(t, ds, at);
      forall i | 0 <= i < n
        ensures keys[i] in Inserts(t, ds, at)
      {
        InsertedWereNew(t, ds, at, conflict, i);
      }
    } else if n > 0 {
      InsertedWereNew(t, ds, at, conflict, 0);
      assert keys[0] in keys && keys[0] == ds[0].key.value;
    }
  }

  /**
   When an insert is refused the earlier ones of the batch are undone, yet their records are still handed back: the
   created records handed back are all in the table exactly when no insert, or the very first, was refused.
   */
  lemma UndoneInsertsAreHandedBack(s: Store, batch: seq<Entry>, trouble: Trouble, parse: Parser, at: int)
    requires !trouble.UpdateFails?
    ensures var creations := CreationsOf(s.table, batch);
            var updated := ApplyUpdates(s.table, UpdatesOf(s.table, batch, parse), at);
            var n := InsertedCount(updated, creations, at, ConflictOf(trouble));
            (forall k | k in KeyTexts(creations[..n]) :: k in Process(s, batch, trouble, parse, at).table)
            <==> n == 0 || n == |creations|
  {
    UndoneKeys(ApplyUpdates(s.table, UpdatesOf(s.table, batch, parse), at), CreationsOf(s.table, batch), at,
      ConflictOf(trouble));
  }

  // ---------------------------------------------------------------- the smallest case of it

  lemma TwoNewEntries(t: Table, e: Entry, f: Entry, parse: Parser)
    requires !InTable(t, e) && !InTable(t, f)
    ensures CreationsOf(t, [e, f]) == [DefaultsFor(e, false), DefaultsFor(f, false)]
    ensures UpdatesOf(t, [e, f], parse) == [] && SkippedOf(t, [e, f], parse) == []
  {
    assert [e, f][..1] == [e] && [e][..0] == [];
    assert CreationsOf(t, [e]) == [DefaultsFor(e, false)];
    assert !Skipped(t, e, parse) && !Skipped(t, f, parse);
    assert SkippedOf(t, [e], parse) == SkippedOf(t, [e][..0], parse) == [];
    assert UpdatesOf(t, [e], parse) == [];
  }

  lemma SecondRefused(t: Table, d: Defaults, e: Defaults, at: int)
    requires d.key.Some? && d.key.value !in t
    ensures InsertedCount(t, [d, e], at, Some(1)) == 1
  {
    assert [d, e][..1] == [d] && [d][..0] == [];
    assert Inserts(t, [], at) == t;
    assert InsertedCount(t, [d], at, Some(1)) == 1;
  }

  const FIRST: Entry := map["key" := Text("a")]

  const SECOND: Entry := map["key" := Text("b")]

  /** Of two new entries the second is refused: the first is handed back, and has no row. */
  lemma AnUndoneKeyIsHandedBack(t: Table, parse: Parser, at: int)
    requires "a" !in t && "b" !in t
    ensures Process(Store(t, [], []), [FIRST, SECOND], InsertConflict(1), parse, at) == Store(t, ["a"], [])
  {
    assert KeyOf(FIRST) == Some("a") && KeyOf(SECOND) == Some("b");
    var d, e := DefaultsFor(FIRST, false), DefaultsFor(SECOND, false);
    TwoNewEntries(t, FIRST, SECOND, parse);
    SecondRefused(t, d, e, at);
    assert ApplyUpdates(t, [], at) == t;
    assert [d, e][..1] == [d] && KeyTexts([d]) == ["a"];
  }
}
