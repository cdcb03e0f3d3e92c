/**
 Taking one batch of search results into the content table: which entries are skipped, updated or created, what an
 update writes, and what a database error does to the batch.
 */
module ContentSync {
  import opened Prelude
  import opened ObjectIds
  import opened ContentRefs

  /** A JSON value. */
  datatype Json =
    | Null
    | Bool(b: bool)
    | Number(n: int)
    | Text(s: string)
    | Items(items: seq<Json>)
    | Fields(fields: map<string, Json>)

  type Entry = map<string, Json>

  function Field(e: Entry, name: string): Json {
    if name in e then e[name] else Null
  }

  predicate Truthy(v: Json) {
    match v
    case Null => false
    case Bool(b) => b
    case Number(n) => n != 0
    case Text(s) => s != ""
    case Items(items) => items != []
    case Fields(fields) => fields != map[]
  }

  function TextOf(v: Json): string {
    if v.Text? then v.s else ""
  }

  /** The key, or the uuid of something that has none. */
  function KeyOf(e: Entry): Option<string> {
    var v := if Truthy(Field(e, "key")) then Field(e, "key") else Field(e, "uuid");
    if v.Text? then Some(v.s) else None
  }

  function TypeOf(e: Entry): string {
    PartitionAggregationKey(TextOf(Field(e, "aggregation_key"))).0
  }

  function ParentOf(e: Entry): Option<string> {
    var (head, tail) := PartitionAggregationKey(TextOf(Field(e, "aggregation_key")));
    if head == TypeName(CourseRun) then Some(tail) else None
  }

  datatype Record = Record(uuid: Json, parent: Option<string>, contentType: string, json: Entry, modified: int)

  type Table = map<string, Record>

  const COURSE := "course"

  const PLUCKED: seq<string> :=
    ["aggregation_key", "content_type", "seat_types", "end_date", "course_ends", "languages"]

  const MODIFIED := "modified"

  /** Date parsing is not part of this model: two texts denote the same instant when they parse to the same number. */
  type Parser = string -> Option<int>

  function ParseTime(v: Json, parse: Parser): Option<int> {
    if v.Text? && v.s != "" then parse(v.s) else None
  }

  predicate ShouldSkip(e: Entry, r: Record, parse: Parser) {
    && r.contentType == COURSE
    && ParseTime(Field(e, MODIFIED), parse).Some?
    && ParseTime(Field(e, MODIFIED), parse) == ParseTime(Field(r.json, MODIFIED), parse)
  }

  // ---------------------------------------------------------------- defaults

  datatype Defaults = Defaults(
    uuid: Json,
    key: Option<string>,
    parent: Option<string>,
    contentType: string,
    json: Option<Entry>)

  /** The truthy fields of an entry among the first n plucked ones. */
  function Pluck(e: Entry, n: nat): Entry
    requires n <= |PLUCKED|
  {
    if n == 0 then map[]
    else
      var rest := Pluck(e, n - 1);
      if Truthy(Field(e, PLUCKED[n - 1])) then rest[PLUCKED[n - 1] := Field(e, PLUCKED[n - 1])] else rest
  }

  function Minimal(e: Entry): Entry {
    var plucked := Pluck(e, |PLUCKED|);
    if Truthy(Field(e, MODIFIED)) then plucked[MODIFIED := Field(e, MODIFIED)] else plucked
  }

  /** An existing course takes only a few fields; anything else takes the whole entry. */
  function JsonUpdate(e: Entry, known: bool): Option<Entry> {
    if TypeOf(e) == COURSE && known then
      if Minimal(e) != map[] then Some(Minimal(e)) else None
    else Some(e)
  }

  function DefaultsFor(e: Entry, known: bool): Defaults {
    Defaults(Field(e, "uuid"), KeyOf(e), ParentOf(e), TypeOf(e), JsonUpdate(e, known))
  }

  method GetDefaults(e: Entry, known: bool) returns (d: Defaults)
    ensures d == DefaultsFor(e, known)
  {
    d := Defaults(Field(e, "uuid"), KeyOf(e), ParentOf(e), TypeOf(e), None);
    if TypeOf(e) == COURSE && known {
      var minimal: Entry := map[];
      for i := 0 to |PLUCKED|
        invariant minimal == Pluck(e, i)
      {
        var value := Field(e, PLUCKED[i]);
        if Truthy(value) {
          minimal := minimal[PLUCKED[i] := value];
        }
      }
      var modified := Field(e, MODIFIED);
      if Truthy(modified) {
        minimal := minimal[MODIFIED := modified];
      }
      if minimal != map[] {
        d := d.(json := Some(minimal));
      }
    } else if !known || TypeOf(e) != COURSE {
      d := d.(json := Some(e));
    }
  }

  lemma {:induction false} PluckHas(e: Entry, n: nat, name: string)
    requires n <= |PLUCKED|
    ensures name in Pluck(e, n) <==> name in PLUCKED[..n] && Truthy(Field(e, name))
    ensures name in Pluck(e, n) ==> Pluck(e, n)[name] == Field(e, name)
  {
    if n > 0 {
      PluckHas(e, n - 1, name);
      assert PLUCKED[..n] == PLUCKED[..n - 1] + [PLUCKED[n - 1]];
    }
  }

  /** What an existing course takes from an entry: exactly the truthy values of the plucked fields and of `modified`. */
  lemma MinimalHas(e: Entry, name: string)
    ensures name in Minimal(e) <==> (name in PLUCKED || name == MODIFIED) && Truthy(Field(e, name))
    ensures name in Minimal(e) ==> Minimal(e)[name] == Field(e, name)
  {
    PluckHas(e, |PLUCKED|, name);
    assert PLUCKED[..|PLUCKED|] == PLUCKED;
    assert MODIFIED !in PLUCKED;
  }

  // ---------------------------------------------------------------- what one entry does to its record

  /** JSON is merged, other attributes replaced. The stored uuid stays: it is not among the columns written. */
  function UpdatedRecord(r: Record, d: Defaults, at: int): Record {
    Record(r.uuid, d.parent, d.contentType, if d.json.Some? then r.json + d.json.value else r.json, at)
  }

  function CreatedRecord(d: Defaults, at: int): Record {
    Record(d.uuid, d.parent, d.contentType, if d.json.Some? then d.json.value else map[], at)
  }

  predicate InTable(t: Table, e: Entry) {
    KeyOf(e).Some? && KeyOf(e).value in t
  }

  predicate Skipped(t: Table, e: Entry, parse: Parser) {
    InTable(t, e) && ShouldSkip(e, t[KeyOf(e).value], parse)
  }

  /** The record an entry leaves behind when nothing goes wrong. */
  function RecordAfter(t: Table, e: Entry, parse: Parser, at: int): Record {
    if !InTable(t, e) then CreatedRecord(DefaultsFor(e, false), at)
    else if Skipped(t, e, parse) then t[KeyOf(e).value]
    else UpdatedRecord(t[KeyOf(e).value], DefaultsFor(e, true), at)
  }

  /** Updating an existing course leaves every field alone but the plucked ones and `modified`, and drops none. */
  lemma CourseUpdateKeepsOtherFields(t: Table, e: Entry, parse: Parser, at: int, name: string)
    requires InTable(t, e) && TypeOf(e) == COURSE
    ensures var before, after := t[KeyOf(e).value].json, RecordAfter(t, e, parse, at).json;
            && before.Keys <= after.Keys
            && (name !in PLUCKED && name != MODIFIED ==> Field(after, name) == Field(before, name))
            && (!Truthy(Field(e, name)) ==> Field(after, name) == Field(before, name))
            && (!Skipped(t, e, parse) && (name in PLUCKED || name == MODIFIED) && Truthy(Field(e, name))
                ==> Field(after, name) == Field(e, name))
  {
    MinimalHas(e, name);
  }

  /** A course entry whose `modified` parses is skipped the next time, whatever it found the first time. */
  lemma SettledCourseIsSkipped(t: Table, e: Entry, parse: Parser, at: int)
    requires TypeOf(e) == COURSE && ParseTime(Field(e, MODIFIED), parse).Some?
    ensures ShouldSkip(e, RecordAfter(t, e, parse, at), parse)
  {
    MinimalHas(e, MODIFIED);
    assert Truthy(Field(e, MODIFIED));
  }

  // ---------------------------------------------------------------- partitioning a batch

  function UpdatesOf(t: Table, batch: seq<Entry>, parse: Parser): seq<Defaults> {
    if batch == [] then []
    else
      var front, last := UpdatesOf(t, batch[..|batch| - 1], parse), batch[|batch| - 1];
      if InTable(t, last) && !Skipped(t, last, parse) then front + [DefaultsFor(last, true)] else front
  }

  function CreationsOf(t: Table, batch: seq<Entry>): seq<Defaults> {
    if batch == [] then []
    else
      var front, last := CreationsOf(t, batch[..|batch| - 1]), batch[|batch| - 1];
      if !InTable(t, last) then front + [DefaultsFor(last, false)] else front
  }

  function SkippedOf(t: Table, batch: seq<Entry>, parse: Parser): seq<string> {
    if batch == [] then []
    else
      var front, last := SkippedOf(t, batch[..|batch| - 1], parse), batch[|batch| - 1];
      if Skipped(t, last, parse) then front + [KeyOf(last).value] else front
  }

  lemma PartitionNext(t: Table, batch: seq<Entry>, parse: Parser, i: nat)
    requires i < |batch|
    ensures UpdatesOf(t, batch[..i + 1], parse)
            == UpdatesOf(t, batch[..i], parse)
               + if InTable(t, batch[i]) && !Skipped(t, batch[i], parse) then [DefaultsFor(batch[i], true)] else []
    ensures SkippedOf(t, batch[..i + 1], parse)
            == SkippedOf(t, batch[..i], parse) + if Skipped(t, batch[i], parse) then [KeyOf(batch[i]).value] else []
    ensures CreationsOf(t, batch[..i + 1])
            == CreationsOf(t, batch[..i]) + if InTable(t, batch[i]) then [] else [DefaultsFor(batch[i], false)]
  {
    assert batch[..i + 1][..i] == batch[..i];
  }

  method Partition(t: Table, batch: seq<Entry>, parse: Parser)
      returns (updates: seq<Defaults>, creations: seq<Defaults>, skipped: seq<string>)
    ensures updates == UpdatesOf(t, batch, parse)
    ensures creations == CreationsOf(t, batch)
    ensures skipped == SkippedOf(t, batch, parse)
    ensures |updates| + |creations| + |skipped| == |batch|
  {
    updates, creations, skipped := [], [], [];
    for i := 0 to |batch|
      invariant updates == UpdatesOf(t, batch[..i], parse) && skipped == SkippedOf(t, batch[..i], parse)
    {
      PartitionNext(t, batch, parse, i);
      var e := batch[i];
      if !InTable(t, e) {
        continue;
      }
      if ShouldSkip(e, t[KeyOf(e).value], parse) {
        skipped := skipped + [KeyOf(e).value];
        continue;
      }
      var d := GetDefaults(e, true);
      updates := updates + [d];
    }
    for i := 0 to |batch|
      invariant creations == CreationsOf(t, batch[..i])
    {
      PartitionNext(t, batch, parse, i);
      if !InTable(t, batch[i]) {
        var d := GetDefaults(batch[i], false);
        creations := creations + [d];
      }
    }
    assert batch[..|batch|] == batch;
    PartitionCounts(t, batch, parse);
  }

  /** The safeguard in the code never fires: every entry is updated, created or skipped. */
  lemma {:induction false} PartitionCounts(t: Table, batch: seq<Entry>, parse: Parser)
    ensures |UpdatesOf(t, batch, parse)| + |CreationsOf(t, batch)| + |SkippedOf(t, batch, parse)| == |batch|
  {
    if batch != [] {
      PartitionCounts(t, batch[..|batch| - 1], parse);
    }
  }

  // ---------------------------------------------------------------- writing

  function ApplyUpdate(t: Table, d: Defaults, at: int): Table {
    if d.key.Some? && d.key.value in t then t[d.key.value := UpdatedRecord(t[d.key.value], d, at)] else t
  }

  function ApplyUpdates(t: Table, ds: seq<Defaults>, at: int): Table {
    if ds == [] then t else ApplyUpdate(ApplyUpdates(t, ds[..|ds| - 1], at), ds[|ds| - 1], at)
  }

  predicate Insertable(t: Table, d: Defaults) {
    d.key.Some? && d.key.value !in t
  }

  function Insert(t: Table, d: Defaults, at: int): Table {
    if d.key.Some? then t[d.key.value := CreatedRecord(d, at)] else t
  }

  function Inserts(t: Table, ds: seq<Defaults>, at: int): Table {
    if ds == [] then t else Insert(Inserts(t, ds[..|ds| - 1], at), ds[|ds| - 1], at)
  }

  /**
   How many rows go in before one is refused: because its key is missing or taken, or because of a concurrent writer.
   */
  function InsertedCount(t: Table, ds: seq<Defaults>, at: int, conflict: Option<nat>): (n: nat)
    ensures n <= |ds|
  {
    if ds == [] then 0
    else
      var front := ds[..|ds| - 1];
      var n := InsertedCount(t, front, at, conflict);
      if n < |front| || conflict == Some(|front|) || !Insertable(Inserts(t, front, at), ds[|front|]) then n else n + 1
  }

  function KeyTexts(ds: seq<Defaults>): (r: seq<string>)
    ensures |r| == |ds| && forall i :: 0 <= i < |r| ==> r[i] == if ds[i].key.Some? then ds[i].key.value else ""
  {
    seq(|ds|, i requires 0 <= i < |ds| => if ds[i].key.Some? then ds[i].key.value else "")
  }

  /**
   What the database does during one call: nothing unusual, an error in the update transaction, or a refused insert.
   */
  datatype Trouble = NoTrouble | UpdateFails | InsertConflict(at: nat)

  /** The content table, the keys of the records handed back so far, and the entries to retry. */
  datatype Store = Store(table: Table, returned: seq<string>, retries: seq<Entry>)

  /** An update error undoes the transaction and queues the whole batch; a refused insert undoes the inserts only. */
  function Process(s: Store, batch: seq<Entry>, trouble: Trouble, parse: Parser, at: int): Store {
    if trouble.UpdateFails? then s.(retries := s.retries + batch)
    else
      var updates, creations := UpdatesOf(s.table, batch, parse), CreationsOf(s.table, batch);
      var updated := ApplyUpdates(s.table, updates, at);
      Store(AfterInserts(updated, creations, at, ConflictOf(trouble)),
            s.returned + KeyTexts(updates) + SkippedOf(s.table, batch, parse)
            + KeyTexts(creations[..InsertedCount(updated, creations, at, ConflictOf(trouble))]),
            s.retries)
  }

  function ConflictOf(trouble: Trouble): Option<nat> {
    if trouble.InsertConflict? then Some(trouble.at) else None
  }

  /** All the rows go in, or none. */
  function AfterInserts(t: Table, ds: seq<Defaults>, at: int, conflict: Option<nat>): Table {
    if InsertedCount(t, ds, at, conflict) == |ds| then Inserts(t, ds, at) else t
  }

  class ContentStore {
    var table: Table
    var returned: seq<string>
    var retries: seq<Entry>

    function Value(): Store
      reads this
    {
      Store(table, returned, retries)
    }

    constructor (table: Table)
      ensures Value() == Store(table, [], [])
    {
      this.table, returned, retries := table, [], [];
    }

    method UpdateOne(d: Defaults, at: int)
      requires d.key.Some? && d.key.value in table
      modifies this`table
      ensures table == ApplyUpdate(old(table), d, at) && table.Keys == old(table).Keys
    {
      var record := table[d.key.value];
      var json := if d.json.Some? then record.json + d.json.value else record.json;
      table := table[d.key.value := Record(record.uuid, d.parent, d.contentType, json, at)];
    }

    method UpdateExisting(ds: seq<Defaults>, at: int) returns (keys: seq<string>)
      requires forall d | d in ds :: d.key.Some? && d.key.value in table
      modifies this`table
      ensures table == ApplyUpdates(old(table), ds, at) && keys == KeyTexts(ds)
    {
      keys := [];
      for i := 0 to |ds|
        invariant table == ApplyUpdates(old(table), ds[..i], at) && table.Keys == old(table).Keys
        invariant keys == KeyTexts(ds[..i])
      {
        UpdatesGoOn(old(table), ds, at, i);
        assert ds[i] in ds;
        UpdateOne(ds[i], at);
        keys := keys + [ds[i].key.value];
      }
      assert ds[..|ds|] == ds;
    }

    /** One transaction: the inserts build up a pending table, which is committed only if none is refused. */
    method CreateNew(ds: seq<Defaults>, conflict: Option<nat>, at: int) returns (keys: seq<string>)
      modifies this`table
      ensures table == AfterInserts(old(table), ds, at, conflict)
      ensures keys == KeyTexts(ds[..InsertedCount(old(table), ds, at, conflict)])
    {
      var pending := table;
      keys := [];
      for i := 0 to |ds|
        invariant table == old(table) && pending == Inserts(table, ds[..i], at)
        invariant i <= InsertedCount(table, ds, at, conflict) && keys == KeyTexts(ds[..i])
      {
        OneMoreInsert(table, ds, at, conflict, i);
        if conflict == Some(i) || ds[i].key.None? || ds[i].key.value in pending {
          return;
        }
        pending := pending[ds[i].key.value := CreatedRecord(ds[i], at)];
        keys := keys + [ds[i].key.value];
      }
      assert ds[..|ds|] == ds;
      table := pending;
    }

    method UpdateOrCreate(batch: seq<Entry>, trouble: Trouble, parse: Parser, at: int)
      modifies this
      ensures Value() == Process(old(Value()), batch, trouble, parse, at)
    {
      if trouble.UpdateFails? {
        retries := retries + batch;
        return;
      }
      var updates, creations, skipped := Partition(table, batch, parse);
      UpdatesAreInTable(table, batch, parse);
      var updated := UpdateExisting(updates, at);
      returned := returned + updated + skipped;
      if creations != [] {
        var created := CreateNew(creations, ConflictOf(trouble), at);
        returned := returned + created;
      }
    }
  }

  lemma {:induction false} UpdatesAreInTable(t: Table, batch: seq<Entry>, parse: Parser)
    ensures forall d | d in UpdatesOf(t, batch, parse) :: d.key.Some? && d.key.value in t
  {
    if batch != [] {
      UpdatesAreInTable(t, batch[..|batch| - 1], parse);
    }
  }

  lemma UpdatesGoOn(t: Table, ds: seq<Defaults>, at: int, i: nat)
    requires i < |ds|
    ensures ApplyUpdates(t, ds[..i + 1], at) == ApplyUpdate(ApplyUpdates(t, ds[..i], at), ds[i], at)
    ensures ds[i].key.Some? ==> KeyTexts(ds[..i + 1]) == KeyTexts(ds[..i]) + [ds[i].key.value]
  {
    assert ds[..i + 1][..i] == ds[..i];
  }

  lemma InsertsGoOn(t: Table, ds: seq<Defaults>, at: int, i: nat)
    requires i < |ds|
    ensures Inserts(t, ds[..i + 1], at) == Insert(Inserts(t, ds[..i], at), ds[i], at)
  {
    assert ds[..i + 1][..i] == ds[..i];
  }

  /** One more row: it is refused, and the count stops there with nothing committed, or it goes in. */
  lemma OneMoreInsert(t: Table, ds: seq<Defaults>, at: int, conflict: Option<nat>, i: nat)
    requires i < |ds| && i <= InsertedCount(t, ds, at, conflict)
    ensures conflict == Some(i) || !Insertable(Inserts(t, ds[..i], at), ds[i]) ==>
              i == InsertedCount(t, ds, at, conflict) && AfterInserts(t, ds, at, conflict) == t
    ensures !(conflict == Some(i) || !Insertable(Inserts(t, ds[..i], at), ds[i])) ==>
              && i < InsertedCount(t, ds, at, conflict)
              && Inserts(t, ds[..i + 1], at) == Insert(Inserts(t, ds[..i], at), ds[i], at)
              && KeyTexts(ds[..i + 1]) == KeyTexts(ds[..i]) + [ds[i].key.value]
  {
    CountMeans(t, ds, at, conflict, i);
    InsertsGoOn(t, ds, at, i);
  }

  /** The count stops at the first row that is refused. */
  lemma {:induction false} CountMeans(t: Table, ds: seq<Defaults>, at: int, conflict: Option<nat>, i: nat)
    requires i < |ds| && i <= InsertedCount(t, ds, at, conflict)
    ensures i == InsertedCount(t, ds, at, conflict)
            <==> conflict == Some(i) || !Insertable(Inserts(t, ds[..i], at), ds[i])
  {
    var front := ds[..|ds| - 1];
    if i < |front| {
      assert front[..i] == ds[..i];
      CountMeans(t, front, at, conflict, i);
    }
  }
}
