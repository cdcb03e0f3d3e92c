/** What one search result does to its record, field by field, and in the field names of the payload. */
module EntryEffects {
  import opened Prelude
  import opened ObjectIds
  import opened ContentRefs
  import opened ContentSync

  // ---------------------------------------------------------------- reading an entry

  /** Only the six empty values are not truthy. */
  lemma FalsyExactly(v: Json)
    ensures !Truthy(v) <==> v in {Null, Bool(false), Number(0), Text(""), Items([]), Fields(map[])}
  {
    match v
    case Null | Bool(_) | Number(_) | Text(_) | Items(_) | Fields(_) =>
  }

  /** A field that is there with a text other than the empty one. */
  ghost predicate Says(e: Entry, name: string, text: string) {
    name in e && e[name] == Text(text) && text != ""
  }

  /** A field that is there and neither empty, zero, false nor null. */
  ghost predicate Given(e: Entry, name: string) {
    name in e && e[name] !in {Null, Bool(false), Number(0), Text(""), Items([]), Fields(map[])}
  }

  /** The content key is the entry's key or, when that is not given, its uuid. */
  lemma KeyExactly(e: Entry, k: string)
    requires k != ""
    ensures KeyOf(e) == Some(k) <==> Says(e, "key", k) || (!Given(e, "key") && Says(e, "uuid", k))
  {
    FalsyExactly(Field(e, "key"));
  }

  /** The type, and for a run the course it belongs to, come from the aggregation key. */
  lemma TypeAndParent(e: Entry, ref: ContentRef)
    ensures "aggregation_key" in e && e["aggregation_key"] == Text(AggregationKeyFor(ref)) ==>
              && TypeOf(e) == TypeName(ref.contentType)
              && ParentOf(e) == if ref.contentType.CourseRun? then Some(ref.key) else None
    ensures "aggregation_key" !in e ==> TypeOf(e) == "" && ParentOf(e) == None
  {
    AggregationKeyRoundTrip(ref);
    if !ref.contentType.CourseRun? {
      TypeNameInjective(ref.contentType, CourseRun);
    }
  }

  // ---------------------------------------------------------------- skipping

  /** Both carry a `modified` text that parses, to the same time. */
  ghost predicate SameModified(e: Entry, json: Entry, parse: Parser) {
    exists x, y :: Says(e, "modified", x) && Says(json, "modified", y) && parse(x).Some? && parse(x) == parse(y)
  }

  /** An entry is skipped exactly when the stored record under its key is a course of the same `modified` time. */
  lemma SkippedExactly(t: Table, e: Entry, k: string, parse: Parser)
    requires KeyOf(e) == Some(k)
    ensures Skipped(t, e, parse) <==> k in t && t[k].contentType == "course" && SameModified(e, t[k].json, parse)
  {
    if Skipped(t, e, parse) {
      assert Says(e, "modified", Field(e, "modified").s) && Says(t[k].json, "modified", Field(t[k].json, "modified").s);
    }
  }

  // ---------------------------------------------------------------- what the record becomes

  /** The fields an existing course takes from an entry. */
  const TAKEN: set<string> :=
    {"aggregation_key", "content_type", "seat_types", "end_date", "course_ends", "languages", "modified"}

  lemma TakenExactly(name: string)
    ensures name in PLUCKED || name == MODIFIED <==> name in TAKEN
  {
  }

  /** `name` is a field of `after` exactly if `taken` or a field of `before`, with the value of `e` or of `before`. */
  ghost predicate FieldFrom(before: Entry, after: Entry, e: Entry, name: string, taken: bool) {
    && (name in after <==> taken || name in before)
    && (taken ==> name in e && name in after && after[name] == e[name])
    && (!taken && name in before ==> name in after && after[name] == before[name])
  }

  /** A new record takes the whole entry. */
  lemma NewRecord(t: Table, e: Entry, k: string, parse: Parser, at: int)
    requires KeyOf(e) == Some(k) && k !in t
    ensures var after := RecordAfter(t, e, parse, at);
            && after.json == e && after.uuid == (if "uuid" in e then e["uuid"] else Null)
            && after.parent == ParentOf(e) && after.contentType == TypeOf(e) && after.modified == at
  {
  }

  /** A skipped record stays as it is; any other existing one gets a new parent, type and time but keeps its uuid. */
  lemma ExistingRecord(t: Table, e: Entry, k: string, parse: Parser, at: int)
    requires KeyOf(e) == Some(k) && k in t
    ensures var after := RecordAfter(t, e, parse, at);
            if t[k].contentType == "course" && SameModified(e, t[k].json, parse) then after == t[k]
            else && after.uuid == t[k].uuid && after.parent == ParentOf(e)
                 && after.contentType == TypeOf(e) && after.modified == at
  {
    SkippedExactly(t, e, k, parse);
  }

  /**
   Unless it is skipped, a record that the entry says is a course takes seven fields, as far as they are given; a
   program, a run or a pathway takes every field of the entry. No other field changes.
   */
  lemma ExistingFields(t: Table, e: Entry, k: string, parse: Parser, at: int, name: string)
    requires KeyOf(e) == Some(k) && k in t
    requires !(t[k].contentType == "course" && SameModified(e, t[k].json, parse))
    ensures var taken := if TypeOf(e) == "course" then name in TAKEN && Given(e, name) else name in e;
            FieldFrom(t[k].json, RecordAfter(t, e, parse, at).json, e, name, taken)
  {
    SkippedExactly(t, e, k, parse);
    MinimalHas(e, name);
    TakenExactly(name);
    FalsyExactly(Field(e, name));
  }
}
