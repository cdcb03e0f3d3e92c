/** Naming a content record: its type and key, and the aggregation key that joins the two. */
module ContentRefs {
  import opened ObjectIds

  datatype ContentRef = ContentRef(contentType: ContentType, key: string)

  function AggregationKeyFor(ref: ContentRef): string {
    TypeName(ref.contentType) + ":" + ref.key
  }

  lemma AggregationKeysAre(key: string)
    ensures AggregationKeyFor(ContentRef(Course, key)) == "course:" + key
    ensures AggregationKeyFor(ContentRef(CourseRun, key)) == "courserun:" + key
    ensures AggregationKeyFor(ContentRef(Program, key)) == "program:" + key
    ensures AggregationKeyFor(ContentRef(LearnerPathway, key)) == "learnerpathway:" + key
  {
    assert TypeName(Course) + ":" == "course:" && TypeName(CourseRun) + ":" == "courserun:";
    assert TypeName(Program) + ":" == "program:" && TypeName(LearnerPathway) + ":" == "learnerpathway:";
  }

  /** Everything before the first colon, and everything after it (nothing when there is none). */
  function PartitionAggregationKey(s: string): (string, string) {
    if s == "" then ("", "")
    else if s[0] == ':' then ("", s[1..])
    else
      var (head, tail) := PartitionAggregationKey(s[1..]);
      ([s[0]] + head, tail)
  }

  lemma {:induction false} PartitionAtFirstColon(head: string, tail: string)
    requires ':' !in head
    ensures PartitionAggregationKey(head + ":" + tail) == (head, tail)
  {
    var s := head + ":" + tail;
    if head == "" {
      assert s[1..] == tail;
    } else {
      PartitionAtFirstColon(head[1..], tail);
      assert s[1..] == head[1..] + ":" + tail;
      assert s[0] == head[0] && [head[0]] + head[1..] == head;
    }
  }

  /** Keys may contain colons; the type is still recovered, and so is the whole key. */
  lemma AggregationKeyRoundTrip(ref: ContentRef)
    ensures PartitionAggregationKey(AggregationKeyFor(ref)) == (TypeName(ref.contentType), ref.key)
  {
    assert ':' !in TypeName(ref.contentType);
    PartitionAtFirstColon(TypeName(ref.contentType), ref.key);
  }

  lemma AggregationKeyInjective(a: ContentRef, b: ContentRef)
    ensures AggregationKeyFor(a) == AggregationKeyFor(b) <==> a == b
  {
    AggregationKeyRoundTrip(a);
    AggregationKeyRoundTrip(b);
    TypeNameInjective(a.contentType, b.contentType);
  }

  lemma TypeNameInjective(a: ContentType, b: ContentType)
    ensures TypeName(a) == TypeName(b) <==> a == b
  {
    assert |TypeName(Course)| == 6 && |TypeName(CourseRun)| == 9;
    assert |TypeName(Program)| == 7 && |TypeName(LearnerPathway)| == 14;
  }
}
