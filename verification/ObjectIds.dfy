/** How a content record's Algolia objectIDs are printed, and how to read them back. */
module ObjectIds {
  import opened Prelude

  datatype ContentType = Course | CourseRun | Program | LearnerPathway

  datatype Language = English | Spanish

  datatype ShardKind = CatalogUuids | CustomerUuids | QueryUuids

  /** What an objectID says: whose shard it is, in which language, which facet it carries, which slice. */
  datatype ShardId = ShardId(contentType: ContentType, uuid: string, language: Language, kind: ShardKind, index: nat)

  function TypeName(t: ContentType): string {
    match t
    case Course => "course"
    case CourseRun => "courserun"
    case Program => "program"
    case LearnerPathway => "learnerpathway"
  }

  function LanguageSuffix(l: Language): string {
    match l
    case English => ""
    case Spanish => "-es"
  }

  function KindInfix(k: ShardKind): string {
    match k
    case CatalogUuids => "-catalog-uuids-"
    case CustomerUuids => "-customer-uuids-"
    case QueryUuids => "-catalog-query-uuids-"
  }

  // ---------------------------------------------------------------- decimal numbers

  function DigitChar(d: nat): char
    requires d < 10
  {
    '0' + d as char
  }

  predicate IsDigit(c: char) {
    '0' <= c <= '9'
  }

  function Decimal(n: nat): (s: string)
    ensures s != [] && (|s| > 1 ==> s[0] != '0')
  {
    if n < 10 then [DigitChar(n)] else Decimal(n / 10) + [DigitChar(n % 10)]
  }

  /** Reads a canonical decimal: digits only, no leading zero. */
  function ParseDecimal(s: string): Option<nat> {
    if s == [] || !IsDigit(s[|s| - 1]) then None
    else
      var d := (s[|s| - 1] - '0') as nat;
      if |s| == 1 then Some(d)
      else
        match ParseDecimal(s[..|s| - 1])
        case Some(m) => if m == 0 then None else Some(10 * m + d)
        case None => None
  }

  lemma {:induction false} ParseOfDecimal(n: nat)
    ensures ParseDecimal(Decimal(n)) == Some(n)
  {
    if n >= 10 {
      ParseOfDecimal(n / 10);
      assert Decimal(n)[..|Decimal(n)| - 1] == Decimal(n / 10);
    }
  }

  lemma {:induction false} DecimalOfParse(s: string)
    requires ParseDecimal(s).Some?
    ensures Decimal(ParseDecimal(s).value) == s
  {
    var d := (s[|s| - 1] - '0') as nat;
    assert s == s[..|s| - 1] + [DigitChar(d)];
    if |s| > 1 {
      DecimalOfParse(s[..|s| - 1]);
      var m := ParseDecimal(s[..|s| - 1]).value;
      assert (10 * m + d) / 10 == m && (10 * m + d) % 10 == d;
    }
  }

  /** Digit by digit, most significant first. */
  lemma DecimalDigits(m: nat, d: nat)
    requires d < 10
    ensures Decimal(d) == ["0123456789"[d]]
    ensures m > 0 ==> Decimal(10 * m + d) == Decimal(m) + ["0123456789"[d]]
  {
    assert (10 * m + d) / 10 == m && (10 * m + d) % 10 == d;
  }

  // ---------------------------------------------------------------- UUID text

  predicate IsHexDigit(c: char) {
    '0' <= c <= '9' || 'a' <= c <= 'f'
  }

  /** The 36-character lower-case text form of section 4 of RFC 9562. */
  predicate IsUuid(s: string) {
    |s| == 36
    && forall i :: 0 <= i < 36 ==> if i in {8, 13, 18, 23} then s[i] == '-' else IsHexDigit(s[i])
  }

  // ---------------------------------------------------------------- printing

  /** `get_algolia_object_id`, with the text "None" that an f-string makes of a missing id. */
  function BaseText(t: ContentType, uuid: Option<string>): string {
    match uuid
    case Some(u) => if u == "" then "None" else TypeName(t) + "-" + u
    case None => "None"
  }

  /** The objectID of one slice of one facet of a record whose base id prints as `base`. */
  function SliceText(base: string, l: Language, k: ShardKind, index: nat): string {
    base + LanguageSuffix(l) + KindInfix(k) + Decimal(index)
  }

  function Print(id: ShardId): string {
    SliceText(BaseText(id.contentType, Some(id.uuid)), id.language, id.kind, id.index)
  }

  /** The texts in which objectIDs are printed. */
  lemma PrintedAs(t: ContentType, u: string, l: Language, k: ShardKind, n: nat)
    requires u != ""
    ensures Print(ShardId(t, u, l, k, n))
            == (match t
                case Course => "course-"
                case CourseRun => "courserun-"
                case Program => "program-"
                case LearnerPathway => "learnerpathway-")
               + u
               + (match l
                  case English => ""
                  case Spanish => "-es")
               + (match k
                  case CatalogUuids => "-catalog-uuids-"
                  case CustomerUuids => "-customer-uuids-"
                  case QueryUuids => "-catalog-query-uuids-")
               + Decimal(n)
  {
    assert TypeName(Course) + "-" == "course-" && TypeName(CourseRun) + "-" == "courserun-";
    assert TypeName(Program) + "-" == "program-" && TypeName(LearnerPathway) + "-" == "learnerpathway-";
  }

  // ---------------------------------------------------------------- reading back

  function ParseType(s: string): Option<(ContentType, string)> {
    if "course-" <= s then Some((Course, s[|"course-"|..]))
    else if "courserun-" <= s then Some((CourseRun, s[|"courserun-"|..]))
    else if "program-" <= s then Some((Program, s[|"program-"|..]))
    else if "learnerpathway-" <= s then Some((LearnerPathway, s[|"learnerpathway-"|..]))
    else None
  }

  function ParseLanguage(s: string): (Language, string) {
    if "-es" <= s then (Spanish, s[|"-es"|..]) else (English, s)
  }

  function ParseKind(s: string): Option<(ShardKind, string)> {
    if KindInfix(CatalogUuids) <= s then Some((CatalogUuids, s[|KindInfix(CatalogUuids)|..]))
    else if KindInfix(CustomerUuids) <= s then Some((CustomerUuids, s[|KindInfix(CustomerUuids)|..]))
    else if KindInfix(QueryUuids) <= s then Some((QueryUuids, s[|KindInfix(QueryUuids)|..]))
    else None
  }

  /** What follows the uuid: language, facet kind and slice number. */
  function ParseTail(s: string): Option<(Language, ShardKind, nat)> {
    var (l, rest) := ParseLanguage(s);
    match ParseKind(rest)
    case None => None
    case Some((k, digits)) =>
      match ParseDecimal(digits)
      case None => None
      case Some(n) => Some((l, k, n))
  }

  function Parse(s: string): Option<ShardId> {
    match ParseType(s)
    case None => None
    case Some((t, afterType)) =>
      if |afterType| < 36 || !IsUuid(afterType[..36]) then None
      else
        match ParseTail(afterType[36..])
        case None => None
        case Some((l, k, n)) => Some(ShardId(t, afterType[..36], l, k, n))
  }

  lemma TypeRoundTrip(t: ContentType, rest: string)
    ensures ParseType(TypeName(t) + "-" + rest) == Some((t, rest))
  {
    var s := TypeName(t) + "-" + rest;
    match t
    case Course =>
      assert "course-" <= s;
    case CourseRun =>
      assert s[6] == 'r';
      assert "courserun-" <= s;
    case Program =>
      assert s[0] == 'p';
      assert "program-" <= s;
    case LearnerPathway =>
      assert s[0] == 'l';
      assert "learnerpathway-" <= s;
  }

  lemma KindRoundTrip(k: ShardKind, rest: string)
    ensures ParseKind(KindInfix(k) + rest) == Some((k, rest))
    ensures ParseLanguage(KindInfix(k) + rest) == (English, KindInfix(k) + rest)
  {
    var s := KindInfix(k) + rest;
    match k
    case CatalogUuids =>
      assert s[1] == 'c';
    case CustomerUuids =>
      assert s[1] == 'c' && s[2] == 'u';
      assert !(KindInfix(CatalogUuids) <= s);
    case QueryUuids =>
      assert s[1] == 'c' && s[2] == 'a' && s[9] == 'q';
      assert KindInfix(CatalogUuids)[9] == 'u' && KindInfix(CustomerUuids)[2] == 'u';
  }

  lemma SpanishRoundTrip(rest: string)
    ensures ParseLanguage("-es" + rest) == (Spanish, rest)
  {
    assert "-es" <= "-es" + rest && ("-es" + rest)[3..] == rest;
  }

  lemma LanguageRoundTrip(l: Language, k: ShardKind, rest: string)
    ensures ParseLanguage(LanguageSuffix(l) + KindInfix(k) + rest) == (l, KindInfix(k) + rest)
  {
    KindRoundTrip(k, rest);
    SpanishRoundTrip(KindInfix(k) + rest);
    ConcatAssociates(LanguageSuffix(l), KindInfix(k), rest);
    assert "" + (KindInfix(k) + rest) == KindInfix(k) + rest;
  }

  lemma TailRoundTrip(l: Language, k: ShardKind, index: nat)
    ensures ParseTail(LanguageSuffix(l) + KindInfix(k) + Decimal(index)) == Some((l, k, index))
  {
    LanguageRoundTrip(l, k, Decimal(index));
    KindRoundTrip(k, Decimal(index));
    ParseOfDecimal(index);
  }

  /** Whatever was printed is read back: type, uuid, language, facet kind and slice number. */
  lemma ParseOfPrint(id: ShardId)
    requires IsUuid(id.uuid)
    ensures Parse(Print(id)) == Some(id)
  {
    var tail := LanguageSuffix(id.language) + KindInfix(id.kind) + Decimal(id.index);
    assert Print(id) == TypeName(id.contentType) + "-" + (id.uuid + tail);
    TypeRoundTrip(id.contentType, id.uuid + tail);
    assert (id.uuid + tail)[..36] == id.uuid && (id.uuid + tail)[36..] == tail;
    TailRoundTrip(id.language, id.kind, id.index);
  }

  lemma ParsedType(s: string)
    requires ParseType(s).Some?
    ensures s == TypeName(ParseType(s).value.0) + "-" + ParseType(s).value.1
  {
  }

  lemma ParsedLanguage(s: string)
    ensures s == LanguageSuffix(ParseLanguage(s).0) + ParseLanguage(s).1
  {
  }

  lemma ParsedKind(s: string)
    requires ParseKind(s).Some?
    ensures s == KindInfix(ParseKind(s).value.0) + ParseKind(s).value.1
  {
  }

  lemma JoinParts(typeText: string, uuid: string, language: string, kind: string, digits: string, tail: string)
    requires tail == uuid + (language + (kind + digits))
    ensures typeText + "-" + tail == typeText + "-" + uuid + language + kind + digits
  {
  }

  /** Only printed ids are read: a text that parses is the print of what it parses to. */
  lemma PrintOfParse(s: string)
    requires Parse(s).Some?
    ensures IsUuid(Parse(s).value.uuid) && Print(Parse(s).value) == s
  {
    ParsedType(s);
    var (t, afterType) := ParseType(s).value;
    ParsedLanguage(afterType[36..]);
    var (l, afterLanguage) := ParseLanguage(afterType[36..]);
    ParsedKind(afterLanguage);
    var (k, digits) := ParseKind(afterLanguage).value;
    DecimalOfParse(digits);
    var n := ParseDecimal(digits).value;
    assert Parse(s).value == ShardId(t, afterType[..36], l, k, n);
    assert afterType == afterType[..36] + afterType[36..];
    JoinParts(TypeName(t), afterType[..36], LanguageSuffix(l), KindInfix(k), digits, afterType);
  }

  /** ObjectIDs of records with UUIDs collide only if every component agrees. */
  lemma PrintInjective(a: ShardId, b: ShardId)
    requires IsUuid(a.uuid) && IsUuid(b.uuid)
    ensures Print(a) == Print(b) <==> a == b
  {
    ParseOfPrint(a);
    ParseOfPrint(b);
  }

  /** Without a uuid the printed id forgets the record: two such records share every objectID. */
  lemma MissingUuidsCollide(t1: ContentType, t2: ContentType, l: Language, k: ShardKind, index: nat)
    ensures SliceText(BaseText(t1, None), l, k, index) == SliceText(BaseText(t2, Some("")), l, k, index)
    ensures Parse(SliceText(BaseText(t1, None), l, k, index)).None?
  {
    var s := SliceText(BaseText(t1, None), l, k, index);
    assert s[0] == 'N';
    assert ParseType(s).None?;
  }

  lemma DropBase(base: string, a: string, b: string, c: string)
    ensures (base + a + b + c)[|base|..] == a + b + c
  {
  }

  /** Whatever the base text, language, facet and slice can be read back from the rest of the id. */
  lemma TailAfterBase(base: string, l: Language, k: ShardKind, index: nat)
    ensures var s := SliceText(base, l, k, index);
            |base| <= |s| && ParseTail(s[|base|..]) == Some((l, k, index))
  {
    DropBase(base, LanguageSuffix(l), KindInfix(k), Decimal(index));
    TailRoundTrip(l, k, index);
  }

  /** What a record's uuid comes to in its objectIDs: a missing one and an empty one are the same. */
  function Identity(t: ContentType, uuid: Option<string>): Option<(ContentType, string)> {
    match uuid
    case Some(u) => if u == "" then None else Some((t, u))
    case None => None
  }

  /**
   Exactly when two printed ids agree, whether or not the uuids are there: same language, facet and slice, and both
   records without a uuid, or of one type and with one uuid.
   */
  lemma IdsAgreeExactly(t1: ContentType, uuid1: Option<string>, t2: ContentType, uuid2: Option<string>,
                        l1: Language, k1: ShardKind, i1: nat, l2: Language, k2: ShardKind, i2: nat)
    requires Identity(t1, uuid1).Some? ==> IsUuid(uuid1.value)
    requires Identity(t2, uuid2).Some? ==> IsUuid(uuid2.value)
    ensures SliceText(BaseText(t1, uuid1), l1, k1, i1) == SliceText(BaseText(t2, uuid2), l2, k2, i2)
            <==> Identity(t1, uuid1) == Identity(t2, uuid2) && l1 == l2 && k1 == k2 && i1 == i2
  {
    if Identity(t1, uuid1).Some? && Identity(t2, uuid2).Some? {
      PrintInjective(ShardId(t1, uuid1.value, l1, k1, i1), ShardId(t2, uuid2.value, l2, k2, i2));
    } else if Identity(t1, uuid1).Some? {
      ParseOfPrint(ShardId(t1, uuid1.value, l1, k1, i1));
      MissingUuidsCollide(t2, t2, l2, k2, i2);
    } else if Identity(t2, uuid2).Some? {
      ParseOfPrint(ShardId(t2, uuid2.value, l2, k2, i2));
      MissingUuidsCollide(t1, t1, l1, k1, i1);
    } else {
      TailAfterBase("None", l1, k1, i1);
      TailAfterBase("None", l2, k2, i2);
    }
  }
}
