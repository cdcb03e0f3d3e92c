/**
 The precomputed mappings from programs to courses and from pathways to their members, the set of indexable keys, and
 the choice of the records a batch needs.
 */
module IndexingMappings {
  import opened Prelude
  import opened ObjectIds
  import opened ContentRefs
  import opened FacetTables

  /** The content table: keys are unique, and only runs have a parent. */
  ghost predicate IsTable(rows: set<Metadata>) {
    && (forall m, n | m in rows && n in rows && m.key == n.key :: m == n)
    && (forall m | m in rows && m.parentKey.Some? :: m.contentType.CourseRun?)
  }

  function CoursesOf(rows: set<Metadata>, program: string): set<string> {
    set m | m in rows && m.contentType.Course? && ContentRef(Program, program) in m.associated :: m.key
  }

  function MembersOf(rows: set<Metadata>, pathway: string): set<string> {
    set m | m in rows && (m.contentType.Course? || m.contentType.Program?)
            && ContentRef(LearnerPathway, pathway) in m.associated :: m.key
  }

  function KeysOf(rows: set<Metadata>, kind: ContentType): set<string> {
    set m | m in rows && m.contentType == kind :: m.key
  }

  /** The two dictionaries hold exactly the associations of the rows, with an entry only for what has some. */
  ghost predicate Tabulates(courses: Multimap<string>, members: Multimap<string>, rows: set<Metadata>) {
    && (forall k :: Get(courses, k) == CoursesOf(rows, k))
    && (forall k :: Get(members, k) == MembersOf(rows, k))
    && (forall k :: k in courses <==> CoursesOf(rows, k) != {})
    && (forall k :: k in members <==> MembersOf(rows, k) != {})
  }

  function SetDefault(m: Multimap<string>, k: string): Multimap<string> {
    if k in m then m else m[k := {}]
  }

  datatype Mappings = Mappings(courses: Multimap<string>, members: Multimap<string>, indexable: set<string>)

  // ---------------------------------------------------------------- building the mappings

  function Named(key: string, kind: ContentType, done: set<ContentRef>, k: string): set<string> {
    if ContentRef(kind, k) in done then {key} else {}
  }

  /** `after` is `before` with `key` entered under every association of the given kind. */
  ghost predicate Filed(before: Multimap<string>, after: Multimap<string>, key: string, kind: ContentType,
                        done: set<ContentRef>)
  {
    && (forall k :: Get(after, k) == Get(before, k) + Named(key, kind, done, k))
    && (forall k :: k in after <==> k in before || ContentRef(kind, k) in done)
  }

  lemma FiledOne(before: Multimap<string>, after: Multimap<string>, key: string, kind: ContentType,
                 done: set<ContentRef>, r: ContentRef)
    requires Filed(before, after, key, kind, done)
    ensures r.contentType == kind ==> Filed(before, Add(after, r.key, {key}), key, kind, done + {r})
    ensures r.contentType != kind ==> Filed(before, after, key, kind, done + {r})
  {
    var after1 := Add(after, r.key, {key});
    if r.contentType == kind {
      forall k
        ensures Get(after1, k) == Get(before, k) + Named(key, kind, done + {r}, k)
        ensures k in after1 <==> k in before || ContentRef(kind, k) in done + {r}
      {
        assert k == r.key <==> ContentRef(kind, k) == r;
        assert Get(after, k) == Get(before, k) + Named(key, kind, done, k);
      }
    } else {
      forall k
        ensures Named(key, kind, done + {r}, k) == Named(key, kind, done, k)
      {
      }
    }
  }

  /** Adds one course or program row to the two dictionaries, looking at each of its associations. */
  method MapRow(m: Metadata, courses: Multimap<string>, members: Multimap<string>)
      returns (courses': Multimap<string>, members': Multimap<string>)
    requires m.contentType.Course? || m.contentType.Program?
    ensures Filed(courses, courses', m.key, Program, if m.contentType.Course? then m.associated else {})
    ensures Filed(members, members', m.key, LearnerPathway, m.associated)
  {
    courses', members' := courses, members;
    ghost var done := {};
    var rest := m.associated;
    while rest != {}
      invariant rest <= m.associated && done == m.associated - rest
      invariant Filed(courses, courses', m.key, Program, if m.contentType.Course? then done else {})
      invariant Filed(members, members', m.key, LearnerPathway, done)
      decreases rest
    {
      var ref :| ref in rest;
      FiledOne(members, members', m.key, LearnerPathway, done, ref);
      if m.contentType.Course? {
        FiledOne(courses, courses', m.key, Program, done, ref);
      }
      if m.contentType.Course? && ref.contentType.Program? {
        courses' := Add(courses', ref.key, {m.key});
      } else if ref.contentType.LearnerPathway? {
        members' := Add(members', ref.key, {m.key});
      }
      rest := rest - {ref};
      done := done + {ref};
    }
    assert done == m.associated;
  }

  lemma OneRow(m: Metadata, k: string)
    requires m.contentType.Course? || m.contentType.Program?
    ensures CoursesOf({m}, k) == Named(m.key, Program, if m.contentType.Course? then m.associated else {}, k)
    ensures MembersOf({m}, k) == Named(m.key, LearnerPathway, m.associated, k)
  {
    assert m in {m};
  }

  lemma RowAdded(rows: set<Metadata>, m: Metadata, k: string)
    ensures CoursesOf(rows + {m}, k) == CoursesOf(rows, k) + CoursesOf({m}, k)
    ensures MembersOf(rows + {m}, k) == MembersOf(rows, k) + MembersOf({m}, k)
  {
  }

  lemma RowsOfOtherKinds(rows: set<Metadata>, m: Metadata, k: string)
    requires m.contentType.CourseRun? || m.contentType.LearnerPathway?
    ensures CoursesOf(rows + {m}, k) == CoursesOf(rows, k) && MembersOf(rows + {m}, k) == MembersOf(rows, k)
  {
  }

  lemma RowTabulated(courses: Multimap<string>, members: Multimap<string>, courses': Multimap<string>,
                     members': Multimap<string>, rows: set<Metadata>, m: Metadata)
    requires m.contentType.Course? || m.contentType.Program?
    requires Tabulates(courses, members, rows)
    requires Filed(courses, courses', m.key, Program, if m.contentType.Course? then m.associated else {})
    requires Filed(members, members', m.key, LearnerPathway, m.associated)
    ensures Tabulates(courses', members', rows + {m})
  {
    forall k
      ensures Get(courses', k) == CoursesOf(rows + {m}, k) && (k in courses' <==> CoursesOf(rows + {m}, k) != {})
      ensures Get(members', k) == MembersOf(rows + {m}, k) && (k in members' <==> MembersOf(rows + {m}, k) != {})
    {
      OneRow(m, k);
      RowAdded(rows, m, k);
      assert Get(courses, k) == CoursesOf(rows, k) && Get(members, k) == MembersOf(rows, k);
    }
  }

  lemma RowSkipped(courses: Multimap<string>, members: Multimap<string>, rows: set<Metadata>, m: Metadata)
    requires m.contentType.CourseRun? || m.contentType.LearnerPathway?
    requires Tabulates(courses, members, rows)
    ensures Tabulates(courses, members, rows + {m})
  {
    forall k
      ensures CoursesOf(rows + {m}, k) == CoursesOf(rows, k) && MembersOf(rows + {m}, k) == MembersOf(rows, k)
    {
      RowsOfOtherKinds(rows, m, k);
    }
  }

  method PrecalculateContentMappings(rows: seq<Metadata>) returns (courses: Multimap<string>, members: Multimap<string>)
    ensures Tabulates(courses, members, Elems(rows))
  {
    courses, members := map[], map[];
    for i := 0 to |rows|
      invariant Tabulates(courses, members, Elems(rows[..i]))
    {
      var m := rows[i];
      assert Elems(rows[..i + 1]) == Elems(rows[..i]) + {m};
      if m.contentType.Course? || m.contentType.Program? {
        var courses', members' := MapRow(m, courses, members);
        RowTabulated(courses, members, courses', members', Elems(rows[..i]), m);
        courses, members := courses', members';
      } else {
        RowSkipped(courses, members, Elems(rows[..i]), m);
      }
    }
    assert rows[..|rows|] == rows;
  }

  /** Which dictionaries serve a table: complete, and with an entry for every indexable program and every pathway. */
  ghost predicate Serves(mappings: Mappings, rows: set<Metadata>, indexableCourses: set<string>,
                         indexablePrograms: set<string>)
  {
    && (forall k :: Get(mappings.courses, k) == CoursesOf(rows, k))
    && (forall k :: Get(mappings.members, k) == MembersOf(rows, k))
    && (forall k :: k in mappings.courses <==> CoursesOf(rows, k) != {} || k in indexablePrograms)
    && (forall k :: k in mappings.members <==> MembersOf(rows, k) != {} || k in KeysOf(rows, LearnerPathway))
    && mappings.indexable == indexableCourses + indexablePrograms + KeysOf(rows, LearnerPathway)
  }

  method SetDefaults(m: Multimap<string>, keys: set<string>) returns (r: Multimap<string>)
    ensures forall k :: Get(r, k) == Get(m, k)
    ensures forall k :: k in r <==> k in m || k in keys
  {
    r := m;
    var rest := keys;
    while rest != {}
      invariant rest <= keys
      invariant forall k :: Get(r, k) == Get(m, k)
      invariant forall k :: k in r <==> k in m || k in keys - rest
      decreases rest
    {
      var k :| k in rest;
      r := SetDefault(r, k);
      rest := rest - {k};
    }
  }

  /** The indexable courses and programs come from partitions that are not part of this model. */
  method ComputeIndexingMappings(rows: seq<Metadata>, indexableCourses: set<string>, indexablePrograms: set<string>)
      returns (mappings: Mappings)
    ensures Serves(mappings, Elems(rows), indexableCourses, indexablePrograms)
  {
    var courses, members := PrecalculateContentMappings(rows);
    var pathways := set m | m in rows && m.contentType.LearnerPathway? :: m.key;
    assert pathways == KeysOf(Elems(rows), LearnerPathway);
    courses := SetDefaults(courses, indexablePrograms);
    members := SetDefaults(members, pathways);
    mappings := Mappings(courses, members, indexableCourses + indexablePrograms + pathways);
  }

  // ---------------------------------------------------------------- choosing the records of a batch

  /** Asked for directly, or listed by a program or pathway that was. */
  predicate Wanted(m: Metadata, batch: set<string>) {
    || m.key in batch
    || (!m.contentType.LearnerPathway?
        && exists r | r in m.associated :: (r.contentType.Program? || r.contentType.LearnerPathway?) && r.key in batch)
  }

  function Kept(rows: set<Metadata>, batch: set<string>, indexable: set<string>): set<Metadata> {
    set m | m in rows && Wanted(m, batch) && m.key in indexable
  }

  function RunsUnder(rows: set<Metadata>, parents: set<Metadata>): set<Metadata> {
    set m, p | m in rows && p in parents && m.parentKey == Some(p.key) :: m
  }

  /** Everything the three passes look at; a list of these in any order, repeats allowed, is what the queries return. */
  function Loaded(rows: set<Metadata>, batch: set<string>, indexable: set<string>): set<Metadata> {
    Kept(rows, batch, indexable) + RunsUnder(rows, Kept(rows, batch, indexable))
  }

  /** The type of a key never changes between two states of the table. */
  ghost predicate SameKinds(before: set<Metadata>, after: set<Metadata>) {
    forall m, n | m in before && n in after && m.key == n.key :: m.contentType == n.contentType
  }

  /**
   The bare dictionary lookups never fail, even when the mappings were computed from an earlier state of the table,
   as long as every indexable key was in that state.
   */
  lemma LookupsAreDefined(mappings: Mappings, before: set<Metadata>, rows: set<Metadata>, batch: set<string>,
                          indexableCourses: set<string>, indexablePrograms: set<string>)
    requires IsTable(rows) && Serves(mappings, before, indexableCourses, indexablePrograms)
    requires indexableCourses <= KeysOf(before, Course) && indexablePrograms <= KeysOf(before, Program)
    requires SameKinds(before, rows)
    ensures forall m | m in Loaded(rows, batch, mappings.indexable) ::
              && (m.contentType.Program? ==> m.key in mappings.courses)
              && (m.contentType.LearnerPathway? ==> m.key in mappings.members)
  {
    forall m | m in Loaded(rows, batch, mappings.indexable) && (m.contentType.Program? || m.contentType.LearnerPathway?)
      ensures m.contentType.Program? ==> m.key in mappings.courses
      ensures m.contentType.LearnerPathway? ==> m.key in mappings.members
    {
      assert m.key in mappings.indexable;
      var n :| n in before && n.key == m.key
        && (n.contentType.Course? || n.key in indexablePrograms || n.contentType.LearnerPathway?);
    }
  }
}
