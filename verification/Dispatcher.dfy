/**
 Choosing what to dispatch: courses by their own state, programs and pathways also by how recently their children were
 indexed, and for one catalog query also whatever entered or left it.
 */
module Dispatcher {
  import opened Prelude
  import opened ObjectIds
  import opened ContentRefs
  import opened IndexingStates
  import opened BatchIndexer
  import opened Sorting

  /** Indexing rows and modification times by content key; keys are unique across types. */
  type States = map<string, Row>

  type Times = map<string, int>

  function StateOf(states: States, k: string): Row {
    if k in states then states[k] else EMPTY_ROW
  }

  function TimeOf(times: Times, k: string): int {
    if k in times then times[k] else 0
  }

  /** The chosen entries of a list, in the list's order. */
  function Select(keys: seq<string>, chosen: set<string>): seq<string> {
    if keys == [] then []
    else
      var front, last := keys[..|keys| - 1], keys[|keys| - 1];
      Select(front, chosen) + if last in chosen then [last] else []
  }

  lemma {:induction false} SelectMembers(keys: seq<string>, chosen: set<string>)
    ensures forall k :: k in Select(keys, chosen) <==> k in keys && k in chosen
    ensures NoDup(keys) ==> NoDup(Select(keys, chosen))
  {
    if keys != [] {
      var front := keys[..|keys| - 1];
      SelectMembers(front, chosen);
      if NoDup(keys) {
        assert NoDup(front) && keys[|keys| - 1] !in front;
      }
    }
  }

  /** Selecting keeps the order, and every occurrence of what is chosen. */
  lemma {:induction false} SelectInOrder(a: seq<string>, b: seq<string>, k: string, chosen: set<string>)
    ensures Select(a + b, chosen) == Select(a, chosen) + Select(b, chosen)
    ensures Select([k], chosen) == if k in chosen then [k] else []
  {
    assert [k][..0] == [];
    if b == [] {
      assert a + b == a;
    } else {
      SelectInOrder(a, b[..|b| - 1], k, chosen);
      assert (a + b)[..|a + b| - 1] == a + b[..|b| - 1];
    }
  }

  // ---------------------------------------------------------------- what the rows and times say of a key

  ghost predicate IndexedAt(states: States, k: string, at: int) {
    k in states && states[k].lastIndexedAt == Some(at)
  }

  ghost predicate WasIndexed(states: States, k: string) {
    exists at :: IndexedAt(states, k, at)
  }

  ghost predicate EditedSince(states: States, times: Times, k: string) {
    exists at :: IndexedAt(states, k, at) && k in times && times[k] > at
  }

  ghost predicate HasFailed(states: States, k: string) {
    k in states && states[k].lastFailureAt.Some?
  }

  /** One of them was indexed strictly later than the key itself. */
  ghost predicate OvertakenBy(states: States, k: string, others: iset<string>) {
    exists at, c, later :: IndexedAt(states, k, at) && c in others && IndexedAt(states, c, later) && later > at
  }

  // ---------------------------------------------------------------- due or not

  predicate RetryFailed(row: Row, includeFailed: bool) {
    includeFailed && row.lastFailureAt.Some?
  }

  /** Due by its own state: never indexed, edited since, or failed. */
  predicate Due(row: Row, modified: int, includeFailed: bool) {
    IsStale(row, modified) || RetryFailed(row, includeFailed)
  }

  predicate NewerChild(children: set<string>, states: States, at: int) {
    exists c | c in children :: StateOf(states, c).lastIndexedAt.Some? && StateOf(states, c).lastIndexedAt.value > at
  }

  predicate DueWithChildren(row: Row, modified: int, includeFailed: bool, children: set<string>, states: States) {
    || Due(row, modified, includeFailed)
    || (row.lastIndexedAt.Some? && NewerChild(children, states, row.lastIndexedAt.value))
  }

  /** The content table is asked for a time only when the row says the record was indexed. */
  predicate CourseLookupFails(states: States, times: Times, k: string) {
    StateOf(states, k).lastIndexedAt.Some? && k !in times
  }

  predicate ParentLookupFails(states: States, times: Times, includeFailed: bool, k: string) {
    StateOf(states, k).lastIndexedAt.Some? && !RetryFailed(StateOf(states, k), includeFailed) && k !in times
  }

  function DueCourses(keys: seq<string>, states: States, times: Times, includeFailed: bool): set<string> {
    set k | k in keys && Due(StateOf(states, k), TimeOf(times, k), includeFailed)
  }

  function DueParents(keys: seq<string>, children: map<string, set<string>>, states: States, times: Times,
                      includeFailed: bool): set<string>
  {
    set k | k in keys
            && DueWithChildren(StateOf(states, k), TimeOf(times, k), includeFailed, ChildrenOf(children, k), states)
  }

  function ChildrenOf(children: map<string, set<string>>, k: string): set<string> {
    if k in children then children[k] else {}
  }

  ghost predicate ChildOf(children: map<string, set<string>>, k: string, c: string) {
    k in children && c in children[k]
  }

  lemma LookupsThatFail(states: States, times: Times, includeFailed: bool, k: string)
    ensures CourseLookupFails(states, times, k) <==> WasIndexed(states, k) && k !in times
    ensures ParentLookupFails(states, times, includeFailed, k)
            <==> WasIndexed(states, k) && k !in times && !(includeFailed && HasFailed(states, k))
  {
    if StateOf(states, k).lastIndexedAt.Some? {
      assert IndexedAt(states, k, StateOf(states, k).lastIndexedAt.value);
    }
  }

  lemma DueExactly(states: States, times: Times, includeFailed: bool, k: string)
    requires WasIndexed(states, k) ==> k in times || (includeFailed && HasFailed(states, k))
    ensures Due(StateOf(states, k), TimeOf(times, k), includeFailed)
            <==> !WasIndexed(states, k) || EditedSince(states, times, k) || (includeFailed && HasFailed(states, k))
  {
    if StateOf(states, k).lastIndexedAt.Some? {
      assert IndexedAt(states, k, StateOf(states, k).lastIndexedAt.value);
    }
  }

  lemma NewerExactly(children: set<string>, states: States, at: int)
    ensures NewerChild(children, states, at)
            <==> exists c, later :: c in children && IndexedAt(states, c, later) && later > at
  {
    if NewerChild(children, states, at) {
      var c :| c in children && StateOf(states, c).lastIndexedAt.Some? && StateOf(states, c).lastIndexedAt.value > at;
      assert IndexedAt(states, c, StateOf(states, c).lastIndexedAt.value);
    }
  }

  /** What the course loop selects once no lookup has failed. */
  lemma DueCoursesAre(keys: seq<string>, states: States, times: Times, includeFailed: bool)
    requires forall k | k in keys :: !CourseLookupFails(states, times, k)
    ensures forall k | k in keys :: !(WasIndexed(states, k) && k !in times)
    ensures forall k :: k in Select(keys, DueCourses(keys, states, times, includeFailed))
              <==> k in keys && (!WasIndexed(states, k) || EditedSince(states, times, k)
                                 || (includeFailed && HasFailed(states, k)))
  {
    SelectMembers(keys, DueCourses(keys, states, times, includeFailed));
    forall k | k in keys
      ensures !(WasIndexed(states, k) && k !in times)
      ensures Due(StateOf(states, k), TimeOf(times, k), includeFailed)
              <==> !WasIndexed(states, k) || EditedSince(states, times, k) || (includeFailed && HasFailed(states, k))
    {
      LookupsThatFail(states, times, includeFailed, k);
      DueExactly(states, times, includeFailed, k);
    }
  }

  lemma OvertakenExactly(states: States, k: string, children: map<string, set<string>>)
    ensures OvertakenBy(states, k, iset c | ChildOf(children, k, c))
            <==> StateOf(states, k).lastIndexedAt.Some?
                 && NewerChild(ChildrenOf(children, k), states, StateOf(states, k).lastIndexedAt.value)
  {
    if StateOf(states, k).lastIndexedAt.Some? {
      var at := StateOf(states, k).lastIndexedAt.value;
      NewerExactly(ChildrenOf(children, k), states, at);
      assert IndexedAt(states, k, at);
    }
  }

  /** What the loop over programs or pathways selects once no lookup has failed. */
  lemma DueParentsAre(keys: seq<string>, children: map<string, set<string>>, states: States, times: Times,
                      includeFailed: bool)
    requires forall k | k in keys :: !ParentLookupFails(states, times, includeFailed, k)
    ensures forall k | k in keys ::
              !(WasIndexed(states, k) && k !in times && !(includeFailed && HasFailed(states, k)))
    ensures forall k :: k in Select(keys, DueParents(keys, children, states, times, includeFailed))
              <==> k in keys && (!WasIndexed(states, k) || EditedSince(states, times, k)
                                 || (includeFailed && HasFailed(states, k))
                                 || OvertakenBy(states, k, iset c | ChildOf(children, k, c)))
  {
    SelectMembers(keys, DueParents(keys, children, states, times, includeFailed));
    forall k | k in keys
      ensures !(WasIndexed(states, k) && k !in times && !(includeFailed && HasFailed(states, k)))
      ensures DueWithChildren(StateOf(states, k), TimeOf(times, k), includeFailed, ChildrenOf(children, k), states)
              <==> !WasIndexed(states, k) || EditedSince(states, times, k) || (includeFailed && HasFailed(states, k))
                   || OvertakenBy(states, k, iset c | ChildOf(children, k, c))
    {
      LookupsThatFail(states, times, includeFailed, k);
      DueExactly(states, times, includeFailed, k);
      OvertakenExactly(states, k, children);
    }
  }

  // ---------------------------------------------------------------- the dispatch loops

  /** `None` when a lookup in the content table raises. */
  method CourseKeysForDispatch(keys: seq<string>, states: States, times: Times, force: bool, includeFailed: bool)
      returns (r: Option<seq<string>>)
    ensures r.None? <==> !force && exists k | k in keys :: WasIndexed(states, k) && k !in times
    ensures r.Some? ==> r.value == if force then keys else Select(keys, DueCourses(keys, states, times, includeFailed))
    ensures r.Some? && !force ==>
              forall k :: k in r.value <==> k in keys && (!WasIndexed(states, k) || EditedSince(states, times, k)
                                                          || (includeFailed && HasFailed(states, k)))
  {
    if force {
      return Some(keys);
    }
    var dispatched := [];
    var i := 0;
    while i < |keys|
      invariant 0 <= i <= |keys|
      invariant forall k | k in keys[..i] :: !CourseLookupFails(states, times, k)
      invariant dispatched == Select(keys[..i], DueCourses(keys, states, times, includeFailed))
    {
      var k := keys[i];
      assert keys[..i + 1][..i] == keys[..i] && keys[..i + 1] == keys[..i] + [k];
      if k !in states || states[k].lastIndexedAt.None? {
        dispatched := dispatched + [k];
      } else if k !in times {
        LookupsThatFail(states, times, includeFailed, k);
        return None;
      } else if times[k] > states[k].lastIndexedAt.value {
        dispatched := dispatched + [k];
      } else if includeFailed && states[k].lastFailureAt.Some? {
        dispatched := dispatched + [k];
      }
      i := i + 1;
    }
    assert keys[..|keys|] == keys;
    DueCoursesAre(keys, states, times, includeFailed);
    r := Some(dispatched);
  }

  method HasNewerChildIndex(children: set<string>, states: States, at: int) returns (found: bool)
    ensures found == NewerChild(children, states, at)
    ensures found <==> exists c, later :: c in children && IndexedAt(states, c, later) && later > at
  {
    var rest := children;
    while rest != {}
      invariant rest <= children
      invariant !NewerChild(children - rest, states, at)
      decreases rest
    {
      var c :| c in rest;
      if c in states && states[c].lastIndexedAt.Some? && states[c].lastIndexedAt.value > at {
        assert IndexedAt(states, c, states[c].lastIndexedAt.value);
        return true;
      }
      rest := rest - {c};
    }
    assert children - rest == children;
    found := false;
  }

  /** Programs with their courses, or pathways with their programs. */
  method ParentKeysForDispatch(keys: seq<string>, children: map<string, set<string>>, states: States, times: Times,
                               force: bool, includeFailed: bool)
      returns (r: Option<seq<string>>)
    ensures r.None? <==> && !force
                         && exists k | k in keys :: && WasIndexed(states, k) && k !in times
                                                    && !(includeFailed && HasFailed(states, k))
    ensures r.Some? ==>
              r.value == if force then keys else Select(keys, DueParents(keys, children, states, times, includeFailed))
    ensures r.Some? && !force ==>
              forall k :: k in r.value <==> k in keys && (!WasIndexed(states, k) || EditedSince(states, times, k)
                                                          || (includeFailed && HasFailed(states, k))
                                                          || OvertakenBy(states, k, iset c | ChildOf(children, k, c)))
  {
    if force {
      return Some(keys);
    }
    var dispatched := [];
    var i := 0;
    while i < |keys|
      invariant 0 <= i <= |keys|
      invariant forall k | k in keys[..i] :: !ParentLookupFails(states, times, includeFailed, k)
      invariant dispatched == Select(keys[..i], DueParents(keys, children, states, times, includeFailed))
    {
      var k := keys[i];
      assert keys[..i + 1][..i] == keys[..i] && keys[..i + 1] == keys[..i] + [k];
      if k !in states || states[k].lastIndexedAt.None? {
        dispatched := dispatched + [k];
      } else if includeFailed && states[k].lastFailureAt.Some? {
        dispatched := dispatched + [k];
      } else if k !in times {
        LookupsThatFail(states, times, includeFailed, k);
        return None;
      } else if times[k] > states[k].lastIndexedAt.value {
        dispatched := dispatched + [k];
      } else {
        var newer := HasNewerChildIndex(ChildrenOf(children, k), states, states[k].lastIndexedAt.value);
        if newer {
          dispatched := dispatched + [k];
        }
      }
      i := i + 1;
    }
    assert keys[..|keys|] == keys;
    DueParentsAre(keys, children, states, times, includeFailed);
    r := Some(dispatched);
  }

  /** A pathway's children are the members whose keys parse as a UUID; the parser is not part of this model. */
  method PathwayKeysForDispatch(keys: seq<string>, members: map<string, set<string>>, isUuid: string -> bool,
                                states: States, times: Times, force: bool, includeFailed: bool)
      returns (r: Option<seq<string>>)
    ensures r.None? <==> && !force
                         && exists k | k in keys :: && WasIndexed(states, k) && k !in times
                                                    && !(includeFailed && HasFailed(states, k))
    ensures r.Some? ==>
              r.value == if force then keys
                         else
                           var children := ProgramMembers(keys, members, isUuid);
                           Select(keys, DueParents(keys, children, states, times, includeFailed))
    ensures r.Some? && !force ==>
              forall k :: k in r.value
                <==> k in keys && (!WasIndexed(states, k) || EditedSince(states, times, k)
                                   || (includeFailed && HasFailed(states, k))
                                   || OvertakenBy(states, k, iset m | ChildOf(members, k, m) && isUuid(m)))
  {
    r := ParentKeysForDispatch(keys, ProgramMembers(keys, members, isUuid), states, times, force, includeFailed);
  }

  function ProgramMembers(keys: seq<string>, members: map<string, set<string>>, isUuid: string -> bool)
      : map<string, set<string>>
  {
    map k | k in keys :: set m | m in ChildrenOf(members, k) && isUuid(m)
  }

  // ---------------------------------------------------------------- dispatch against what the batch then does

  /** A batch task looks at one record of its own type; `states` and `times` are what the dispatcher saw of it. */
  ghost predicate SameView(task: Task, rows: Rows, i: nat, states: States, times: Times) {
    && i < |task.keys|
    && StateOf(states, task.keys[i]) == RowOrEmpty(rows, RefAt(task, i))
    && ContentOf(task, RefAt(task, i)) == Some(TimeOf(times, task.keys[i]))
  }

  /** With failures included, a course is dispatched exactly when the batch step would not skip it. */
  lemma CourseDispatchedIffNotSkipped(task: Task, rows: Rows, i: nat, keys: seq<string>, states: States,
                                      times: Times, fault: ReadFault)
    requires SameView(task, rows, i, states, times) && task.keys[i] in keys
    requires !task.force && task.keys[i] in task.indexable && !fault.LookupRaises?
    ensures task.keys[i] in Select(keys, DueCourses(keys, states, times, true))
            <==> Desired(SightOf(task, rows, RefAt(task, i)), fault) != Skipped
  {
    SelectMembers(keys, DueCourses(keys, states, times, true));
  }

  /**
   Leaving failures out loses exactly the records that failed and were not edited since: the batch would not have
   skipped them.
   */
  lemma LeavingFailuresOut(task: Task, rows: Rows, i: nat, keys: seq<string>, states: States, times: Times,
                           fault: ReadFault)
    requires SameView(task, rows, i, states, times) && task.keys[i] in keys
    requires !task.force && task.keys[i] in task.indexable && !fault.LookupRaises?
    ensures var row := RowOrEmpty(rows, RefAt(task, i));
            Desired(SightOf(task, rows, RefAt(task, i)), fault) != Skipped
              && task.keys[i] !in Select(keys, DueCourses(keys, states, times, false))
            <==> !IsStale(row, TimeOf(times, task.keys[i])) && row.lastFailureAt.Some?
  {
    SelectMembers(keys, DueCourses(keys, states, times, false));
  }

  /**
   Programs and pathways that would not be skipped are all dispatched; one that is dispatched is skipped all the same
   exactly when nothing but a newer child made it due.
   */
  lemma ParentDispatchedUnlessSkipped(task: Task, rows: Rows, i: nat, keys: seq<string>,
                                      children: map<string, set<string>>, states: States, times: Times,
                                      fault: ReadFault)
    requires SameView(task, rows, i, states, times) && task.keys[i] in keys
    requires !task.force && task.keys[i] in task.indexable && !fault.LookupRaises?
    ensures var k, dispatched := task.keys[i], Select(keys, DueParents(keys, children, states, times, true));
            var skipped := Desired(SightOf(task, rows, RefAt(task, i)), fault) == Skipped;
            && (!skipped ==> k in dispatched)
            && (skipped && k in dispatched
                <==> !Due(StateOf(states, k), TimeOf(times, k), true)
                     && NewerChild(ChildrenOf(children, k), states, StateOf(states, k).lastIndexedAt.value))
  {
    SelectMembers(keys, DueParents(keys, children, states, times, true));
  }

  // ---------------------------------------------------------------- one catalog query

  /** Content keys of the three kinds that are indexed. */
  datatype ByType = ByType(courses: seq<string>, programs: seq<string>, pathways: seq<string>)

  function Of(m: ByType, t: ContentType): seq<string> {
    match t
    case Course => m.courses
    case Program => m.programs
    case LearnerPathway => m.pathways
    case CourseRun => []
  }

  function NamesOf(m: ByType): set<string> {
    (set k | k in m.courses :: AggregationKeyFor(ContentRef(Course, k)))
    + (set k | k in m.programs :: AggregationKeyFor(ContentRef(Program, k)))
    + (set k | k in m.pathways :: AggregationKeyFor(ContentRef(LearnerPathway, k)))
  }

  /** The keys filed under one type name; names of unsupported types are in no group. */
  function Grouped(names: set<string>, t: ContentType): set<string> {
    set a | a in names && PartitionAggregationKey(a).0 == TypeName(t) :: PartitionAggregationKey(a).1
  }

  method GroupByContentType(names: set<string>)
      returns (courses: set<string>, programs: set<string>, pathways: set<string>)
    ensures courses == Grouped(names, Course) && programs == Grouped(names, Program)
    ensures pathways == Grouped(names, LearnerPathway)
  {
    courses, programs, pathways := {}, {}, {};
    var rest := names;
    while rest != {}
      invariant rest <= names
      invariant courses == Grouped(names - rest, Course)
      invariant programs == Grouped(names - rest, Program)
      invariant pathways == Grouped(names - rest, LearnerPathway)
      decreases rest
    {
      var name :| name in rest;
      var (typeName, key) := PartitionAggregationKey(name);
      GroupedNext(names, rest, name);
      if typeName == TypeName(Course) {
        courses := courses + {key};
      } else if typeName == TypeName(Program) {
        programs := programs + {key};
      } else if typeName == TypeName(LearnerPathway) {
        pathways := pathways + {key};
      }
      rest := rest - {name};
    }
    assert names - rest == names;
  }

  lemma GroupedNext(names: set<string>, rest: set<string>, name: string)
    requires rest <= names && name in rest
    ensures forall t :: Grouped(names - (rest - {name}), t) == Grouped(names - rest, t) + Grouped({name}, t)
    ensures var (typeName, key) := PartitionAggregationKey(name);
            forall t :: Grouped({name}, t) == if typeName == TypeName(t) then {key} else {}
    ensures TypeName(Course) != TypeName(Program) && TypeName(Course) != TypeName(LearnerPathway)
    ensures TypeName(Program) != TypeName(LearnerPathway)
  {
    assert names - (rest - {name}) == (names - rest) + {name};
    assert name in {name};
    TypeNameInjective(Course, Program);
    TypeNameInjective(Course, LearnerPathway);
    TypeNameInjective(Program, LearnerPathway);
  }

  /** A name with a non-empty key has a colon, and is what its two parts join to. */
  lemma {:induction false} PartsJoin(a: string)
    requires PartitionAggregationKey(a).1 != ""
    ensures a == PartitionAggregationKey(a).0 + ":" + PartitionAggregationKey(a).1
  {
    if a != "" && a[0] != ':' {
      PartsJoin(a[1..]);
      assert a == [a[0]] + a[1..];
    }
  }

  /** Grouping undoes naming: a key is in a group exactly when its name is among the names. */
  lemma GroupedIffNamed(names: set<string>, t: ContentType, k: string)
    requires k != ""
    ensures k in Grouped(names, t) <==> AggregationKeyFor(ContentRef(t, k)) in names
  {
    AggregationKeyRoundTrip(ContentRef(t, k));
    if k in Grouped(names, t) {
      var a :| a in names && PartitionAggregationKey(a).0 == TypeName(t) && PartitionAggregationKey(a).1 == k;
      PartsJoin(a);
    }
  }

  lemma NamedIffListed(m: ByType, t: ContentType, k: string)
    ensures AggregationKeyFor(ContentRef(t, k)) in NamesOf(m) <==> k in Of(m, t)
  {
    forall u, j
      ensures AggregationKeyFor(ContentRef(u, j)) == AggregationKeyFor(ContentRef(t, k)) <==> u == t && j == k
    {
      AggregationKeyInjective(ContentRef(u, j), ContentRef(t, k));
    }
  }

  /** Sorts the union of a list and two sets of keys. */
  method SortedUnion(due: seq<string>, removed: set<string>, added: set<string>) returns (r: seq<string>)
    ensures StrictlySorted(r) && Elems(r) == Elems(due) + removed + added
  {
    var all := due;
    var rest := removed + added;
    while rest != {}
      invariant Elems(all) + rest == Elems(due) + removed + added
      decreases rest
    {
      var k :| k in rest;
      all, rest := all + [k], rest - {k};
    }
    SortedSetSorts(all);
    r := SortedSet(all);
  }

  function EnteredOrLeft(members: ByType, indexed: set<string>, t: ContentType): set<string> {
    Grouped(indexed - NamesOf(members), t) + Grouped(NamesOf(members) - indexed, t)
  }

  /**
   What a refreshed catalog query dispatches, from its members, its members that are due, and what the index files
   under it.
   */
  method RecordsForCatalogQuery(members: ByType, due: ByType, indexed: set<string>) returns (records: ByType)
    ensures forall t :: StrictlySorted(Of(records, t))
    ensures forall t | t != CourseRun ::
              Elems(Of(records, t)) == Elems(Of(due, t)) + EnteredOrLeft(members, indexed, t)
  {
    var goneCourses, gonePrograms, gonePathways := GroupByContentType(indexed - NamesOf(members));
    var newCourses, newPrograms, newPathways := GroupByContentType(NamesOf(members) - indexed);
    var courses := SortedUnion(due.courses, goneCourses, newCourses);
    var programs := SortedUnion(due.programs, gonePrograms, newPrograms);
    var pathways := SortedUnion(due.pathways, gonePathways, newPathways);
    records := ByType(courses, programs, pathways);
  }

  /** A record is dispatched exactly when it is due, or is in only one of the query and the index. */
  lemma DispatchedForCatalogQuery(members: ByType, due: ByType, indexed: set<string>, records: ByType,
                                  t: ContentType, k: string)
    requires k != "" && t != CourseRun
    requires Elems(Of(records, t)) == Elems(Of(due, t)) + EnteredOrLeft(members, indexed, t)
    ensures k in Of(records, t)
            <==> k in Of(due, t) || ((k in Of(members, t)) != (AggregationKeyFor(ContentRef(t, k)) in indexed))
  {
    assert k in Of(records, t) <==> k in Elems(Of(records, t));
    GroupedIffNamed(indexed - NamesOf(members), t, k);
    GroupedIffNamed(NamesOf(members) - indexed, t, k);
    NamedIffListed(members, t, k);
  }
}
