/**
 What programs inherit from their courses and pathways from their members, and the agreement between a key's catalogs
 and its customers, queries and academies that every pass keeps.
 */
module FacetInheritance {
  import opened ObjectIds
  import opened FacetTables
  import opened FacetLaws

  /** The catalog table of the database: each catalog has one query, one customer and a set of academies. */
  datatype World = World(query: string -> QueryTuple, customer: string -> string, academies: string -> set<string>)

  ghost predicate Agrees(links: set<Link>, w: World) {
    forall l | l in links ::
      && l.query == w.query(l.catalog.uuid)
      && l.catalog.customer == w.customer(l.catalog.uuid)
      && l.catalog.academies == w.academies(l.catalog.uuid)
  }

  function CustomersFor(catalogs: set<string>, w: World): set<string> {
    set u | u in catalogs :: w.customer(u)
  }

  function AcademiesFor(catalogs: set<string>, w: World): set<string> {
    set u, a | u in catalogs && a in w.academies(u) :: a
  }

  function QueriesFor(catalogs: set<string>, w: World): set<QueryTuple> {
    set u | u in catalogs :: w.query(u)
  }

  /** Customers and academies are exactly those of the catalogs; the queries include those of the catalogs. */
  ghost predicate Imaged(v: View, w: World) {
    && v.customers == CustomersFor(v.catalogs, w)
    && v.academies == AcademiesFor(v.catalogs, w)
    && QueriesFor(v.catalogs, w) <= v.queries
  }

  /** The tables by catalog say of each catalog met what the database says. */
  ghost predicate Known(t: Tables, w: World, u: string) {
    && Get(t.queryByCatalog, u) == {w.query(u)}
    && Get(t.customerByCatalog, u) == {w.customer(u)}
    && Get(t.academiesByCatalog, u) == w.academies(u)
  }

  ghost predicate Faithful(t: Tables, w: World) {
    && (forall k :: Imaged(At(t, k), w))
    && (forall k, u :: u in Get(t.catalogs, k) ==> Known(t, w, u))
  }

  // ---------------------------------------------------------------- the first pass

  lemma SaidIsImaged(asks: set<Ask>, links: set<Link>, w: World, k: string)
    requires Agrees(links, w)
    requires forall l | l in links :: Ask(l.key, l.query) in asks
    ensures Imaged(Said(asks, links, k), w)
  {
    assert CustomersOf(links, k) == CustomersFor(CatalogsOf(links, k), w);
    assert AcademiesOf(links, k) == AcademiesFor(CatalogsOf(links, k), w) by {
      forall a | a in AcademiesFor(CatalogsOf(links, k), w)
        ensures a in AcademiesOf(links, k)
      {
        var u :| u in CatalogsOf(links, k) && a in w.academies(u);
        var l :| l in links && l.key == k && l.catalog.uuid == u;
        assert a in l.catalog.academies;
      }
    }
    forall u | u in CatalogsOf(links, k)
      ensures w.query(u) in QueriesOf(asks, k)
    {
      var l :| l in links && l.key == k && l.catalog.uuid == u;
      assert Ask(k, l.query) in asks;
    }
  }

  lemma MetIsKnown(links: set<Link>, w: World, l: Link)
    requires Agrees(links, w) && l in links
    ensures QueryOfCatalog(links, l.catalog.uuid) == {w.query(l.catalog.uuid)}
    ensures CustomerOfCatalog(links, l.catalog.uuid) == {w.customer(l.catalog.uuid)}
    ensures AcademiesOfCatalog(links, l.catalog.uuid) == w.academies(l.catalog.uuid)
  {
  }

  lemma LinksAreAsked(ms: seq<Metadata>, flag: bool)
    ensures forall l | l in LinksFrom(ms, flag, 0) :: Ask(l.key, l.query) in AsksFrom(ms, flag, 0)
  {
    forall l | l in LinksFrom(ms, flag, 0)
      ensures Ask(l.key, l.query) in AsksFrom(ms, flag, 0)
    {
      var j, q, c :| 0 <= j < |ms| && q in AssociatedQueries(ms[j], flag) && c in q.catalogs
        && l == Link(FiledUnderKey(ms[j]), Pair(q), c);
    }
  }

  /** After the first pass each key holds exactly what its own records and runs say. */
  lemma FirstPassHolds(ms: seq<Metadata>, flag: bool, x: string)
    ensures At(AddRecords(EMPTY_TABLES, ms, flag, 0), x) == Said(AsksFrom(ms, flag, 0), LinksFrom(ms, flag, 0), x)
  {
    RecordsEntered(EMPTY_TABLES, ms, flag, 0, x);
    MergeNothing(Said(AsksFrom(ms, flag, 0), LinksFrom(ms, flag, 0), x));
    assert At(EMPTY_TABLES, x) == NOTHING;
  }

  lemma FirstPassFaithful(ms: seq<Metadata>, flag: bool, w: World)
    requires Agrees(LinksFrom(ms, flag, 0), w)
    ensures Faithful(AddRecords(EMPTY_TABLES, ms, flag, 0), w)
  {
    var t, asks, links := AddRecords(EMPTY_TABLES, ms, flag, 0), AsksFrom(ms, flag, 0), LinksFrom(ms, flag, 0);
    LinksAreAsked(ms, flag);
    forall k
      ensures Imaged(At(t, k), w)
      ensures forall u | u in Get(t.catalogs, k) :: Known(t, w, u)
    {
      FirstPassHolds(ms, flag, k);
      SaidIsImaged(asks, links, w, k);
      forall u | u in Get(t.catalogs, k)
        ensures Known(t, w, u)
      {
        assert u in CatalogsOf(links, k);
        var l :| l in links && l.key == k && l.catalog.uuid == u;
        FirstPassHolds(ms, flag, u);
        MetIsKnown(links, w, l);
      }
    }
  }

  // ---------------------------------------------------------------- the second pass

  /** On catalogs the tables know, images under the tables are images under the database. */
  lemma ImagesOfKnown(t: Tables, w: World, s: set<string>)
    requires forall u | u in s :: Known(t, w, u)
    ensures Image(t.customerByCatalog, s) == CustomersFor(s, w)
    ensures Image(t.queryByCatalog, s) == QueriesFor(s, w)
    ensures Image(t.academiesByCatalog, s) == AcademiesFor(s, w)
  {
    forall u | u in s
      ensures w.customer(u) in Get(t.customerByCatalog, u) && w.query(u) in Get(t.queryByCatalog, u)
    {
      assert Known(t, w, u);
    }
  }

  lemma ImagedUnion(v: View, s: set<string>, more: set<QueryTuple>, w: World)
    requires Imaged(v, w) && QueriesFor(s, w) <= more
    ensures Imaged(v.(catalogs := v.catalogs + s, customers := v.customers + CustomersFor(s, w),
                      academies := v.academies + AcademiesFor(s, w), queries := v.queries + more), w)
  {
    assert CustomersFor(v.catalogs + s, w) == CustomersFor(v.catalogs, w) + CustomersFor(s, w);
    assert AcademiesFor(v.catalogs + s, w) == AcademiesFor(v.catalogs, w) + AcademiesFor(s, w);
    assert QueriesFor(v.catalogs + s, w) == QueriesFor(v.catalogs, w) + QueriesFor(s, w);
  }

  /** What one program gains, seen at any string. */
  lemma AbsorbCommonAt(t: Tables, program: string, courses: set<string>, x: string)
    ensures At(AbsorbCommon(t, program, courses), x)
            == if x == program then Inheriting(t, program, CommonCatalogs(t.catalogs, courses)) else At(t, x)
  {
  }

  /** A view with a set of catalogs added, and what the tables by catalog say of them. */
  function Inheriting(t: Tables, k: string, common: set<string>): View {
    At(t, k).(catalogs := Get(t.catalogs, k) + common,
              customers := Get(t.customers, k) + Image(t.customerByCatalog, common),
              academies := Get(t.academies, k) + Image(t.academiesByCatalog, common),
              queries := Get(t.queries, k) + Image(t.queryByCatalog, common))
  }

  lemma AbsorbCommonFaithful(t: Tables, program: string, courses: set<string>, w: World)
    requires Faithful(t, w)
    ensures Faithful(AbsorbCommon(t, program, courses), w)
  {
    var t1, common := AbsorbCommon(t, program, courses), CommonCatalogs(t.catalogs, courses);
    forall u | u in common
      ensures Known(t, w, u)
    {
      var c :| c in courses && u in Get(t.catalogs, c);
    }
    ImagesOfKnown(t, w, common);
    forall k
      ensures Imaged(At(t1, k), w)
      ensures forall u | u in Get(t1.catalogs, k) :: Known(t1, w, u)
    {
      AbsorbCommonAt(t, program, courses, k);
      assert Imaged(At(t, k), w);
      if k == program {
        ImagedUnion(At(t, k), common, QueriesFor(common, w), w);
      }
      forall u | u in Get(t1.catalogs, k)
        ensures Known(t1, w, u)
      {
        assert Known(t, w, u);
      }
    }
  }

  lemma {:induction false} SecondPassFaithful(t: Tables, ms: seq<Metadata>, courses: Multimap<string>, i: nat, w: World)
    requires i <= |ms| && Faithful(t, w)
    ensures Faithful(SecondPass(t, ms, courses, i), w)
    decreases |ms| - i
  {
    if i < |ms| {
      if ms[i].contentType.Program? {
        var t1 := AbsorbCommon(t, ms[i].key, Get(courses, ms[i].key));
        AbsorbCommonFaithful(t, ms[i].key, Get(courses, ms[i].key), w);
        SecondPassFaithful(t1, ms, courses, i + 1, w);
      } else {
        SecondPassFaithful(t, ms, courses, i + 1, w);
      }
    }
  }

  // ---------------------------------------------------------------- the third pass

  function Joining(t: Tables, k: string, members: set<string>): View {
    At(t, k).(catalogs := Get(t.catalogs, k) + Image(t.catalogs, members),
              customers := Get(t.customers, k) + Image(t.customers, members),
              academies := Get(t.academies, k) + Image(t.academies, members),
              queries := Get(t.queries, k) + Image(t.queries, members))
  }

  lemma AbsorbMembersAt(t: Tables, pathway: string, members: set<string>, x: string)
    ensures At(AbsorbMembers(t, pathway, members), x) == if x == pathway then Joining(t, pathway, members) else At(t, x)
  {
  }

  lemma ImagesOfMembers(t: Tables, w: World, members: set<string>)
    requires Faithful(t, w)
    ensures Image(t.customers, members) == CustomersFor(Image(t.catalogs, members), w)
    ensures Image(t.academies, members) == AcademiesFor(Image(t.catalogs, members), w)
    ensures QueriesFor(Image(t.catalogs, members), w) <= Image(t.queries, members)
  {
    forall m | m in members
      ensures Get(t.customers, m) == CustomersFor(Get(t.catalogs, m), w)
      ensures Get(t.academies, m) == AcademiesFor(Get(t.catalogs, m), w)
      ensures QueriesFor(Get(t.catalogs, m), w) <= Get(t.queries, m)
    {
      assert Imaged(At(t, m), w);
    }
    CustomersOfImage(t, w, members);
    AcademiesOfImage(t, w, members);
    QueriesOfImage(t, w, members);
  }

  lemma CustomersOfImage(t: Tables, w: World, members: set<string>)
    requires forall m | m in members :: Get(t.customers, m) == CustomersFor(Get(t.catalogs, m), w)
    ensures Image(t.customers, members) == CustomersFor(Image(t.catalogs, members), w)
  {
    forall x | x in Image(t.customers, members)
      ensures x in CustomersFor(Image(t.catalogs, members), w)
    {
      var m :| m in members && x in Get(t.customers, m);
      var u :| u in Get(t.catalogs, m) && x == w.customer(u);
      assert u in Image(t.catalogs, members);
    }
    forall x | x in CustomersFor(Image(t.catalogs, members), w)
      ensures x in Image(t.customers, members)
    {
      var u :| u in Image(t.catalogs, members) && x == w.customer(u);
      var m :| m in members && u in Get(t.catalogs, m);
      assert x in Get(t.customers, m);
    }
  }

  lemma AcademiesOfImage(t: Tables, w: World, members: set<string>)
    requires forall m | m in members :: Get(t.academies, m) == AcademiesFor(Get(t.catalogs, m), w)
    ensures Image(t.academies, members) == AcademiesFor(Image(t.catalogs, members), w)
  {
    forall x | x in Image(t.academies, members)
      ensures x in AcademiesFor(Image(t.catalogs, members), w)
    {
      var m :| m in members && x in Get(t.academies, m);
      var u :| u in Get(t.catalogs, m) && x in w.academies(u);
      assert u in Image(t.catalogs, members);
    }
    forall x | x in AcademiesFor(Image(t.catalogs, members), w)
      ensures x in Image(t.academies, members)
    {
      var u :| u in Image(t.catalogs, members) && x in w.academies(u);
      var m :| m in members && u in Get(t.catalogs, m);
      assert x in Get(t.academies, m);
    }
  }

  lemma QueriesOfImage(t: Tables, w: World, members: set<string>)
    requires forall m | m in members :: QueriesFor(Get(t.catalogs, m), w) <= Get(t.queries, m)
    ensures QueriesFor(Image(t.catalogs, members), w) <= Image(t.queries, members)
  {
    forall x | x in QueriesFor(Image(t.catalogs, members), w)
      ensures x in Image(t.queries, members)
    {
      var u :| u in Image(t.catalogs, members) && x == w.query(u);
      var m :| m in members && u in Get(t.catalogs, m);
      assert x in QueriesFor(Get(t.catalogs, m), w);
    }
  }

  lemma AbsorbMembersImaged(t: Tables, pathway: string, members: set<string>, w: World, k: string)
    requires Faithful(t, w)
    ensures Imaged(At(AbsorbMembers(t, pathway, members), k), w)
  {
    var v := At(t, k);
    assert Imaged(v, w);
    AbsorbMembersAt(t, pathway, members, k);
    if k == pathway {
      ImagesOfMembers(t, w, members);
      ImagedUnion(v, Image(t.catalogs, members), Image(t.queries, members), w);
    }
  }

  lemma AbsorbMembersKnown(t: Tables, pathway: string, members: set<string>, w: World, k: string, u: string)
    requires Faithful(t, w)
    requires u in Get(AbsorbMembers(t, pathway, members).catalogs, k)
    ensures Known(AbsorbMembers(t, pathway, members), w, u)
  {
    if u !in Get(t.catalogs, k) {
      assert u in Image(t.catalogs, members);
      var m :| m in members && u in Get(t.catalogs, m);
    }
    assert Known(t, w, u);
  }

  lemma AbsorbMembersFaithful(t: Tables, pathway: string, members: set<string>, w: World)
    requires Faithful(t, w)
    ensures Faithful(AbsorbMembers(t, pathway, members), w)
  {
    var t1 := AbsorbMembers(t, pathway, members);
    forall k
      ensures Imaged(At(t1, k), w)
    {
      AbsorbMembersImaged(t, pathway, members, w, k);
    }
    forall k, u | u in Get(t1.catalogs, k)
      ensures Known(t1, w, u)
    {
      AbsorbMembersKnown(t, pathway, members, w, k, u);
    }
  }

  lemma {:induction false} ThirdPassFaithful(t: Tables, ms: seq<Metadata>, members: Multimap<string>, i: nat, w: World)
    requires i <= |ms| && Faithful(t, w)
    ensures Faithful(ThirdPass(t, ms, members, i), w)
    decreases |ms| - i
  {
    if i < |ms| {
      if ms[i].contentType.LearnerPathway? {
        var t1 := AbsorbMembers(t, ms[i].key, Get(members, ms[i].key));
        AbsorbMembersFaithful(t, ms[i].key, Get(members, ms[i].key), w);
        ThirdPassFaithful(t1, ms, members, i + 1, w);
      } else {
        ThirdPassFaithful(t, ms, members, i + 1, w);
      }
    }
  }

  /**
   Through all three passes and for every key, customers and academies are the image of the catalogs, and the queries
   include it, whatever the batch and the mappings.
   */
  lemma AllPassesFaithful(ms: seq<Metadata>, courses: Multimap<string>, members: Multimap<string>, flag: bool,
                          w: World, k: string)
    requires Agrees(LinksFrom(ms, flag, 0), w)
    ensures Imaged(At(AllPasses(ms, courses, members, flag), k), w)
  {
    var t := AddRecords(EMPTY_TABLES, ms, flag, 0);
    FirstPassFaithful(ms, flag, w);
    SecondPassFaithful(t, ms, courses, 0, w);
    ThirdPassFaithful(SecondPass(t, ms, courses, 0), ms, members, 0, w);
  }

  // ---------------------------------------------------------------- what each program and pathway ends with

  ghost predicate Occurs(ms: seq<Metadata>, i: nat, kind: ContentType, x: string) {
    exists j | i <= j < |ms| :: ms[j].contentType == kind && ms[j].key == x
  }

  /** No record of the given kind is listed under another one of that kind. */
  ghost predicate Apart(ms: seq<Metadata>, listed: Multimap<string>, kind: ContentType) {
    forall m, n | m in ms && n in ms && m.contentType == kind && n.contentType == kind :: n.key !in Get(listed, m.key)
  }

  lemma CommonUnaffected(a: Multimap<string>, b: Multimap<string>, courses: set<string>)
    requires forall d | d in courses :: Get(a, d) == Get(b, d)
    ensures CommonCatalogs(a, courses) == CommonCatalogs(b, courses)
  {
  }

  lemma InheritingTwice(t: Tables, k: string, courses: set<string>)
    requires k !in courses
    ensures
      var t1 := AbsorbCommon(t, k, courses);
      Inheriting(t1, k, CommonCatalogs(t1.catalogs, courses)) == Inheriting(t, k, CommonCatalogs(t.catalogs, courses))
  {
    var t1 := AbsorbCommon(t, k, courses);
    CommonUnaffected(t.catalogs, t1.catalogs, courses);
    AbsorbCommonAt(t, k, courses, k);
  }

  /** A program gains what is common to its courses before the pass; nothing else changes. */
  lemma {:induction false} SecondPassAt(t: Tables, ms: seq<Metadata>, courses: Multimap<string>, i: nat, x: string)
    requires i <= |ms| && Apart(ms, courses, Program)
    ensures At(SecondPass(t, ms, courses, i), x)
            == if Occurs(ms, i, Program, x) then Inheriting(t, x, CommonCatalogs(t.catalogs, Get(courses, x)))
               else At(t, x)
    decreases |ms| - i
  {
    if i < |ms| {
      var p := ms[i].key;
      if !ms[i].contentType.Program? {
        SecondPassAt(t, ms, courses, i + 1, x);
        assert Occurs(ms, i, Program, x) <==> Occurs(ms, i + 1, Program, x);
      } else {
        var t1 := AbsorbCommon(t, p, Get(courses, p));
        SecondPassAt(t1, ms, courses, i + 1, x);
        AbsorbCommonAt(t, p, Get(courses, p), x);
        if x == p {
          InheritingTwice(t, p, Get(courses, p));
        } else if Occurs(ms, i + 1, Program, x) {
          assert p !in Get(courses, x);
          CommonUnaffected(t.catalogs, t1.catalogs, Get(courses, x));
        }
      }
    }
  }

  lemma ImageUnaffected<T>(a: Multimap<T>, b: Multimap<T>, keys: set<string>)
    requires forall d | d in keys :: Get(a, d) == Get(b, d)
    ensures Image(a, keys) == Image(b, keys)
  {
  }

  lemma JoiningUnaffected(t: Tables, pathway: string, gained: set<string>, k: string, members: set<string>)
    requires pathway !in members
    ensures
      var t1 := AbsorbMembers(t, pathway, gained);
      && Image(t1.catalogs, members) == Image(t.catalogs, members)
      && Image(t1.customers, members) == Image(t.customers, members)
      && Image(t1.academies, members) == Image(t.academies, members)
      && Image(t1.queries, members) == Image(t.queries, members)
  {
    var t1 := AbsorbMembers(t, pathway, gained);
    ImageUnaffected(t.catalogs, t1.catalogs, members);
    ImageUnaffected(t.customers, t1.customers, members);
    ImageUnaffected(t.academies, t1.academies, members);
    ImageUnaffected(t.queries, t1.queries, members);
  }

  /** Joining after another pathway, or after the same one with the same members, gives the same. */
  lemma JoiningAgain(t: Tables, pathway: string, gained: set<string>, k: string, members: set<string>)
    requires pathway !in members && (k == pathway ==> gained == members)
    ensures Joining(AbsorbMembers(t, pathway, gained), k, members) == Joining(t, k, members)
  {
    JoiningUnaffected(t, pathway, gained, k, members);
    AbsorbMembersAt(t, pathway, gained, k);
    if k == pathway {
      UnionAssociates(Get(t.catalogs, k), Image(t.catalogs, members), Image(t.catalogs, members));
      UnionAssociates(Get(t.customers, k), Image(t.customers, members), Image(t.customers, members));
      UnionAssociates(Get(t.academies, k), Image(t.academies, members), Image(t.academies, members));
      UnionAssociates(Get(t.queries, k), Image(t.queries, members), Image(t.queries, members));
    }
  }

  /** A pathway gains what its members held before the pass; nothing else changes. */
  lemma {:induction false} ThirdPassAt(t: Tables, ms: seq<Metadata>, members: Multimap<string>, i: nat, x: string)
    requires i <= |ms| && Apart(ms, members, LearnerPathway)
    ensures At(ThirdPass(t, ms, members, i), x)
            == if Occurs(ms, i, LearnerPathway, x) then Joining(t, x, Get(members, x)) else At(t, x)
    decreases |ms| - i
  {
    if i < |ms| {
      var p := ms[i].key;
      if !ms[i].contentType.LearnerPathway? {
        ThirdPassAt(t, ms, members, i + 1, x);
        assert Occurs(ms, i, LearnerPathway, x) <==> Occurs(ms, i + 1, LearnerPathway, x);
      } else {
        ThirdPassAt(AbsorbMembers(t, p, Get(members, p)), ms, members, i + 1, x);
        AbsorbMembersAt(t, p, Get(members, p), x);
        if x == p || Occurs(ms, i + 1, LearnerPathway, x) {
          assert p !in Get(members, x);
          JoiningAgain(t, p, Get(members, p), x, Get(members, x));
        }
      }
    }
  }
}
