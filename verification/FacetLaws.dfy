/**
 What the three facet passes compute: closed forms for the first pass, the agreement between a key's catalogs and its
 customers, queries and academies, and what programs and pathways inherit.
 */
module FacetLaws {
  import opened FacetTables

  /** One (key, query) pair met by the first pass. */
  datatype Ask = Ask(key: string, query: QueryTuple)

  /** One (key, query, catalog) triple met by the first pass. */
  datatype Link = Link(key: string, query: QueryTuple, catalog: Catalog)

  function Pair(q: CatalogQuery): QueryTuple {
    (q.uuid, q.title)
  }

  /** A course without advertised runs counts, when the setting is on, just under the queries that allow its runs. */
  ghost predicate CountsUnder(m: Metadata, flag: bool, q: CatalogQuery) {
    && (m.contentType.Course? && flag && !m.advertised ==> q in m.restrictedQueries)
    && (!m.contentType.Course? || !flag || m.advertised ==> q in m.queries)
  }

  lemma AssociatedExactly(m: Metadata, flag: bool, q: CatalogQuery)
    ensures q in AssociatedQueries(m, flag) <==> CountsUnder(m, flag, q)
  {
  }

  /** Everything records number `i` on contribute. */
  function AsksFrom(ms: seq<Metadata>, flag: bool, i: nat): set<Ask> {
    set j, q | i <= j < |ms| && q in AssociatedQueries(ms[j], flag) :: Ask(FiledUnderKey(ms[j]), Pair(q))
  }

  function LinksFrom(ms: seq<Metadata>, flag: bool, i: nat): set<Link> {
    set j, q, c | i <= j < |ms| && q in AssociatedQueries(ms[j], flag) && c in q.catalogs
      :: Link(FiledUnderKey(ms[j]), Pair(q), c)
  }

  /** The part of one query list, or of one query, from index `i` on. */
  function AsksAbout(k: string, qs: seq<CatalogQuery>, i: nat): set<Ask> {
    set j | i <= j < |qs| :: Ask(k, Pair(qs[j]))
  }

  function LinksAbout(k: string, qs: seq<CatalogQuery>, i: nat): set<Link> {
    set j, c | i <= j < |qs| && c in qs[j].catalogs :: Link(k, Pair(qs[j]), c)
  }

  function LinksOfQuery(k: string, q: CatalogQuery, i: nat): set<Link> {
    set j | i <= j < |q.catalogs| :: Link(k, Pair(q), q.catalogs[j])
  }

  function CatalogsOf(links: set<Link>, k: string): set<string> {
    set l | l in links && l.key == k :: l.catalog.uuid
  }

  function CustomersOf(links: set<Link>, k: string): set<string> {
    set l | l in links && l.key == k :: l.catalog.customer
  }

  function AcademiesOf(links: set<Link>, k: string): set<string> {
    set l, a | l in links && l.key == k && a in l.catalog.academies :: a
  }

  function QueriesOf(asks: set<Ask>, k: string): set<QueryTuple> {
    set a | a in asks && a.key == k :: a.query
  }

  function QueryOfCatalog(links: set<Link>, u: string): set<QueryTuple> {
    set l | l in links && l.catalog.uuid == u :: l.query
  }

  function CustomerOfCatalog(links: set<Link>, u: string): set<string> {
    set l | l in links && l.catalog.uuid == u :: l.catalog.customer
  }

  function AcademiesOfCatalog(links: set<Link>, u: string): set<string> {
    set l, a | l in links && l.catalog.uuid == u && a in l.catalog.academies :: a
  }

  /** What the tables hold at one string, read as a content key and as a catalog. */
  datatype View = View(
    catalogs: set<string>,
    customers: set<string>,
    academies: set<string>,
    queries: set<QueryTuple>,
    queryOf: set<QueryTuple>,
    customerOf: set<string>,
    academiesOf: set<string>)

  function At(t: Tables, x: string): View {
    View(Get(t.catalogs, x), Get(t.customers, x), Get(t.academies, x), Get(t.queries, x),
         Get(t.queryByCatalog, x), Get(t.customerByCatalog, x), Get(t.academiesByCatalog, x))
  }

  function Merge(v: View, w: View): View {
    View(v.catalogs + w.catalogs, v.customers + w.customers, v.academies + w.academies, v.queries + w.queries,
         v.queryOf + w.queryOf, v.customerOf + w.customerOf, v.academiesOf + w.academiesOf)
  }

  /** What a set of pairs and triples says at `x`. */
  function Said(asks: set<Ask>, links: set<Link>, x: string): View {
    View(CatalogsOf(links, x), CustomersOf(links, x), AcademiesOf(links, x), QueriesOf(asks, x),
         QueryOfCatalog(links, x), CustomerOfCatalog(links, x), AcademiesOfCatalog(links, x))
  }

  lemma UnionAssociates<T>(a: set<T>, b: set<T>, c: set<T>)
    ensures (a + b) + c == a + (b + c)
  {
  }

  lemma MergeAssociates(u: View, v: View, w: View)
    ensures Merge(Merge(u, v), w) == Merge(u, Merge(v, w))
  {
    UnionAssociates(u.catalogs, v.catalogs, w.catalogs);
    UnionAssociates(u.customers, v.customers, w.customers);
    UnionAssociates(u.academies, v.academies, w.academies);
    UnionAssociates(u.queries, v.queries, w.queries);
    UnionAssociates(u.queryOf, v.queryOf, w.queryOf);
    UnionAssociates(u.customerOf, v.customerOf, w.customerOf);
    UnionAssociates(u.academiesOf, v.academiesOf, w.academiesOf);
  }

  lemma LinksOfUnion(l0: set<Link>, l1: set<Link>, x: string)
    ensures CatalogsOf(l0 + l1, x) == CatalogsOf(l0, x) + CatalogsOf(l1, x)
    ensures CustomersOf(l0 + l1, x) == CustomersOf(l0, x) + CustomersOf(l1, x)
    ensures AcademiesOf(l0 + l1, x) == AcademiesOf(l0, x) + AcademiesOf(l1, x)
  {
  }

  lemma CatalogTablesOfUnion(l0: set<Link>, l1: set<Link>, x: string)
    ensures QueryOfCatalog(l0 + l1, x) == QueryOfCatalog(l0, x) + QueryOfCatalog(l1, x)
    ensures CustomerOfCatalog(l0 + l1, x) == CustomerOfCatalog(l0, x) + CustomerOfCatalog(l1, x)
    ensures AcademiesOfCatalog(l0 + l1, x) == AcademiesOfCatalog(l0, x) + AcademiesOfCatalog(l1, x)
  {
  }

  lemma SaidOfUnion(a0: set<Ask>, a1: set<Ask>, l0: set<Link>, l1: set<Link>, x: string)
    ensures Said(a0 + a1, l0 + l1, x) == Merge(Said(a0, l0, x), Said(a1, l1, x))
  {
    LinksOfUnion(l0, l1, x);
    CatalogTablesOfUnion(l0, l1, x);
    assert QueriesOf(a0 + a1, x) == QueriesOf(a0, x) + QueriesOf(a1, x);
  }

  /** `after` is `before` with the given pairs and triples entered, as seen at the key or catalog `x`. */
  ghost predicate Entered(before: Tables, after: Tables, asks: set<Ask>, links: set<Link>, x: string) {
    At(after, x) == Merge(At(before, x), Said(asks, links, x))
  }

  lemma LinksOfQuerySplit(k: string, q: CatalogQuery, i: nat)
    requires i < |q.catalogs|
    ensures LinksOfQuery(k, q, i) == {Link(k, Pair(q), q.catalogs[i])} + LinksOfQuery(k, q, i + 1)
  {
  }

  lemma AboutSplit(k: string, qs: seq<CatalogQuery>, i: nat)
    requires i < |qs|
    ensures AsksAbout(k, qs, i) == {Ask(k, Pair(qs[i]))} + AsksAbout(k, qs, i + 1)
    ensures LinksAbout(k, qs, i) == LinksOfQuery(k, qs[i], 0) + LinksAbout(k, qs, i + 1)
  {
    forall l
      ensures l in LinksAbout(k, qs, i) <==> l in LinksOfQuery(k, qs[i], 0) || l in LinksAbout(k, qs, i + 1)
    {
      if l in LinksOfQuery(k, qs[i], 0) {
        assert l.catalog in qs[i].catalogs;
      }
      if l in LinksAbout(k, qs, i) {
        var j, c :| i <= j < |qs| && c in qs[j].catalogs && l == Link(k, Pair(qs[j]), c);
      }
    }
  }

  lemma EnteredTwice(t0: Tables, t1: Tables, t2: Tables, a0: set<Ask>, a1: set<Ask>, l0: set<Link>, l1: set<Link>,
                     x: string)
    requires Entered(t0, t1, a0, l0, x) && Entered(t1, t2, a1, l1, x)
    ensures Entered(t0, t2, a0 + a1, l0 + l1, x)
  {
    SaidOfUnion(a0, a1, l0, l1, x);
    MergeAssociates(At(t0, x), Said(a0, l0, x), Said(a1, l1, x));
  }

  lemma OneLink(l: Link, x: string)
    ensures CatalogsOf({l}, x) == if x == l.key then {l.catalog.uuid} else {}
    ensures CustomersOf({l}, x) == if x == l.key then {l.catalog.customer} else {}
    ensures AcademiesOf({l}, x) == if x == l.key then l.catalog.academies else {}
    ensures QueryOfCatalog({l}, x) == if x == l.catalog.uuid then {l.query} else {}
    ensures CustomerOfCatalog({l}, x) == if x == l.catalog.uuid then {l.catalog.customer} else {}
    ensures AcademiesOfCatalog({l}, x) == if x == l.catalog.uuid then l.catalog.academies else {}
  {
    assert l in {l};
  }

  lemma GetAdd<T>(m: Multimap<T>, k: string, s: set<T>, x: string)
    ensures Get(Add(m, k, s), x) == Get(m, x) + if x == k then s else {}
  {
  }

  lemma OneLinkSaid(l: Link, x: string)
    ensures Said({}, {l}, x) == View(
              if x == l.key then {l.catalog.uuid} else {},
              if x == l.key then {l.catalog.customer} else {},
              if x == l.key then l.catalog.academies else {},
              {},
              if x == l.catalog.uuid then {l.query} else {},
              if x == l.catalog.uuid then {l.catalog.customer} else {},
              if x == l.catalog.uuid then l.catalog.academies else {})
  {
    OneLink(l, x);
    assert QueriesOf({}, x) == {};
  }

  const NOTHING := View({}, {}, {}, {}, {}, {}, {})

  lemma NothingSaid(x: string)
    ensures Said({}, {}, x) == NOTHING
  {
    var v := Said({}, {}, x);
    assert v.catalogs == {} && v.customers == {} && v.academies == {} && v.queries == {};
    assert v.queryOf == {} && v.customerOf == {} && v.academiesOf == {};
  }

  lemma MergeNothing(v: View)
    ensures Merge(v, NOTHING) == v && Merge(NOTHING, v) == v
  {
  }

  lemma NothingEntered(t: Tables, x: string)
    ensures Entered(t, t, {}, {}, x)
  {
    NothingSaid(x);
    MergeNothing(At(t, x));
  }

  lemma CatalogEntered(t: Tables, k: string, q: CatalogQuery, c: Catalog, x: string)
    ensures Entered(t, AddCatalog(t, k, q, c), {}, {Link(k, Pair(q), c)}, x)
  {
    var t1 := AddCatalog(t, k, q, c);
    GetAdd(t.catalogs, k, {c.uuid}, x);
    GetAdd(t.customers, k, {c.customer}, x);
    GetAdd(t.academies, k, c.academies, x);
    GetAdd(t.queryByCatalog, c.uuid, {Pair(q)}, x);
    GetAdd(t.customerByCatalog, c.uuid, {c.customer}, x);
    GetAdd(t.academiesByCatalog, c.uuid, c.academies, x);
    OneLinkSaid(Link(k, Pair(q), c), x);
    assert Get(t.queries, x) + {} == Get(t.queries, x);
  }

  lemma {:induction false} CatalogsEntered(t: Tables, k: string, q: CatalogQuery, i: nat, x: string)
    requires i <= |q.catalogs|
    ensures Entered(t, AddCatalogs(t, k, q, i), {}, LinksOfQuery(k, q, i), x)
    decreases |q.catalogs| - i
  {
    if i == |q.catalogs| {
      assert LinksOfQuery(k, q, i) == {};
      NothingEntered(t, x);
    } else {
      var c := q.catalogs[i];
      var t1 := AddCatalog(t, k, q, c);
      CatalogEntered(t, k, q, c, x);
      CatalogsEntered(t1, k, q, i + 1, x);
      EnteredTwice(t, t1, AddCatalogs(t1, k, q, i + 1), {}, {}, {Link(k, Pair(q), c)}, LinksOfQuery(k, q, i + 1), x);
      LinksOfQuerySplit(k, q, i);
      PlusNothing<Ask, Link>({}, {});
    }
  }

  lemma PlusNothing<S, T>(a: set<S>, b: set<T>)
    ensures a + {} == a && {} + b == b
  {
  }

  lemma OneAskSaid(k: string, q: QueryTuple, x: string)
    ensures Said({Ask(k, q)}, {}, x) == NOTHING.(queries := if x == k then {q} else {})
  {
    NothingSaid(x);
    var said, nothing := Said({Ask(k, q)}, {}, x), Said({}, {}, x);
    assert said == nothing.(queries := said.queries);
    assert Ask(k, q) in {Ask(k, q)};
    assert said.queries == if x == k then {q} else {};
  }

  lemma AskEntered(t: Tables, k: string, q: QueryTuple, x: string)
    ensures Entered(t, t.(queries := Add(t.queries, k, {q})), {Ask(k, q)}, {}, x)
  {
    OneAskSaid(k, q, x);
    GetAdd(t.queries, k, {q}, x);
    MergeNothing(At(t, x));
  }

  lemma QueryEntered(t: Tables, k: string, q: CatalogQuery, x: string)
    ensures Entered(t, AddQuery(t, k, q), {Ask(k, Pair(q))}, LinksOfQuery(k, q, 0), x)
  {
    var asks := {Ask(k, Pair(q))};
    var t1 := t.(queries := Add(t.queries, k, {Pair(q)}));
    AskEntered(t, k, Pair(q), x);
    CatalogsEntered(t1, k, q, 0, x);
    EnteredTwice(t, t1, AddQuery(t, k, q), asks, {}, {}, LinksOfQuery(k, q, 0), x);
    PlusNothing(asks, LinksOfQuery(k, q, 0));
  }

  lemma {:induction false} QueriesEntered(t: Tables, k: string, qs: seq<CatalogQuery>, i: nat, x: string)
    requires i <= |qs|
    ensures Entered(t, AddQueries(t, k, qs, i), AsksAbout(k, qs, i), LinksAbout(k, qs, i), x)
    decreases |qs| - i
  {
    if i == |qs| {
      assert AsksAbout(k, qs, i) == {} && LinksAbout(k, qs, i) == {};
      NothingEntered(t, x);
    } else {
      var t1 := AddQuery(t, k, qs[i]);
      var asks, links := {Ask(k, Pair(qs[i]))}, LinksOfQuery(k, qs[i], 0);
      QueryEntered(t, k, qs[i], x);
      QueriesEntered(t1, k, qs, i + 1, x);
      EnteredTwice(t, t1, AddQueries(t1, k, qs, i + 1), asks, AsksAbout(k, qs, i + 1),
                   links, LinksAbout(k, qs, i + 1), x);
      AboutSplit(k, qs, i);
    }
  }

  /** The first pass enters exactly the pairs and triples of the records. */
  lemma {:induction false} RecordsEntered(t: Tables, ms: seq<Metadata>, flag: bool, i: nat, x: string)
    requires i <= |ms|
    ensures Entered(t, AddRecords(t, ms, flag, i), AsksFrom(ms, flag, i), LinksFrom(ms, flag, i), x)
    decreases |ms| - i
  {
    if i == |ms| {
      assert AsksFrom(ms, flag, i) == {} && LinksFrom(ms, flag, i) == {};
      NothingEntered(t, x);
    } else {
      var k, qs := FiledUnderKey(ms[i]), AssociatedQueries(ms[i], flag);
      var t1 := AddQueries(t, k, qs, 0);
      QueriesEntered(t, k, qs, 0, x);
      RecordsEntered(t1, ms, flag, i + 1, x);
      EnteredTwice(t, t1, AddRecords(t1, ms, flag, i + 1), AsksAbout(k, qs, 0), AsksFrom(ms, flag, i + 1),
                   LinksAbout(k, qs, 0), LinksFrom(ms, flag, i + 1), x);
      AsksSplit(ms, flag, i);
      LinksSplit(ms, flag, i);
    }
  }

  lemma AsksSplit(ms: seq<Metadata>, flag: bool, i: nat)
    requires i < |ms|
    ensures AsksFrom(ms, flag, i)
            == AsksAbout(FiledUnderKey(ms[i]), AssociatedQueries(ms[i], flag), 0) + AsksFrom(ms, flag, i + 1)
  {
  }

  lemma LinksSplit(ms: seq<Metadata>, flag: bool, i: nat)
    requires i < |ms|
    ensures LinksFrom(ms, flag, i)
            == LinksAbout(FiledUnderKey(ms[i]), AssociatedQueries(ms[i], flag), 0) + LinksFrom(ms, flag, i + 1)
  {
  }
}
