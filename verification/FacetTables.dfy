/**
 Collecting, for a batch of content, the catalogs, customers, queries and academies of each record: directly from
 records and runs, then from courses to programs, then from members to pathways.
 */
module FacetTables {
  import opened Prelude
  import opened ObjectIds
  import opened ContentRefs

  datatype Catalog = Catalog(uuid: string, customer: string, academies: set<string>)

  datatype CatalogQuery = CatalogQuery(uuid: string, title: Option<string>, catalogs: seq<Catalog>)

  /** One content record with its relations. `restrictedQueries` are those that explicitly allow its restricted runs. */
  datatype Metadata = Metadata(
    key: string,
    contentType: ContentType,
    parentKey: Option<string>,
    queries: seq<CatalogQuery>,
    restrictedQueries: seq<CatalogQuery>,
    advertised: bool,
    associated: set<ContentRef>)

  /** A run contributes to its parent course; one without a parent files under the empty key, which no record has. */
  function FiledUnderKey(m: Metadata): string {
    if !m.contentType.CourseRun? then m.key
    else if m.parentKey.Some? then m.parentKey.value
    else ""
  }

  /** A course with restricted runs only counts, when the setting is on, just for the queries that allow them. */
  function AssociatedQueries(m: Metadata, restrictedSetting: bool): seq<CatalogQuery> {
    if m.contentType.Course? && restrictedSetting && !m.advertised then m.restrictedQueries else m.queries
  }

  type QueryTuple = (string, Option<string>)

  type Multimap<T> = map<string, set<T>>

  /** A lookup in a dictionary whose missing entries are empty sets. */
  function Get<T>(m: Multimap<T>, k: string): set<T> {
    if k in m then m[k] else {}
  }

  function Add<T>(m: Multimap<T>, k: string, s: set<T>): Multimap<T> {
    m[k := Get(m, k) + s]
  }

  /** The seven dictionaries: four by content key, three by catalog. */
  datatype Tables = Tables(
    catalogs: Multimap<string>,
    customers: Multimap<string>,
    queries: Multimap<QueryTuple>,
    academies: Multimap<string>,
    queryByCatalog: Multimap<QueryTuple>,
    customerByCatalog: Multimap<string>,
    academiesByCatalog: Multimap<string>)

  const EMPTY_TABLES := Tables(map[], map[], map[], map[], map[], map[], map[])

  // ---------------------------------------------------------------- first pass

  function AddCatalog(t: Tables, k: string, q: CatalogQuery, c: Catalog): Tables {
    Tables(
      Add(t.catalogs, k, {c.uuid}),
      Add(t.customers, k, {c.customer}),
      t.queries,
      Add(t.academies, k, c.academies),
      Add(t.queryByCatalog, c.uuid, {(q.uuid, q.title)}),
      Add(t.customerByCatalog, c.uuid, {c.customer}),
      Add(t.academiesByCatalog, c.uuid, c.academies))
  }

  function AddCatalogs(t: Tables, k: string, q: CatalogQuery, i: nat): Tables
    requires i <= |q.catalogs|
    decreases |q.catalogs| - i
  {
    if i == |q.catalogs| then t else AddCatalogs(AddCatalog(t, k, q, q.catalogs[i]), k, q, i + 1)
  }

  function AddQuery(t: Tables, k: string, q: CatalogQuery): Tables {
    AddCatalogs(t.(queries := Add(t.queries, k, {(q.uuid, q.title)})), k, q, 0)
  }

  function AddQueries(t: Tables, k: string, qs: seq<CatalogQuery>, i: nat): Tables
    requires i <= |qs|
    decreases |qs| - i
  {
    if i == |qs| then t else AddQueries(AddQuery(t, k, qs[i]), k, qs, i + 1)
  }

  function AddRecords(t: Tables, ms: seq<Metadata>, restrictedSetting: bool, i: nat): Tables
    requires i <= |ms|
    decreases |ms| - i
  {
    if i == |ms| then t
    else
      var m := ms[i];
      var t1 := AddQueries(t, FiledUnderKey(m), AssociatedQueries(m, restrictedSetting), 0);
      AddRecords(t1, ms, restrictedSetting, i + 1)
  }

  // ---------------------------------------------------------------- second pass

  /** The catalogs every one of the courses is in; none when there are no courses. */
  function CommonCatalogs(catalogs: Multimap<string>, courses: set<string>): set<string> {
    set c, u | c in courses && u in Get(catalogs, c) && (forall d | d in courses :: u in Get(catalogs, d)) :: u
  }

  function Image<T>(entries: Multimap<T>, keys: set<string>): set<T> {
    set u, x | u in keys && x in Get(entries, u) :: x
  }

  function AbsorbCommon(t: Tables, program: string, courses: set<string>): Tables {
    var common := CommonCatalogs(t.catalogs, courses);
    t.(catalogs := Add(t.catalogs, program, common),
       queries := Add(t.queries, program, Image(t.queryByCatalog, common)),
       customers := Add(t.customers, program, Image(t.customerByCatalog, common)),
       academies := Add(t.academies, program, Image(t.academiesByCatalog, common)))
  }

  function SecondPass(t: Tables, ms: seq<Metadata>, courses: Multimap<string>, i: nat): Tables
    requires i <= |ms|
    decreases |ms| - i
  {
    if i == |ms| then t
    else if !ms[i].contentType.Program? then SecondPass(t, ms, courses, i + 1)
    else SecondPass(AbsorbCommon(t, ms[i].key, Get(courses, ms[i].key)), ms, courses, i + 1)
  }

  // ---------------------------------------------------------------- third pass

  function AbsorbMembers(t: Tables, pathway: string, members: set<string>): Tables {
    t.(catalogs := Add(t.catalogs, pathway, Image(t.catalogs, members)),
       queries := Add(t.queries, pathway, Image(t.queries, members)),
       customers := Add(t.customers, pathway, Image(t.customers, members)),
       academies := Add(t.academies, pathway, Image(t.academies, members)))
  }

  function ThirdPass(t: Tables, ms: seq<Metadata>, members: Multimap<string>, i: nat): Tables
    requires i <= |ms|
    decreases |ms| - i
  {
    if i == |ms| then t
    else if !ms[i].contentType.LearnerPathway? then ThirdPass(t, ms, members, i + 1)
    else ThirdPass(AbsorbMembers(t, ms[i].key, Get(members, ms[i].key)), ms, members, i + 1)
  }

  function AllPasses(ms: seq<Metadata>, courses: Multimap<string>, members: Multimap<string>,
                     restrictedSetting: bool): Tables
  {
    ThirdPass(SecondPass(AddRecords(EMPTY_TABLES, ms, restrictedSetting, 0), ms, courses, 0), ms, members, 0)
  }

  // ---------------------------------------------------------------- the dictionaries as the generator updates them

  class FacetCollector {
    var catalogs: Multimap<string>
    var customers: Multimap<string>
    var queries: Multimap<QueryTuple>
    var academies: Multimap<string>
    var queryByCatalog: Multimap<QueryTuple>
    var customerByCatalog: Multimap<string>
    var academiesByCatalog: Multimap<string>

    function Value(): Tables
      reads this
    {
      Tables(catalogs, customers, queries, academies, queryByCatalog, customerByCatalog, academiesByCatalog)
    }

    constructor ()
      ensures Value() == EMPTY_TABLES
    {
      catalogs, customers, queries, academies := map[], map[], map[], map[];
      queryByCatalog, customerByCatalog, academiesByCatalog := map[], map[], map[];
    }

    method CollectCatalog(k: string, q: CatalogQuery, c: Catalog)
      modifies this
      ensures Value() == AddCatalog(old(Value()), k, q, c)
    {
      catalogs := Add(catalogs, k, {c.uuid});
      customers := Add(customers, k, {c.customer});
      queryByCatalog := Add(queryByCatalog, c.uuid, {(q.uuid, q.title)});
      customerByCatalog := Add(customerByCatalog, c.uuid, {c.customer});
      academies := Add(academies, k, c.academies);
      academiesByCatalog := Add(academiesByCatalog, c.uuid, c.academies);
    }

    method CollectQuery(k: string, q: CatalogQuery)
      modifies this
      ensures Value() == AddQuery(old(Value()), k, q)
    {
      queries := Add(queries, k, {(q.uuid, q.title)});
      for i := 0 to |q.catalogs|
        invariant AddCatalogs(Value(), k, q, i) == AddQuery(old(Value()), k, q)
      {
        CollectCatalog(k, q, q.catalogs[i]);
      }
    }

    method CollectDirect(ms: seq<Metadata>, restrictedSetting: bool)
      modifies this
      ensures Value() == AddRecords(old(Value()), ms, restrictedSetting, 0)
    {
      for i := 0 to |ms|
        invariant AddRecords(Value(), ms, restrictedSetting, i) == AddRecords(old(Value()), ms, restrictedSetting, 0)
      {
        var qs := AssociatedQueries(ms[i], restrictedSetting);
        ghost var before := Value();
        for j := 0 to |qs|
          invariant AddQueries(Value(), FiledUnderKey(ms[i]), qs, j) == AddQueries(before, FiledUnderKey(ms[i]), qs, 0)
        {
          CollectQuery(FiledUnderKey(ms[i]), qs[j]);
        }
      }
    }

    /** The intersection of the courses' catalog sets, built up one course at a time. */
    method Intersect(courses: set<string>) returns (common: set<string>)
      ensures common == CommonCatalogs(catalogs, courses)
    {
      if courses == {} {
        return {};
      }
      var first :| first in courses;
      common := Get(catalogs, first);
      var rest := courses - {first};
      while rest != {}
        invariant rest <= courses && first in courses
        invariant common == set u | u in Get(catalogs, first) && forall d | d in courses - rest :: u in Get(catalogs, d)
        decreases rest
      {
        var course :| course in rest;
        common := common * Get(catalogs, course);
        rest := rest - {course};
      }
    }

    /** The union of the dictionary's sets over the keys. */
    static method Union<T(!new)>(entries: Multimap<T>, keys: set<string>) returns (all: set<T>)
      ensures all == Image(entries, keys)
    {
      all := {};
      var rest := keys;
      while rest != {}
        invariant rest <= keys && all == Image(entries, keys - rest)
        decreases rest
      {
        var key :| key in rest;
        all := all + Get(entries, key);
        rest := rest - {key};
      }
    }

    method CollectPrograms(ms: seq<Metadata>, courses: Multimap<string>)
      requires forall m :: m in ms && m.contentType.Program? ==> m.key in courses
      modifies this
      ensures Value() == SecondPass(old(Value()), ms, courses, 0)
    {
      for i := 0 to |ms|
        invariant SecondPass(Value(), ms, courses, i) == SecondPass(old(Value()), ms, courses, 0)
      {
        if ms[i].contentType.Program? {
          var program := ms[i].key;
          var common := Intersect(courses[program]);
          var q := Union(queryByCatalog, common);
          var cu := Union(customerByCatalog, common);
          var ac := Union(academiesByCatalog, common);
          catalogs := Add(catalogs, program, common);
          queries := Add(queries, program, q);
          customers := Add(customers, program, cu);
          academies := Add(academies, program, ac);
        }
      }
    }

    method CollectPathways(ms: seq<Metadata>, members: Multimap<string>)
      requires forall m :: m in ms && m.contentType.LearnerPathway? ==> m.key in members
      modifies this
      ensures Value() == ThirdPass(old(Value()), ms, members, 0)
    {
      for i := 0 to |ms|
        invariant ThirdPass(Value(), ms, members, i) == ThirdPass(old(Value()), ms, members, 0)
      {
        if ms[i].contentType.LearnerPathway? {
          var pathway := ms[i].key;
          var q := Union(queries, members[pathway]);
          var ca := Union(catalogs, members[pathway]);
          var cu := Union(customers, members[pathway]);
          var ac := Union(academies, members[pathway]);
          queries := Add(queries, pathway, q);
          catalogs := Add(catalogs, pathway, ca);
          customers := Add(customers, pathway, cu);
          academies := Add(academies, pathway, ac);
        }
      }
    }

    method CollectAll(ms: seq<Metadata>, courses: Multimap<string>, members: Multimap<string>, restrictedSetting: bool)
      requires Value() == EMPTY_TABLES
      requires forall m :: m in ms && m.contentType.Program? ==> m.key in courses
      requires forall m :: m in ms && m.contentType.LearnerPathway? ==> m.key in members
      modifies this
      ensures Value() == AllPasses(ms, courses, members, restrictedSetting)
    {
      CollectDirect(ms, restrictedSetting);
      CollectPrograms(ms, courses);
      CollectPathways(ms, members);
    }
  }
}
