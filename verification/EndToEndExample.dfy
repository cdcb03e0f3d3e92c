/** The smallest case of the end-to-end statement: one course in one catalog, indexed into an empty index. */
module EndToEndExample {
  import opened Prelude
  import opened ObjectIds
  import opened ContentRefs
  import opened SearchIndex
  import opened BatchIndexer
  import opened BatchEffects
  import opened Shards
  import opened ShardFacets
  import opened IndexingMappings
  import opened BatchIndependence
  import opened Generator
  import opened EndToEnd
  import opened FirstBatch

  const UUID := "00000000-0000-0000-0000-000000000000"

  const COURSE_REF := ContentRef(Course, "c")

  function Render(): Renderer {
    (m: F.Metadata, academies: set<string>) =>
      Card(m.contentType, Some(UUID), AggregationKeyFor(RefOf(m)), Body("", academies), None, false)
  }

  function TheCall(): Call {
    Call(OneOfEach(), [THE_COURSE], Render(), _ => None, [])
  }

  function TheRegistry(): Registry {
    map[COURSE_REF := UUID]
  }

  lemma OnlyTheCourseIsLoaded()
    ensures LoadedFor(OneOfEach(), {"c"}, [THE_COURSE])
  {
    var s := OneOfEach();
    forall m: F.Metadata
      ensures m in Loaded(s.rows, {"c"}, s.mappings.indexable) <==> m == THE_COURSE
    {
      assert Wanted(THE_COURSE, {"c"}) && !Wanted(THE_PROGRAM, {"c"}) && !Wanted(THE_PATHWAY, {"c"});
    }
  }

  lemma ItIsAUuid()
    ensures IsUuid(UUID)
  {
  }

  lemma TheRegistryIsGood()
    ensures GoodRegistry(TheRegistry())
  {
    ItIsAUuid();
  }

  lemma TheCourseIsRendered(g: Making)
    requires g.render == Render()
    ensures Rendered(g, [THE_COURSE], TheRegistry())
  {
    assert RefOf(THE_COURSE) == COURSE_REF;
  }

  lemma TheCallIsWellMade()
    ensures WellMade(MakingOf(TheCall()), [THE_COURSE], [], TheRegistry())
  {
    TheRegistryIsGood();
    TheCourseIsRendered(MakingOf(TheCall()));
  }

  lemma TheCallIsTitled()
    ensures Titled(TheCall().loaded, TheCall().source.flag, TheCall().titles)
  {
  }

  lemma TheCourseHasObjects()
    ensures ObjectsOf(MakingOf(TheCall()), THE_COURSE) != []
  {
    var c := TheCall();
    var g := MakingOf(c);
    OneOfEachIsCoherent();
    OnlyTheCourseIsLoaded();
    RequestedGetsDeserved(OneOfEach(), {"c"}, [THE_COURSE], THE_COURSE);
    CourseIsInCatalog();
    ListingHolds(g.tables, "c", c.titles);
    assert "u" in Elems(Listing(g.tables, "c", c.titles).catalogs);
    NoShardsIffNowhere(c.render(THE_COURSE, F.Get(g.tables.academies, "c")), Listing(g.tables, "c", c.titles));
  }

  lemma {:induction false} ListedOnce<T>(xs: seq<T>) returns (ys: seq<T>)
    ensures NoDup(ys) && forall y :: y in ys <==> y in xs
  {
    if xs == [] {
      ys := [];
    } else {
      ys := ListedOnce(xs[1..]);
      if xs[0] !in ys {
        ys := ys + [xs[0]];
      }
      assert forall y :: y in xs <==> y == xs[0] || y in xs[1..];
    }
  }

  function TheTaskFor(objects: seq<Shard>): Task {
    Task(Course, ["c"], false, map[COURSE_REF := 5], map["c" := objects], {"c"})
  }

  function TheRoundFor(objects: seq<Shard>): Round {
    Round(TheTaskFor(objects), [Plan(COURSE_REF, Indexed, true, true, objects, [], None)], GoodLuck(), 1000)
  }

  lemma ItsObjectsAreGenerated(g: Making, objects: seq<Shard>)
    requires WellMade(g, [THE_COURSE], [], TheRegistry())
    requires NoDup(objects) && forall o :: o in objects <==> o in ObjectsOf(g, THE_COURSE)
    ensures GeneratedFrom(map["c" := objects], Course, ["c"], ProductsOf(g, [THE_COURSE], []))
  {
    forall key, shard
      ensures NoDup(ListFor(map["c" := objects], key))
      ensures shard in ListFor(map["c" := objects], key)
              <==> key in ["c"] && FiledAs(ProductsOf(g, [THE_COURSE], []), ContentRef(Course, key), shard)
    {
      ProductsFiled(g, [THE_COURSE], [], TheRegistry(), COURSE_REF, shard);
      assert shard in ObjectsOf(g, THE_COURSE) <==> IsOwn(g, [THE_COURSE], THE_COURSE, shard);
    }
  }

  lemma PartsAreFed(r: Round, c: Call, reg: Registry)
    requires r.task.keys == ["c"] && r.task.contentType == Course
    requires Coherent(c.source) && LoadedFor(c.source, {"c"}, c.loaded)
    requires WellMade(MakingOf(c), c.loaded, c.videos, reg) && Titled(c.loaded, c.source.flag, c.titles)
    requires GeneratedFrom(r.task.generated, Course, ["c"], ProductsOf(MakingOf(c), c.loaded, c.videos))
    ensures FedBy(r, c, reg)
  {
    assert Elems(["c"]) == {"c"};
  }

  /** What the generator makes of the call, each object once, is what the task is handed. */
  lemma TheTaskIsFed(objects: seq<Shard>)
    requires NoDup(objects) && forall o :: o in objects <==> o in ObjectsOf(MakingOf(TheCall()), THE_COURSE)
    ensures FedBy(TheRoundFor(objects), TheCall(), TheRegistry())
  {
    OneOfEachIsCoherent();
    OnlyTheCourseIsLoaded();
    TheCallIsWellMade();
    ItsObjectsAreGenerated(MakingOf(TheCall()), objects);
    TheCallIsTitled();
    PartsAreFed(TheRoundFor(objects), TheCall(), TheRegistry());
  }

  lemma TheTaskEndsIndexed(objects: seq<Shard>)
    requires objects != []
    ensures EndsIndexed(map[], map[], TheRoundFor(objects), OwnerOf(TheRegistry()), 0)
  {
    var r := TheRoundFor(objects);
    assert RefAt(r.task, 0) == COURSE_REF;
    NothingHosted(AggregationKeyFor(COURSE_REF));
    assert Elems(r.plans[0].idsToDelete) == {};
    assert PlanFits(r.plans[0], COURSE_REF, SightOf(r.task, map[], COURSE_REF), r.luck.lookups(0), map[]);
    AllAcceptedAsPlanned(r, 0);
  }

  lemma TheObjects(g: Making) returns (objects: seq<Shard>)
    requires ObjectsOf(g, THE_COURSE) != []
    ensures NoDup(objects) && forall o :: o in objects <==> o in ObjectsOf(g, THE_COURSE)
    ensures objects != []
  {
    objects := ListedOnce(ObjectsOf(g, THE_COURSE));
    assert ObjectsOf(g, THE_COURSE)[0] in objects;
  }

  lemma TheTaskExists() returns (r: Round)
    ensures EndsIndexed(map[], map[], r, OwnerOf(TheRegistry()), 0) && FedBy(r, TheCall(), TheRegistry())
    ensures r.plans[0].ref == COURSE_REF
  {
    TheCourseHasObjects();
    var objects := TheObjects(MakingOf(TheCall()));
    r := TheRoundFor(objects);
    TheTaskIsFed(objects);
    TheTaskEndsIndexed(objects);
  }

  lemma TheCourseIsInTheTable()
    ensures TheCall().source == OneOfEach()
    ensures THE_COURSE in OneOfEach().rows && RefOf(THE_COURSE) == COURSE_REF
    ensures THE_COURSE.key in OneOfEach().mappings.indexable && !THE_COURSE.contentType.LearnerPathway?
    ensures "u" in Deserved(OneOfEach(), THE_COURSE).catalogs
  {
    CourseIsInCatalog();
  }

  /** The hypotheses of the end-to-end statement can be met together, and so the course is shown as it deserves. */
  lemma TheCourseIsShown() returns (r: Round)
    ensures EndsIndexed(map[], map[], r, OwnerOf(TheRegistry()), 0) && FedBy(r, TheCall(), TheRegistry())
    ensures ShownAs(HostedAfter(map[], r), OwnerOf(TheRegistry()), COURSE_REF, Deserved(OneOfEach(), THE_COURSE))
    ensures "u" in Deserved(OneOfEach(), THE_COURSE).catalogs
  {
    r := TheTaskExists();
    TheCourseIsInTheTable();
    IndexShowsWhatTheTableSays(map[], map[], r, TheRegistry(), 0, TheCall(), THE_COURSE);
  }
}
