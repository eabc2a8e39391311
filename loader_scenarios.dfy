/**
 * The record loader's unit-test scenarios, each stated as a lemma over a
 * concrete search service, record factory and fallback registry: the exact
 * result and the exact sequence of collaborator calls.
 */
module LoaderScenarios {
  import opened Wrappers
  import opened Records
  import opened Identifiers
  import opened Grouping
  import opened RecordLoader

  /** A search service that finds nothing. */
  const EmptyService: SearchService :=
    SearchService((s: string, id: string, p: Option<ParamBag>) => [],
                  (s: string, ids: seq<string>, p: Option<ParamBag>) => [])

  /** A fallback registry that has a loader for every source, returning `records`. */
  function FallbackReturning(records: seq<Driver>): FallbackLoader {
    FallbackLoader(s => true, (s: string, ids: seq<string>) => records)
  }

  /** The single-record test driver: unique id `test`, source `Solr`. */
  const TestDriver: Driver := Driver("test", "Solr")

  /** The placeholder the tests' factory hands out for `Missing`. */
  const MissingRecord: Driver := Driver("missing", "Missing")

  /** An unknown record without tolerance throws `RecordMissing` after one `retrieve`. */
  lemma MissingRecordThrows(factory: string -> Driver)
    ensures Loader(EmptyService, factory, None).Load("test") ==
      Traced(Failure(RecordMissing("Record Solr:test does not exist.")), [Retrieve("Solr", "test", None)])
  {
    assert MissingMessage("Solr", "test") == "Record Solr:test does not exist.";
  }

  /** An unknown record is taken from the fallback loader of its source. */
  lemma MissingRecordFromFallback(factory: string -> Driver)
    ensures Loader(EmptyService, factory, Some(FallbackReturning([TestDriver]))).Load("test", "Summon") ==
      Traced(Success(TestDriver),
             [Retrieve("Summon", "test", None), FallbackHas("Summon"), FallbackGet("Summon"),
              FallbackLoad("Summon", ["test"])])
  {
  }

  /** A tolerated unknown record becomes the factory's `Missing` placeholder. */
  lemma ToleratedMissingRecord()
    ensures Loader(EmptyService, name => MissingRecord, None).Load("test", "Solr", true) ==
      Traced(Success(MissingRecord), [Retrieve("Solr", "test", None), FactoryGet("Missing")])
  {
  }

  /** A found record is returned as the backend returned it. */
  lemma SingleRecord(factory: string -> Driver)
    ensures
      var service := SearchService((s: string, id: string, p: Option<ParamBag>) => [TestDriver],
                                   (s: string, ids: seq<string>, p: Option<ParamBag>) => []);
      Loader(service, factory, None).Load("test") ==
        Traced(Success(TestDriver), [Retrieve("Solr", "test", None)])
  {
  }

  /** Backend parameters reach `retrieve` unchanged. */
  lemma SingleRecordWithBackendParameters(factory: string -> Driver)
    ensures
      var params := map["fq" := ["id:test"]];
      var service := SearchService((s: string, id: string, p: Option<ParamBag>) => [TestDriver],
                                   (s: string, ids: seq<string>, p: Option<ParamBag>) => []);
      Loader(service, factory, None).Load("test", "Solr", false, Some(params)) ==
        Traced(Success(TestDriver), [Retrieve("Solr", "test", Some(params))])
  {
  }

  /** The three requests of the fallback batch test, over sources `a` and `b`; the last two are compound keys. */
  function Requests2(a: string, b: string): seq<RawRequest> {
    [Fields(a, "test1"), Key(KeyOf(RecordRef(a, "test2"))), Key(KeyOf(RecordRef(b, "test3")))]
  }

  function Refs2(a: string, b: string): seq<RecordRef> {
    [RecordRef(a, "test1"), RecordRef(a, "test2"), RecordRef(b, "test3")]
  }

  /** The four requests of the plain batch test: those three and a compound key for `c`. */
  function Requests(a: string, b: string, c: string): seq<RawRequest> {
    Requests2(a, b) + [Key(KeyOf(RecordRef(c, "test4")))]
  }

  function Refs(a: string, b: string, c: string): seq<RecordRef> {
    Refs2(a, b) + [RecordRef(c, "test4")]
  }

  lemma ParseRequests2(a: string, b: string)
    requires Separator !in a && Separator !in b
    ensures ParseAll(Requests2(a, b)) == Success(Refs2(a, b))
  {
    var raws, refs := Requests2(a, b), Refs2(a, b);
    ParseKeyOf(RecordRef(a, "test2"));
    ParseKeyOf(RecordRef(b, "test3"));
    forall i | 0 <= i < |raws|
      ensures Parse(raws[i]) == Success(refs[i])
    {
      if i == 0 {
        assert raws[0] == Fields(a, "test1");
      } else if i == 1 {
        assert raws[1] == Key(KeyOf(RecordRef(a, "test2")));
      } else {
        assert raws[2] == Key(KeyOf(RecordRef(b, "test3")));
      }
    }
    ParseAllSucceeds(raws, refs);
  }

  lemma ParseRequests(a: string, b: string, c: string)
    requires Separator !in a && Separator !in b && Separator !in c
    ensures ParseAll(Requests(a, b, c)) == Success(Refs(a, b, c))
  {
    var raws := Requests(a, b, c);
    ParseRequests2(a, b);
    ParseKeyOf(RecordRef(c, "test4"));
    assert raws[..|raws| - 1] == Requests2(a, b);
    assert raws[|raws| - 1] == Key(KeyOf(RecordRef(c, "test4")));
  }

  lemma KeyLiteral(source: string, id: string, key: string)
    requires |key| == |source| + 1 + |id|
    requires key[..|source|] == source && key[|source|] == Separator && key[|source| + 1..] == id
    ensures KeyOf(RecordRef(source, id)) == key
  {
    assert key == key[..|source|] + [key[|source|]] + key[|source| + 1..];
  }

  /** The batch tests' inputs, written as the tests write them. */
  lemma BatchInputLiteral()
    ensures Requests2("Solr", "Summon") == [Fields("Solr", "test1"), Key("Solr|test2"), Key("Summon|test3")]
    ensures Requests("Solr", "Summon", "WorldCat") ==
      [Fields("Solr", "test1"), Key("Solr|test2"), Key("Summon|test3"), Key("WorldCat|test4")]
  {
    KeyLiteral("Solr", "test2", "Solr|test2");
    KeyLiteral("Summon", "test3", "Summon|test3");
    KeyLiteral("WorldCat", "test4", "WorldCat|test4");
  }

  /** The sources of the fallback batch test's requests, in first-seen order. */
  lemma GroupSources2(a: string, b: string)
    requires a != b
    ensures Sources(Refs2(a, b)) == [a, b]
  {
    var r := Refs2(a, b);
    assert Sources(r[..1]) == [a] by {
      assert r[..1][..0] == [];
    }
    assert Sources(r[..2]) == [a] by {
      assert r[..2][..1] == r[..1];
    }
    assert r[..2] == r[..|r| - 1];
  }

  /** The sources of the plain batch test's requests, in first-seen order. */
  lemma GroupSources(a: string, b: string, c: string)
    requires a != b && a != c && b != c
    ensures Sources(Refs(a, b, c)) == [a, b, c]
  {
    var r := Refs(a, b, c);
    GroupSources2(a, b);
    assert r[..|r| - 1] == Refs2(a, b);
  }

  /** The ids of each source of the fallback batch test's requests, in request order. */
  lemma GroupIds2(a: string, b: string)
    requires a != b
    ensures IdsFor(Refs2(a, b), a) == ["test1", "test2"]
    ensures IdsFor(Refs2(a, b), b) == ["test3"]
  {
    var r := Refs2(a, b);
    assert r[..1][..0] == [] && r[..2][..1] == r[..1] && r[..2] == r[..|r| - 1];
    assert IdsFor(r[..1], a) == ["test1"] && IdsFor(r[..1], b) == [];
    assert IdsFor(r[..2], a) == ["test1", "test2"] && IdsFor(r[..2], b) == [];
  }

  /** The ids of each source of the plain batch test's requests, in request order. */
  lemma GroupIds(a: string, b: string, c: string)
    requires a != b && a != c && b != c
    ensures IdsFor(Refs(a, b, c), a) == ["test1", "test2"]
    ensures IdsFor(Refs(a, b, c), b) == ["test3"]
    ensures IdsFor(Refs(a, b, c), c) == ["test4"]
  {
    var r := Refs(a, b, c);
    GroupIds2(a, b);
    assert r[..|r| - 1] == Refs2(a, b);
    IdsForEmpty(Refs2(a, b), c);
  }

  /** The batch tests' backend: two records of `a`, one of `b` when `bFound`, nothing else. */
  function BatchService(a: string, b: string, bFound: bool): SearchService {
    SearchService(
      (s: string, id: string, p: Option<ParamBag>) => [],
      (s: string, ids: seq<string>, p: Option<ParamBag>) =>
        if s == a then [Driver("test1", a), Driver("test2", a)]
        else if s == b && bFound then [Driver("test3", b)]
        else [])
  }

  /** Ids all of which the records answer leave nothing missing. */
  lemma {:induction false} NoneMissing(ids: seq<string>, source: string, records: seq<Driver>)
    requires forall k :: 0 <= k < |ids| ==> Lookup(records, RecordRef(source, ids[k])).Some?
    ensures MissingIds(ids, source, records) == []
  {
    if ids != [] {
      NoneMissing(ids[..|ids| - 1], source, records);
    }
  }

  lemma FoundAll(l: Loader, refs: seq<RecordRef>, params: map<string, ParamBag>, s: string, records: seq<Driver>)
    requires l.Primary(refs, params, s) == records
    requires forall k :: 0 <= k < |IdsFor(refs, s)| ==> Lookup(records, RecordRef(s, IdsFor(refs, s)[k])).Some?
    ensures l.Missing(refs, params, s) == []
  {
    NoneMissing(IdsFor(refs, s), s, records);
  }

  /** Three answered slots need no placeholder. */
  lemma ThreeAnswered(l: Loader, d1: Driver, d2: Driver, d3: Driver)
    ensures l.Fill([Some(d1), Some(d2), Some(d3)]) == [d1, d2, d3]
    ensures l.PlaceholderCalls([Some(d1), Some(d2), Some(d3)]) == []
  {
    var s1, s2, s3 := [Some(d1)], [Some(d1), Some(d2)], [Some(d1), Some(d2), Some(d3)];
    assert s1[..0] == [] && s2[..1] == s1 && s3[..2] == s2;
    assert l.Fill(s1) == [d1] && l.PlaceholderCalls(s1) == [];
    assert l.Fill(s2) == [d1, d2] && l.PlaceholderCalls(s2) == [];
    assert l.Fill(s3) == l.Fill(s2) + [d3];
  }

  /** Three answered slots and a gap: the gap is the placeholder, built by one factory call. */
  lemma ThreeAnsweredOneGap(l: Loader, slots: seq<Option<Driver>>, d1: Driver, d2: Driver, d3: Driver)
    requires |slots| == 4 && slots[..3] == [Some(d1), Some(d2), Some(d3)] && slots[3] == None
    ensures l.Fill(slots) == [d1, d2, d3, l.factory(MissingDriver)]
    ensures l.PlaceholderCalls(slots) == [FactoryGet(MissingDriver)]
  {
    ThreeAnswered(l, d1, d2, d3);
  }

  /** The group of `a` is answered by its `retrieveBatch` call alone. */
  lemma FirstGroup(l: Loader, a: string, b: string, bFound: bool, params: map<string, ParamBag>,
                   refs: seq<RecordRef>)
    requires l.service == BatchService(a, b, bFound)
    requires IdsFor(refs, a) == ["test1", "test2"]
    ensures l.Primary(refs, params, a) == [Driver("test1", a), Driver("test2", a)]
    ensures l.Missing(refs, params, a) == []
    ensures l.SourceCalls(refs, params, a) == [RetrieveBatch(a, ["test1", "test2"], ParamsFor(params, a))]
  {
    var d1, d2 := Driver("test1", a), Driver("test2", a);
    assert Lookup([d1, d2], RecordRef(a, "test2")) == Some(d2) by {
      assert !Matches(d1, RecordRef(a, "test2"));
    }
    FoundAll(l, refs, params, a, [d1, d2]);
  }

  /** The group of `b` is answered by its `retrieveBatch` call exactly when the backend has its record. */
  lemma SecondGroup(l: Loader, a: string, b: string, bFound: bool, params: map<string, ParamBag>,
                    refs: seq<RecordRef>)
    requires a != b
    requires l.service == BatchService(a, b, bFound)
    requires IdsFor(refs, b) == ["test3"]
    ensures l.Primary(refs, params, b) == if bFound then [Driver("test3", b)] else []
    ensures l.Missing(refs, params, b) == if bFound then [] else ["test3"]
    ensures l.SourceCalls(refs, params, b) ==
      [RetrieveBatch(b, ["test3"], ParamsFor(params, b))] + if bFound then [] else l.FallbackCalls(b, ["test3"])
  {
    if bFound {
      FoundAll(l, refs, params, b, [Driver("test3", b)]);
    } else {
      assert MissingIds(["test3"], b, []) == ["test3"] by {
        assert ["test3"][..0] == [];
      }
    }
  }

  /** The group of `c` is not answered by the backend. */
  lemma ThirdGroup(l: Loader, a: string, b: string, c: string, bFound: bool, params: map<string, ParamBag>,
                   refs: seq<RecordRef>)
    requires a != c && b != c
    requires l.service == BatchService(a, b, bFound)
    requires IdsFor(refs, c) == ["test4"]
    ensures l.Primary(refs, params, c) == []
    ensures l.Missing(refs, params, c) == ["test4"]
    ensures l.SourceCalls(refs, params, c) ==
      [RetrieveBatch(c, ["test4"], ParamsFor(params, c))] + l.FallbackCalls(c, ["test4"])
  {
    assert MissingIds(["test4"], c, []) == ["test4"] by {
      assert ["test4"][..0] == [];
    }
  }

  /** The calls for two groups, in order. */
  lemma TwoGroups(l: Loader, refs: seq<RecordRef>, params: map<string, ParamBag>, a: string, b: string)
    ensures l.DispatchCalls(refs, params, [a, b]) ==
      l.SourceCalls(refs, params, a) + l.SourceCalls(refs, params, b)
  {
    assert [a, b][..1] == [a] && [a][..0] == [];
    assert l.DispatchCalls(refs, params, [a]) == l.SourceCalls(refs, params, a);
  }

  /** The calls for three groups, in order. */
  lemma ThreeGroups(l: Loader, refs: seq<RecordRef>, params: map<string, ParamBag>, a: string, b: string, c: string)
    ensures l.DispatchCalls(refs, params, [a, b, c]) ==
      l.SourceCalls(refs, params, a) + l.SourceCalls(refs, params, b) + l.SourceCalls(refs, params, c)
  {
    TwoGroups(l, refs, params, a, b);
    assert [a, b, c][..2] == [a, b];
    assert l.DispatchCalls(refs, params, [a, b, c]) ==
      l.DispatchCalls(refs, params, [a, b]) + l.SourceCalls(refs, params, c);
  }

  /** The slot of a request the backend answers with `d`. */
  lemma AnsweredSlot(l: Loader, refs: seq<RecordRef>, params: map<string, ParamBag>, i: nat, d: Driver)
    requires i < |refs|
    requires Lookup(l.Primary(refs, params, refs[i].source), refs[i]) == Some(d)
    ensures l.Slots(refs, params)[i] == Some(d)
  {
  }

  /** The slot of a request answered only by the registry's loader with `d`. */
  lemma RecoveredSlot(l: Loader, refs: seq<RecordRef>, params: map<string, ParamBag>, i: nat, d: Driver)
    requires i < |refs|
    requires Lookup(l.Primary(refs, params, refs[i].source), refs[i]).None?
    requires Lookup(l.Secondary(refs, params, refs[i].source), refs[i]) == Some(d)
    ensures l.Slots(refs, params)[i] == Some(d)
  {
  }

  /** The slot of a request nobody answers. */
  lemma EmptySlot(l: Loader, refs: seq<RecordRef>, params: map<string, ParamBag>, i: nat)
    requires i < |refs|
    requires l.Primary(refs, params, refs[i].source) == [] && l.Secondary(refs, params, refs[i].source) == []
    ensures l.Slots(refs, params)[i] == None
  {
  }

  lemma LookupSecond(d1: Driver, d2: Driver, ref: RecordRef)
    requires !Matches(d1, ref) && Matches(d2, ref)
    ensures Lookup([d1, d2], ref) == Some(d2)
  {
    assert [d1, d2][1..] == [d2];
  }

  /** The result and calls of `loadBatch`, from what its parts yield. */
  lemma Assemble(l: Loader, raws: seq<RawRequest>, params: map<string, ParamBag>, refs: seq<RecordRef>,
                 sources: seq<string>, calls: seq<Call>, out: seq<Driver>, tail: seq<Call>)
    requires ParseAll(raws) == Success(refs) && Sources(refs) == sources
    requires l.DispatchCalls(refs, params, sources) == calls
    requires l.Fill(l.Slots(refs, params)) == out && l.PlaceholderCalls(l.Slots(refs, params)) == tail
    ensures l.LoadBatchSpec(raws, false, params) == Traced(Success(out), calls + tail)
  {
  }

  /** Four one-call logs in a row are the four-call log. */
  lemma Singletons(w: Call, x: Call, y: Call, z: Call)
    ensures [w] + [x] + [y] + [z] == [w, x, y, z]
  {
  }

  /** Five calls logged group by group are the five-call log. */
  lemma Nested(v: Call, w: Call, x: Call, y: Call, z: Call)
    ensures [v] + ([w] + ([x] + [y, z])) + [] == [v, w, x, y, z]
  {
  }

  /** The first three requests of a batch are answered, by the backend or else the registry. */
  lemma AnsweredSlots(l: Loader, a: string, b: string, params: map<string, ParamBag>,
                      refs: seq<RecordRef>, bFound: bool)
    requires a != b
    requires |refs| >= 3 && refs[..3] == Refs2(a, b)
    requires IdsFor(refs, a) == ["test1", "test2"] && IdsFor(refs, b) == ["test3"]
    requires l.service == BatchService(a, b, bFound)
    requires !bFound ==> l.fallback == Some(FallbackReturning([Driver("test3", b)]))
    ensures l.Slots(refs, params)[..3] == [Some(Driver("test1", a)), Some(Driver("test2", a)), Some(Driver("test3", b))]
  {
    assert refs[0] == RecordRef(a, "test1") && refs[1] == RecordRef(a, "test2") && refs[2] == RecordRef(b, "test3") by {
      assert refs[..3][0] == refs[0] && refs[..3][1] == refs[1] && refs[..3][2] == refs[2];
    }
    FirstGroup(l, a, b, bFound, params, refs);
    AnsweredSlot(l, refs, params, 0, Driver("test1", a));
    assert "test1"[4] != "test2"[4];
    LookupSecond(Driver("test1", a), Driver("test2", a), refs[1]);
    AnsweredSlot(l, refs, params, 1, Driver("test2", a));
    SecondGroup(l, a, b, bFound, params, refs);
    if bFound {
      AnsweredSlot(l, refs, params, 2, Driver("test3", b));
    } else {
      RecoveredSlot(l, refs, params, 2, Driver("test3", b));
    }
  }

  /** The slots of the four-request batch when nobody has the record of `c`. */
  lemma FourSlotsOf(l: Loader, a: string, b: string, c: string, params: map<string, ParamBag>)
    requires a != b && a != c && b != c
    requires l.service == BatchService(a, b, true) && l.fallback == None
    ensures l.Fill(l.Slots(Refs(a, b, c), params)) ==
      [Driver("test1", a), Driver("test2", a), Driver("test3", b), l.factory(MissingDriver)]
    ensures l.PlaceholderCalls(l.Slots(Refs(a, b, c), params)) == [FactoryGet(MissingDriver)]
  {
    var refs := Refs(a, b, c);
    var slots := l.Slots(refs, params);
    GroupIds(a, b, c);
    assert refs[..3] == Refs2(a, b);
    AnsweredSlots(l, a, b, params, refs, true);
    EmptySlot(l, refs, params, 3) by {
      ThirdGroup(l, a, b, c, true, params, refs);
    }
    assert slots[..3] == [Some(Driver("test1", a)), Some(Driver("test2", a)), Some(Driver("test3", b))];
    ThreeAnsweredOneGap(l, slots, Driver("test1", a), Driver("test2", a), Driver("test3", b));
  }

  /** The calls of each group of the four-request batch, and their order. */
  lemma BatchGroupCalls(l: Loader, a: string, b: string, c: string, bFound: bool, params: map<string, ParamBag>)
    returns (callsA: seq<Call>, callsB: seq<Call>, callsC: seq<Call>)
    requires a != b && a != c && b != c
    requires l.service == BatchService(a, b, bFound)
    ensures callsA == [RetrieveBatch(a, ["test1", "test2"], ParamsFor(params, a))]
    ensures callsB == [RetrieveBatch(b, ["test3"], ParamsFor(params, b))] +
      if bFound then [] else l.FallbackCalls(b, ["test3"])
    ensures callsC == [RetrieveBatch(c, ["test4"], ParamsFor(params, c))] + l.FallbackCalls(c, ["test4"])
    ensures l.DispatchCalls(Refs(a, b, c), params, [a, b, c]) == callsA + callsB + callsC
  {
    var refs := Refs(a, b, c);
    GroupIds(a, b, c);
    FirstGroup(l, a, b, bFound, params, refs);
    SecondGroup(l, a, b, bFound, params, refs);
    ThirdGroup(l, a, b, c, bFound, params, refs);
    ThreeGroups(l, refs, params, a, b, c);
    callsA, callsB, callsC := l.SourceCalls(refs, params, a), l.SourceCalls(refs, params, b), l.SourceCalls(refs, params, c);
  }

  /**
   * The four-request batch over sources `a`, `b`, `c` with parameters for
   * `a` and `c`: `a` and `b` answered by the backend, `c` by nobody, so its
   * slot is the factory's placeholder.
   */
  lemma BatchLoadOver(l: Loader, a: string, b: string, c: string, pa: ParamBag, pc: ParamBag)
    requires a != b && a != c && b != c
    requires Separator !in a && Separator !in b && Separator !in c
    requires l.service == BatchService(a, b, true) && l.fallback == None
    ensures l.LoadBatchSpec(Requests(a, b, c), false, map[a := pa, c := pc]) ==
      Traced(Success([Driver("test1", a), Driver("test2", a), Driver("test3", b), l.factory(MissingDriver)]),
             [RetrieveBatch(a, ["test1", "test2"], Some(pa)), RetrieveBatch(b, ["test3"], None),
              RetrieveBatch(c, ["test4"], Some(pc)), FactoryGet(MissingDriver)])
  {
    var missing := l.factory(MissingDriver);
    var refs := Refs(a, b, c);
    var params := map[a := pa, c := pc];
    ParseRequests(a, b, c);
    GroupSources(a, b, c);
    FourSlotsOf(l, a, b, c, params);
    assert ParamsFor(params, a) == Some(pa) && ParamsFor(params, b) == None && ParamsFor(params, c) == Some(pc);
    var callsA, callsB, callsC := BatchGroupCalls(l, a, b, c, true, params);
    var x, y, z := RetrieveBatch(a, ["test1", "test2"], Some(pa)), RetrieveBatch(b, ["test3"], None),
      RetrieveBatch(c, ["test4"], Some(pc));
    assert l.FallbackCalls(c, ["test4"]) == [];
    assert callsA == [x] && callsB == [y] && callsC == [z];
    Assemble(l, Requests(a, b, c), params, refs, [a, b, c], callsA + callsB + callsC,
             [Driver("test1", a), Driver("test2", a), Driver("test3", b), missing], [FactoryGet(MissingDriver)]);
    Singletons(x, y, z, FactoryGet(MissingDriver));
  }

  /** The slots of the three-request batch when the registry supplies the record of `b`. */
  lemma ThreeSlotsOf(l: Loader, a: string, b: string, params: map<string, ParamBag>)
    requires a != b
    requires l.service == BatchService(a, b, false) && l.fallback == Some(FallbackReturning([Driver("test3", b)]))
    ensures l.Fill(l.Slots(Refs2(a, b), params)) == [Driver("test1", a), Driver("test2", a), Driver("test3", b)]
    ensures l.PlaceholderCalls(l.Slots(Refs2(a, b), params)) == []
  {
    var refs := Refs2(a, b);
    var slots := l.Slots(refs, params);
    GroupIds2(a, b);
    assert refs[..3] == refs;
    AnsweredSlots(l, a, b, params, refs, false);
    assert slots == slots[..3];
    ThreeAnswered(l, Driver("test1", a), Driver("test2", a), Driver("test3", b));
  }

  /**
   * The three-request batch over `a` and `b` with parameters for `a`: the
   * backend answers `a`, the registry's loader for `b` supplies its record.
   */
  lemma BatchLoadWithFallbackOver(l: Loader, a: string, b: string, pa: ParamBag)
    requires a != b
    requires Separator !in a && Separator !in b
    requires l.service == BatchService(a, b, false) && l.fallback == Some(FallbackReturning([Driver("test3", b)]))
    ensures l.LoadBatchSpec(Requests2(a, b), false, map[a := pa]) ==
      Traced(Success([Driver("test1", a), Driver("test2", a), Driver("test3", b)]),
             [RetrieveBatch(a, ["test1", "test2"], Some(pa)), RetrieveBatch(b, ["test3"], None),
              FallbackHas(b), FallbackGet(b), FallbackLoad(b, ["test3"])])
  {
    var refs := Refs2(a, b);
    var params := map[a := pa];
    ParseRequests2(a, b);
    GroupSources2(a, b);
    GroupIds2(a, b);
    ThreeSlotsOf(l, a, b, params);
    FirstGroup(l, a, b, false, params, refs);
    SecondGroup(l, a, b, false, params, refs);
    TwoGroups(l, refs, params, a, b);
    assert ParamsFor(params, a) == Some(pa) && ParamsFor(params, b) == None;
    var x, y := RetrieveBatch(a, ["test1", "test2"], Some(pa)), RetrieveBatch(b, ["test3"], None);
    var has, get, load := FallbackHas(b), FallbackGet(b), FallbackLoad(b, ["test3"]);
    assert l.FallbackCalls(b, ["test3"]) == [has] + [get, load];
    Assemble(l, Requests2(a, b), params, refs, [a, b], [x] + ([y] + ([has] + [get, load])),
             [Driver("test1", a), Driver("test2", a), Driver("test3", b)], []);
    Nested(x, y, has, get, load);
  }

  const SolrParams: ParamBag := map["fq" := ["id:test1"]]
  const WorldCatParams: ParamBag := map["fq" := ["id:test4"]]

  /** The tests' record factory: every plugin it is asked for is the `Missing` placeholder. */
  const PlaceholderFactory: string -> Driver := name => MissingRecord

  /**
   * Batch load: one `retrieveBatch` per source in first-seen order with that
   * source's parameters (none for Summon), records in request order, and
   * the WorldCat record nobody has becomes the `Missing` placeholder.
   */
  lemma BatchLoad()
    ensures Loader(BatchService("Solr", "Summon", true), PlaceholderFactory, None).LoadBatchSpec(
        [Fields("Solr", "test1"), Key("Solr|test2"), Key("Summon|test3"), Key("WorldCat|test4")],
        false, map["Solr" := SolrParams, "WorldCat" := WorldCatParams]) ==
      Traced(Success([Driver("test1", "Solr"), Driver("test2", "Solr"), Driver("test3", "Summon"), MissingRecord]),
             [RetrieveBatch("Solr", ["test1", "test2"], Some(SolrParams)),
              RetrieveBatch("Summon", ["test3"], None),
              RetrieveBatch("WorldCat", ["test4"], Some(WorldCatParams)),
              FactoryGet("Missing")])
  {
    assert "Solr" != "Summon" && "Solr" != "WorldCat" && "Summon" != "WorldCat" by {
      assert |"Solr"| == 4 && |"Summon"| == 6 && |"WorldCat"| == 8;
    }
    BatchInputLiteral();
    BatchLoadOver(Loader(BatchService("Solr", "Summon", true), PlaceholderFactory, None),
                  "Solr", "Summon", "WorldCat", SolrParams, WorldCatParams);
  }

  /**
   * Batch load with a fallback registry: the Summon record the backend does
   * not return is asked of the Summon fallback loader, which supplies it.
   */
  lemma BatchLoadWithFallback(factory: string -> Driver)
    ensures
      var fallback := Some(FallbackReturning([Driver("test3", "Summon")]));
      Loader(BatchService("Solr", "Summon", false), factory, fallback).LoadBatchSpec(
        [Fields("Solr", "test1"), Key("Solr|test2"), Key("Summon|test3")], false, map["Solr" := SolrParams]) ==
      Traced(Success([Driver("test1", "Solr"), Driver("test2", "Solr"), Driver("test3", "Summon")]),
             [RetrieveBatch("Solr", ["test1", "test2"], Some(SolrParams)),
              RetrieveBatch("Summon", ["test3"], None),
              FallbackHas("Summon"), FallbackGet("Summon"), FallbackLoad("Summon", ["test3"])])
  {
    assert "Solr" != "Summon" by {
      assert |"Solr"| == 4 && |"Summon"| == 6;
    }
    BatchInputLiteral();
    BatchLoadWithFallbackOver(
      Loader(BatchService("Solr", "Summon", false), factory, Some(FallbackReturning([Driver("test3", "Summon")]))),
      "Solr", "Summon", SolrParams);
  }
}
