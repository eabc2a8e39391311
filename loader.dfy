/**
 * The record loader: `load` fetches one record from a search backend,
 * `loadBatch` fetches a mixed list of records with one backend call per
 * source. Its collaborators (search service, record-driver factory and
 * fallback-loader registry) are given as function values, and every
 * operation reports the calls it made to them, in order.
 */
module RecordLoader {
  import opened Wrappers
  import opened Records
  import opened Identifiers
  import opened Grouping

  /** The search service: single-record and batch retrieval from one backend. */
  datatype SearchService = SearchService(
    retrieve: (string, string, Option<ParamBag>) -> seq<Driver>,
    retrieveBatch: (string, seq<string>, Option<ParamBag>) -> seq<Driver>)

  /**
   * The fallback-loader registry: `has(source)`, and `get(source).load(ids)`
   * folded into `load(source, ids)`.
   */
  datatype FallbackLoader = FallbackLoader(
    has: string -> bool,
    load: (string, seq<string>) -> seq<Driver>)

  /** A result together with the collaborator calls that produced it. */
  datatype Traced<T> = Traced(result: T, calls: seq<Call>)

  /** The parameter bag the caller supplied for `source`, if any. */
  function ParamsFor(params: map<string, ParamBag>, source: string): Option<ParamBag> {
    if source in params then Some(params[source]) else None
  }

  /** Message of the exception `load` throws for a record nobody could find. */
  function MissingMessage(source: string, id: string): string {
    "Record " + source + ":" + id + " does not exist."
  }

  /** The ids of `ids`, in order, that no record of `records` from `source` answers. */
  function MissingIds(ids: seq<string>, source: string, records: seq<Driver>): seq<string> {
    if ids == [] then []
    else
      var id := ids[|ids| - 1];
      MissingIds(ids[..|ids| - 1], source, records) +
        if Lookup(records, RecordRef(source, id)).None? then [id] else []
  }

  /** Exactly the requested ids that no returned record answers are missing. */
  lemma {:induction false} MissingIdsExact(ids: seq<string>, source: string, records: seq<Driver>)
    ensures forall id :: id in MissingIds(ids, source, records) <==>
      id in ids && Lookup(records, RecordRef(source, id)).None?
  {
    if ids != [] {
      var init := ids[..|ids| - 1];
      MissingIdsExact(init, source, records);
      assert ids == init + [ids[|ids| - 1]];
    }
  }

  /** Number of placeholder slots. */
  function CountMissing(slots: seq<Option<Driver>>): nat {
    if slots == [] then 0
    else CountMissing(slots[..|slots| - 1]) + if slots[|slots| - 1].None? then 1 else 0
  }

  /** Number of calls to the record factory. */
  function CountFactoryCalls(calls: seq<Call>): nat {
    if calls == [] then 0
    else CountFactoryCalls(calls[..|calls| - 1]) + if calls[|calls| - 1].FactoryGet? then 1 else 0
  }

  /** The calls made to the search service, in order. */
  function BackendCalls(calls: seq<Call>): seq<Call> {
    if calls == [] then []
    else
      var c := calls[|calls| - 1];
      BackendCalls(calls[..|calls| - 1]) + if c.Retrieve? || c.RetrieveBatch? then [c] else []
  }

  lemma {:induction false} BackendCallsAppend(a: seq<Call>, b: seq<Call>)
    ensures BackendCalls(a + b) == BackendCalls(a) + BackendCalls(b)
  {
    if b != [] {
      var init := b[..|b| - 1];
      assert (a + b)[..|a + b| - 1] == a + init;
      BackendCallsAppend(a, init);
    } else {
      assert a + b == a;
    }
  }

  lemma {:induction false} CountFactoryCallsAppend(a: seq<Call>, b: seq<Call>)
    ensures CountFactoryCalls(a + b) == CountFactoryCalls(a) + CountFactoryCalls(b)
  {
    if b != [] {
      var init := b[..|b| - 1];
      assert (a + b)[..|a + b| - 1] == a + init;
      CountFactoryCallsAppend(a, init);
    } else {
      assert a + b == a;
    }
  }

  /** The records one group yields: from its backend call, and from the fallback. */
  datatype Fetched = Fetched(primary: seq<Driver>, secondary: seq<Driver>)

  datatype Loader = Loader(
    service: SearchService,
    factory: string -> Driver,
    fallback: Option<FallbackLoader>)
  {
    /** The records the fallback registry supplies for `ids` of `source`. */
    function Recovered(source: string, ids: seq<string>): seq<Driver> {
      if fallback.Some? && fallback.value.has(source) then fallback.value.load(source, ids) else []
    }

    /** The registry calls made when `ids` of `source` are still missing. */
    function FallbackCalls(source: string, ids: seq<string>): seq<Call> {
      match fallback
      case None => []
      case Some(registry) =>
        [FallbackHas(source)] +
          if registry.has(source) then [FallbackGet(source), FallbackLoad(source, ids)] else []
    }

    /**
     * `load(id, source, tolerateMissing, params)`: one `retrieve` call; its
     * first record is the answer. Otherwise the fallback registry is asked
     * for `[id]`; otherwise a tolerated miss yields the `Missing`
     * placeholder and an untolerated one throws `RecordMissing`.
     */
    function Load(id: string, source: string := DefaultSource, tolerateMissing: bool := false,
                  params: Option<ParamBag> := None): Traced<Result<Driver, LoadError>>
    {
      var found := service.retrieve(source, id, params);
      var first := [Retrieve(source, id, params)];
      if found != [] then Traced(Success(found[0]), first)
      else
        var asked := first + FallbackCalls(source, [id]);
        var recovered := Recovered(source, [id]);
        if recovered != [] then Traced(Success(recovered[0]), asked)
        else if tolerateMissing then
          Traced(Success(factory(MissingDriver)), asked + [FactoryGet(MissingDriver)])
        else Traced(Failure(RecordMissing(MissingMessage(source, id))), asked)
    }

    /** What the one `retrieveBatch` call for `source` returns. */
    function Primary(refs: seq<RecordRef>, params: map<string, ParamBag>, source: string): seq<Driver> {
      service.retrieveBatch(source, IdsFor(refs, source), ParamsFor(params, source))
    }

    /** The ids of `source` that its backend call did not answer. */
    function Missing(refs: seq<RecordRef>, params: map<string, ParamBag>, source: string): seq<string> {
      MissingIds(IdsFor(refs, source), source, Primary(refs, params, source))
    }

    /** What the fallback registry supplies for the ids of `source` still missing. */
    function Secondary(refs: seq<RecordRef>, params: map<string, ParamBag>, source: string): seq<Driver> {
      var missing := Missing(refs, params, source);
      if missing == [] then [] else Recovered(source, missing)
    }

    /** The calls made while resolving the group of `source`. */
    function SourceCalls(refs: seq<RecordRef>, params: map<string, ParamBag>, source: string): seq<Call> {
      var missing := Missing(refs, params, source);
      [RetrieveBatch(source, IdsFor(refs, source), ParamsFor(params, source))] +
        if missing == [] then [] else FallbackCalls(source, missing)
    }

    /** The calls made while resolving the groups of `sources`, in that order. */
    function DispatchCalls(refs: seq<RecordRef>, params: map<string, ParamBag>, sources: seq<string>): seq<Call> {
      if sources == [] then []
      else
        DispatchCalls(refs, params, sources[..|sources| - 1]) +
          SourceCalls(refs, params, sources[|sources| - 1])
    }

    /** What the group of `source` yields: its backend records, then its fallback records. */
    function Fetch(refs: seq<RecordRef>, params: map<string, ParamBag>, source: string): Fetched {
      Fetched(Primary(refs, params, source), Secondary(refs, params, source))
    }

    /** The yield of every group of `sources`, by source. */
    function FetchAll(refs: seq<RecordRef>, params: map<string, ParamBag>, sources: seq<string>)
      : map<string, Fetched>
    {
      if sources == [] then map[]
      else
        var last := sources[|sources| - 1];
        FetchAll(refs, params, sources[..|sources| - 1])[last := Fetch(refs, params, last)]
    }

    lemma {:induction false} FetchAllCovers(refs: seq<RecordRef>, params: map<string, ParamBag>,
                                            sources: seq<string>, source: string)
      requires source in sources
      ensures source in FetchAll(refs, params, sources)
      ensures FetchAll(refs, params, sources)[source] == Fetch(refs, params, source)
    {
      var init := sources[..|sources| - 1];
      if source != sources[|sources| - 1] {
        assert sources == init + [sources[|sources| - 1]];
        FetchAllCovers(refs, params, init, source);
      }
    }

    /** The record that answers `ref`: from its backend call, else from the fallback. */
    function Resolve(refs: seq<RecordRef>, params: map<string, ParamBag>, ref: RecordRef): Option<Driver> {
      match Lookup(Primary(refs, params, ref.source), ref)
      case Some(d) => Some(d)
      case None => Lookup(Secondary(refs, params, ref.source), ref)
    }

    /** The answer for each requested slot, before placeholders are built. */
    function Slots(refs: seq<RecordRef>, params: map<string, ParamBag>): (r: seq<Option<Driver>>)
      ensures |r| == |refs|
    {
      seq(|refs|, i requires 0 <= i < |refs| => Resolve(refs, params, refs[i]))
    }

    /** The slots with every gap replaced by the `Missing` placeholder. */
    function Fill(slots: seq<Option<Driver>>): (r: seq<Driver>)
      ensures |r| == |slots|
    {
      if slots == [] then []
      else
        var last := slots[|slots| - 1];
        Fill(slots[..|slots| - 1]) + [if last.Some? then last.value else factory(MissingDriver)]
    }

    /** One factory call per gap, in slot order. */
    function PlaceholderCalls(slots: seq<Option<Driver>>): seq<Call> {
      if slots == [] then []
      else
        PlaceholderCalls(slots[..|slots| - 1]) +
          if slots[|slots| - 1].None? then [FactoryGet(MissingDriver)] else []
    }

    /**
     * `loadBatch(ids, flag, paramsBySource)`: the result and the calls.
     * The flag does not affect either.
     */
    function LoadBatchSpec(raws: seq<RawRequest>, tolerate: bool, params: map<string, ParamBag>)
      : Traced<Result<seq<Driver>, LoadError>>
    {
      match ParseAll(raws)
      case Failure(e) => Traced(Failure(e), [])
      case Success(refs) =>
        var slots := Slots(refs, params);
        Traced(Success(Fill(slots)), DispatchCalls(refs, params, Sources(refs)) + PlaceholderCalls(slots))
    }

    lemma DispatchStep(refs: seq<RecordRef>, params: map<string, ParamBag>, sources: seq<string>, k: nat)
      requires k < |sources|
      ensures DispatchCalls(refs, params, sources[..k + 1]) ==
        DispatchCalls(refs, params, sources[..k]) + SourceCalls(refs, params, sources[k])
      ensures FetchAll(refs, params, sources[..k + 1]) ==
        FetchAll(refs, params, sources[..k])[sources[k] := Fetch(refs, params, sources[k])]
    {
      assert sources[..k + 1][..k] == sources[..k];
      assert sources[..k + 1] == sources[..k] + [sources[k]];
    }

    /** One more group resolved: the yields and calls so far grow by that group's. */
    lemma DispatchAdvance(refs: seq<RecordRef>, params: map<string, ParamBag>, sources: seq<string>, k: nat,
                          fetched: map<string, Fetched>, calls: seq<Call>, one: Fetched, made: seq<Call>)
      requires k < |sources|
      requires fetched == FetchAll(refs, params, sources[..k]) && calls == DispatchCalls(refs, params, sources[..k])
      requires one == Fetch(refs, params, sources[k]) && made == SourceCalls(refs, params, sources[k])
      ensures fetched[sources[k] := one] == FetchAll(refs, params, sources[..k + 1])
      ensures calls + made == DispatchCalls(refs, params, sources[..k + 1])
    {
      DispatchStep(refs, params, sources, k);
    }

    lemma PlaceholderStep(slots: seq<Option<Driver>>, j: nat)
      requires j < |slots|
      ensures PlaceholderCalls(slots[..j + 1]) ==
        PlaceholderCalls(slots[..j]) + if slots[j].None? then [FactoryGet(MissingDriver)] else []
      ensures Fill(slots[..j + 1]) ==
        Fill(slots[..j]) + [if slots[j].Some? then slots[j].value else factory(MissingDriver)]
    {
      assert slots[..j + 1][..j] == slots[..j];
    }

    /**
     * Resolves the group of one source: a `retrieveBatch` call with that
     * source's parameters (or none), then, if some of its ids are still
     * missing and a registry is configured, the registry calls.
     */
    method LoadForSource(refs: seq<RecordRef>, params: map<string, ParamBag>, source: string, ids: seq<string>)
      returns (fetched: Fetched, ghost made: seq<Call>)
      requires ids == IdsFor(refs, source)
      ensures fetched == Fetch(refs, params, source)
      ensures made == SourceCalls(refs, params, source)
    {
      var sourceParams := ParamsFor(params, source);
      var records := service.retrieveBatch(source, ids, sourceParams);
      made := [RetrieveBatch(source, ids, sourceParams)];
      var missing := MissingIds(ids, source, records);
      var extra := [];
      if missing != [] && fallback.Some? {
        made := made + [FallbackHas(source)];
        if fallback.value.has(source) {
          made := made + [FallbackGet(source), FallbackLoad(source, missing)];
          extra := fallback.value.load(source, missing);
        }
      }
      fetched := Fetched(records, extra);
    }

    /** Resolves the groups of `sources`, one after the other. */
    method Dispatch(refs: seq<RecordRef>, params: map<string, ParamBag>, sources: seq<string>,
                    idsBySource: map<string, seq<string>>)
      returns (fetched: map<string, Fetched>, ghost calls: seq<Call>)
      requires forall s :: s in sources ==> s in idsBySource && idsBySource[s] == IdsFor(refs, s)
      ensures fetched == FetchAll(refs, params, sources)
      ensures calls == DispatchCalls(refs, params, sources)
    {
      fetched, calls := map[], [];
      var k := 0;
      while k < |sources|
        invariant 0 <= k <= |sources|
        invariant fetched == FetchAll(refs, params, sources[..k])
        invariant calls == DispatchCalls(refs, params, sources[..k])
      {
        var source := sources[k];
        var one, made := LoadForSource(refs, params, source, idsBySource[source]);
        DispatchAdvance(refs, params, sources, k, fetched, calls, one, made);
        fetched := fetched[source := one];
        calls := calls + made;
        k := k + 1;
      }
      assert sources[..k] == sources;
    }

    /**
     * Walks the requests in order: each slot gets the record that answers
     * it, from its backend call or else from the fallback, or a freshly
     * built `Missing` placeholder.
     */
    method Reassemble(refs: seq<RecordRef>, params: map<string, ParamBag>, fetched: map<string, Fetched>)
      returns (out: seq<Driver>, ghost calls: seq<Call>)
      requires fetched == FetchAll(refs, params, Sources(refs))
      ensures out == Fill(Slots(refs, params))
      ensures calls == PlaceholderCalls(Slots(refs, params))
    {
      ghost var slots := Slots(refs, params);
      out, calls := [], [];
      var j := 0;
      while j < |refs|
        invariant 0 <= j <= |refs|
        invariant out == Fill(slots[..j])
        invariant calls == PlaceholderCalls(slots[..j])
      {
        var ref := refs[j];
        SourcesListed(refs, j);
        FetchAllCovers(refs, params, Sources(refs), ref.source);
        var found := Lookup(fetched[ref.source].primary, ref);
        if found.None? {
          found := Lookup(fetched[ref.source].secondary, ref);
        }
        assert found == slots[j];
        PlaceholderStep(slots, j);
        if found.Some? {
          out := out + [found.value];
        } else {
          calls := calls + [FactoryGet(MissingDriver)];
          out := out + [factory(MissingDriver)];
        }
        j := j + 1;
      }
      assert slots[..j] == slots;
    }

    /**
     * `loadBatch`: groups the requests by source, dispatches one backend
     * call per source, and reassembles the records in request order.
     */
    method LoadBatch(raws: seq<RawRequest>, tolerate: bool := false, params: map<string, ParamBag> := map[])
      returns (r: Result<seq<Driver>, LoadError>, ghost calls: seq<Call>)
      ensures Traced(r, calls) == LoadBatchSpec(raws, tolerate, params)
    {
      var parsed, sources, idsBySource := GroupRequests(raws);
      if parsed.Failure? {
        r, calls := Failure(parsed.error), [];
        return;
      }
      var refs := parsed.value;
      var fetched, dispatched := Dispatch(refs, params, sources, idsBySource);
      var out, placeholders := Reassemble(refs, params, fetched);
      r, calls := Success(out), dispatched + placeholders;
    }
  }

  /** `sources` and `idsBySource` are the grouping of `refs`. */
  ghost predicate Grouped(refs: seq<RecordRef>, sources: seq<string>, idsBySource: map<string, seq<string>>) {
    && sources == Sources(refs)
    && (forall s :: s in idsBySource <==> s in sources)
    && (forall s :: s in idsBySource ==> idsBySource[s] == IdsFor(refs, s))
  }

  lemma ParseAdvance(raws: seq<RawRequest>, i: nat, refs: seq<RecordRef>, ref: RecordRef)
    requires i < |raws| && ParseAll(raws[..i]) == Success(refs) && Parse(raws[i]) == Success(ref)
    ensures ParseAll(raws[..i + 1]) == Success(refs + [ref])
  {
    assert raws[..i + 1][..i] == raws[..i];
  }

  /** Adding one request to the grouping: a new source goes last, a known one gets the id appended. */
  lemma GroupAdvance(refs: seq<RecordRef>, ref: RecordRef, sources: seq<string>,
                     idsBySource: map<string, seq<string>>)
    requires Grouped(refs, sources, idsBySource)
    ensures ref.source in idsBySource ==>
      Grouped(refs + [ref], sources, idsBySource[ref.source := idsBySource[ref.source] + [ref.id]])
    ensures ref.source !in idsBySource ==>
      Grouped(refs + [ref], sources + [ref.source], idsBySource[ref.source := [ref.id]])
  {
    GroupStep(refs, ref);
  }

  /**
   * Parses the requests in order and groups their ids by source, sources
   * in first-seen order; the first unparseable request aborts.
   */
  method GroupRequests(raws: seq<RawRequest>)
    returns (parsed: Result<seq<RecordRef>, LoadError>, sources: seq<string>,
             idsBySource: map<string, seq<string>>)
    ensures parsed == ParseAll(raws)
    ensures parsed.Success? ==> Grouped(parsed.value, sources, idsBySource)
  {
    var refs: seq<RecordRef> := [];
    sources, idsBySource := [], map[];
    var i := 0;
    while i < |raws|
      invariant 0 <= i <= |raws|
      invariant ParseAll(raws[..i]) == Success(refs)
      invariant Grouped(refs, sources, idsBySource)
    {
      var one := Parse(raws[i]);
      if one.Failure? {
        ParseAllStops(raws, i);
        parsed := Failure(one.error);
        return;
      }
      var ref := one.value;
      ParseAdvance(raws, i, refs, ref);
      GroupAdvance(refs, ref, sources, idsBySource);
      if ref.source in idsBySource {
        idsBySource := idsBySource[ref.source := idsBySource[ref.source] + [ref.id]];
      } else {
        sources := sources + [ref.source];
        idsBySource := idsBySource[ref.source := [ref.id]];
      }
      refs := refs + [ref];
      i := i + 1;
    }
    assert raws[..|raws|] == raws;
    parsed := Success(refs);
  }
}
