/**
 * What `load` and `loadBatch` promise: the backend calls they make, where
 * the caller's parameters go, when the fallback registry and the record
 * factory are consulted, and where each record ends up.
 */
module LoaderProperties {
  import opened Wrappers
  import opened Records
  import opened Identifiers
  import opened Grouping
  import opened RecordLoader

  /** Every factory call asks for the `Missing` plugin. */
  ghost predicate OnlyPlaceholders(calls: seq<Call>) {
    forall c :: c in calls && c.FactoryGet? ==> c.name == MissingDriver
  }

  /** A log with no search-service call has no search-service calls to report. */
  lemma {:induction false} NoBackendCalls(calls: seq<Call>)
    requires forall c :: c in calls ==> !c.Retrieve? && !c.RetrieveBatch?
    ensures BackendCalls(calls) == []
  {
    if calls != [] {
      NoBackendCalls(calls[..|calls| - 1]);
      assert calls[|calls| - 1] in calls;
    }
  }

  lemma {:induction false} NoFactoryCalls(calls: seq<Call>)
    requires forall c :: c in calls ==> !c.FactoryGet?
    ensures CountFactoryCalls(calls) == 0
  {
    if calls != [] {
      NoFactoryCalls(calls[..|calls| - 1]);
      assert calls[|calls| - 1] in calls;
    }
  }

  lemma FallbackCallsShape(l: Loader, source: string, ids: seq<string>)
    ensures BackendCalls(l.FallbackCalls(source, ids)) == []
    ensures CountFactoryCalls(l.FallbackCalls(source, ids)) == 0
    ensures forall c :: c in l.FallbackCalls(source, ids) ==>
      (c.FallbackHas? || c.FallbackGet? || c.FallbackLoad?) && c.source == source &&
      (c.FallbackLoad? ==> c.ids == ids && l.fallback.Some? && l.fallback.value.has(source))
    ensures l.fallback.Some? ==> FallbackHas(source) in l.FallbackCalls(source, ids)
  {
    var r := l.FallbackCalls(source, ids);
    assert forall c :: c in r ==> (c.FallbackHas? || c.FallbackGet? || c.FallbackLoad?);
    NoBackendCalls(r);
    NoFactoryCalls(r);
    if l.fallback.Some? {
      assert r[0] == FallbackHas(source);
    }
  }

  /** The one search-service call made for a group is its `retrieveBatch` call. */
  lemma SourceBackendCalls(l: Loader, refs: seq<RecordRef>, params: map<string, ParamBag>, s: string)
    ensures BackendCalls(l.SourceCalls(refs, params, s)) ==
      [RetrieveBatch(s, IdsFor(refs, s), ParamsFor(params, s))]
  {
    var head := [RetrieveBatch(s, IdsFor(refs, s), ParamsFor(params, s))];
    var missing := l.Missing(refs, params, s);
    var tail := if missing == [] then [] else l.FallbackCalls(s, missing);
    FallbackCallsShape(l, s, missing);
    BackendCallsAppend(head, tail);
    assert BackendCalls(head) == head by {
      assert head[..0] == [];
    }
  }

  /** A group asks the registry only about its own missing ids, and always does when some are missing. */
  lemma SourceRegistryCalls(l: Loader, refs: seq<RecordRef>, params: map<string, ParamBag>, s: string)
    ensures forall c :: c in l.SourceCalls(refs, params, s) ==>
      !c.FactoryGet? && !c.Retrieve? &&
      ((c.FallbackHas? || c.FallbackGet? || c.FallbackLoad?) ==>
        c.source == s && l.Missing(refs, params, s) != []) &&
      (c.FallbackLoad? ==> c.ids == l.Missing(refs, params, s) && l.fallback.Some? && l.fallback.value.has(s))
    ensures l.Missing(refs, params, s) != [] && l.fallback.Some? ==>
      FallbackHas(s) in l.SourceCalls(refs, params, s)
  {
    var missing := l.Missing(refs, params, s);
    FallbackCallsShape(l, s, missing);
  }

  /** `load` makes exactly one search-service call: `retrieve(source, id, params)`, first. */
  lemma LoadRetrievesOnce(l: Loader, id: string, source: string, tolerateMissing: bool,
                          params: Option<ParamBag>)
    ensures var t := l.Load(id, source, tolerateMissing, params);
      |t.calls| > 0 && t.calls[0] == Retrieve(source, id, params) &&
      BackendCalls(t.calls) == [Retrieve(source, id, params)]
  {
    var first := [Retrieve(source, id, params)];
    var fb := l.FallbackCalls(source, [id]);
    FallbackCallsShape(l, source, [id]);
    BackendCallsAppend(first, fb);
    BackendCallsAppend(first + fb, [FactoryGet(MissingDriver)]);
  }

  /**
   * What `load` returns: the first record of its backend call; else the
   * first record the fallback supplies; else, only when tolerated, the
   * `Missing` placeholder (built by exactly one factory call); else it throws
   * `RecordMissing` with the message "Record <source>:<id> does not exist.".
   */
  lemma LoadOutcome(l: Loader, id: string, source: string, tolerateMissing: bool,
                    params: Option<ParamBag>)
    ensures var t := l.Load(id, source, tolerateMissing, params);
      var found := l.service.retrieve(source, id, params);
      var recovered := l.Recovered(source, [id]);
      var nothing := found == [] && recovered == [];
      && (found != [] ==> t.result == Success(found[0]))
      && (found == [] && recovered != [] ==> t.result == Success(recovered[0]))
      && (t.result.Failure? <==> nothing && !tolerateMissing)
      && (t.result.Failure? ==> t.result.error == RecordMissing(MissingMessage(source, id)))
      && (nothing && tolerateMissing ==> t.result == Success(l.factory(MissingDriver)))
      && CountFactoryCalls(t.calls) == (if nothing && tolerateMissing then 1 else 0)
      && OnlyPlaceholders(t.calls)
  {
    var first := [Retrieve(source, id, params)];
    var fb := l.FallbackCalls(source, [id]);
    FallbackCallsShape(l, source, [id]);
    CountFactoryCallsAppend(first, fb);
    CountFactoryCallsAppend(first + fb, [FactoryGet(MissingDriver)]);
    assert CountFactoryCalls(first) == 0 by {
      assert first[..0] == [];
    }
  }

  /** `loadBatch` fails only on a request it cannot parse, and then calls nothing. */
  lemma LoadBatchFailsOnlyOnBadInput(l: Loader, raws: seq<RawRequest>, tolerate: bool,
                                     params: map<string, ParamBag>)
    ensures var t := l.LoadBatchSpec(raws, tolerate, params);
      && (t.result.Success? <==> forall i :: 0 <= i < |raws| ==> Parse(raws[i]).Success?)
      && (t.result.Failure? ==> t.result.error.InvalidIdentifier? && t.calls == [])
  {
    var t := l.LoadBatchSpec(raws, tolerate, params);
    if t.result.Failure? {
      var i :| 0 <= i < |raws| && Parse(raws[i]) == Failure(t.result.error);
    }
  }

  /** The second argument of `loadBatch` changes neither the result nor the calls. */
  lemma LoadBatchIgnoresFlag(l: Loader, raws: seq<RawRequest>, params: map<string, ParamBag>)
    ensures l.LoadBatchSpec(raws, true, params) == l.LoadBatchSpec(raws, false, params)
  {
  }

  lemma {:induction false} FillAt(l: Loader, slots: seq<Option<Driver>>, i: nat)
    requires i < |slots|
    ensures l.Fill(slots)[i] == if slots[i].Some? then slots[i].value else l.factory(MissingDriver)
  {
    var init := slots[..|slots| - 1];
    if i < |init| {
      FillAt(l, init, i);
    }
  }

  /**
   * `loadBatch` returns one record per request, in request order: the first
   * record from that source's backend call that answers the request (by
   * source identifier and unique id), else the first fallback record that
   * answers it, else the `Missing` placeholder.
   */
  lemma LoadBatchSlot(l: Loader, raws: seq<RawRequest>, tolerate: bool, params: map<string, ParamBag>, i: nat)
    requires i < |raws|
    requires l.LoadBatchSpec(raws, tolerate, params).result.Success?
    ensures var out := l.LoadBatchSpec(raws, tolerate, params).result.value;
      var refs := ParseAll(raws).value;
      var ref := refs[i];
      var primary := l.service.retrieveBatch(ref.source, IdsFor(refs, ref.source), ParamsFor(params, ref.source));
      && |out| == |raws|
      && Parse(raws[i]) == Success(ref)
      && (Matches(out[i], ref) || out[i] == l.factory(MissingDriver))
      && (Lookup(primary, ref).Some? ==> out[i] == Lookup(primary, ref).value)
      && (Lookup(primary, ref).None? && Lookup(l.Secondary(refs, params, ref.source), ref).Some? ==>
            out[i] == Lookup(l.Secondary(refs, params, ref.source), ref).value)
      && (l.Resolve(refs, params, ref).None? ==> out[i] == l.factory(MissingDriver))
  {
    var refs := ParseAll(raws).value;
    var slots := l.Slots(refs, params);
    FillAt(l, slots, i);
    var ref := refs[i];
    LookupFirstMatch(l.Primary(refs, params, ref.source), ref);
    LookupFirstMatch(l.Secondary(refs, params, ref.source), ref);
    if slots[i].Some? {
      var found := slots[i].value;
      if Lookup(l.Primary(refs, params, ref.source), ref).Some? {
        var k :| FirstMatchAt(l.Primary(refs, params, ref.source), ref, k) &&
          l.Primary(refs, params, ref.source)[k] == found;
      } else {
        var k :| FirstMatchAt(l.Secondary(refs, params, ref.source), ref, k) &&
          l.Secondary(refs, params, ref.source)[k] == found;
      }
    }
  }

  /** The search-service calls made for the groups of `sources`. */
  function BatchRequests(refs: seq<RecordRef>, params: map<string, ParamBag>, sources: seq<string>): seq<Call> {
    seq(|sources|, k requires 0 <= k < |sources| =>
      RetrieveBatch(sources[k], IdsFor(refs, sources[k]), ParamsFor(params, sources[k])))
  }

  lemma BatchRequestsStep(refs: seq<RecordRef>, params: map<string, ParamBag>, sources: seq<string>)
    requires sources != []
    ensures var s := sources[|sources| - 1];
      BatchRequests(refs, params, sources) == BatchRequests(refs, params, sources[..|sources| - 1]) +
        [RetrieveBatch(s, IdsFor(refs, s), ParamsFor(params, s))]
  {
  }

  lemma {:induction false} DispatchBackendCalls(l: Loader, refs: seq<RecordRef>, params: map<string, ParamBag>,
                                                sources: seq<string>)
    ensures BackendCalls(l.DispatchCalls(refs, params, sources)) == BatchRequests(refs, params, sources)
  {
    if sources != [] {
      var init := sources[..|sources| - 1];
      var s := sources[|sources| - 1];
      DispatchBackendCalls(l, refs, params, init);
      SourceBackendCalls(l, refs, params, s);
      BackendCallsAppend(l.DispatchCalls(refs, params, init), l.SourceCalls(refs, params, s));
      BatchRequestsStep(refs, params, sources);
    }
  }

  lemma {:induction false} PlaceholderCallsShape(l: Loader, slots: seq<Option<Driver>>)
    ensures BackendCalls(l.PlaceholderCalls(slots)) == []
    ensures CountFactoryCalls(l.PlaceholderCalls(slots)) == CountMissing(slots)
    ensures forall c :: c in l.PlaceholderCalls(slots) ==> c == FactoryGet(MissingDriver)
  {
    if slots != [] {
      var init := slots[..|slots| - 1];
      PlaceholderCallsShape(l, init);
      var last := if slots[|slots| - 1].None? then [FactoryGet(MissingDriver)] else [];
      BackendCallsAppend(l.PlaceholderCalls(init), last);
      CountFactoryCallsAppend(l.PlaceholderCalls(init), last);
      assert last == [] || last[..0] == [];
    }
  }

  /**
   * `loadBatch` calls the search service once per distinct source, in the
   * order the sources first appear, always through `retrieveBatch` (even for
   * a single id), with the ids of that source in request order and that
   * source's own parameter bag (none when the caller gave none for it).
   */
  lemma LoadBatchBackendCalls(l: Loader, raws: seq<RawRequest>, tolerate: bool, params: map<string, ParamBag>)
    requires ParseAll(raws).Success?
    ensures var refs := ParseAll(raws).value;
      var sources := Sources(refs);
      var calls := l.LoadBatchSpec(raws, tolerate, params).calls;
      BackendCalls(calls) == seq(|sources|, k requires 0 <= k < |sources| =>
        RetrieveBatch(sources[k], IdsFor(refs, sources[k]), ParamsFor(params, sources[k])))
  {
    var refs := ParseAll(raws).value;
    var slots := l.Slots(refs, params);
    DispatchBackendCalls(l, refs, params, Sources(refs));
    PlaceholderCallsShape(l, slots);
    BackendCallsAppend(l.DispatchCalls(refs, params, Sources(refs)), l.PlaceholderCalls(slots));
  }

  lemma {:induction false} DispatchRegistryCalls(l: Loader, refs: seq<RecordRef>, params: map<string, ParamBag>,
                                                 sources: seq<string>)
    ensures forall c :: c in l.DispatchCalls(refs, params, sources) ==>
      !c.FactoryGet? && !c.Retrieve? &&
      ((c.FallbackHas? || c.FallbackGet? || c.FallbackLoad?) ==>
        c.source in sources && l.Missing(refs, params, c.source) != []) &&
      (c.FallbackLoad? ==> c.ids == l.Missing(refs, params, c.source) && l.fallback.Some? && l.fallback.value.has(c.source))
    ensures forall s :: s in sources && l.Missing(refs, params, s) != [] && l.fallback.Some? ==>
      FallbackHas(s) in l.DispatchCalls(refs, params, sources)
  {
    if sources != [] {
      var init := sources[..|sources| - 1];
      var s := sources[|sources| - 1];
      DispatchRegistryCalls(l, refs, params, init);
      SourceRegistryCalls(l, refs, params, s);
      assert sources == init + [s];
      var before := l.DispatchCalls(refs, params, init);
      var last := l.SourceCalls(refs, params, s);
      assert l.DispatchCalls(refs, params, sources) == before + last;
      forall c | c in before + last
        ensures c in before || c in last
      {
      }
    }
  }

  /** A call to the fallback registry. */
  predicate IsRegistryCall(c: Call) {
    c.FallbackHas? || c.FallbackGet? || c.FallbackLoad?
  }

  /** The registry calls of `calls` that concern `source`, in order. */
  function RegistryLog(calls: seq<Call>, source: string): seq<Call> {
    if calls == [] then []
    else
      var c := calls[|calls| - 1];
      RegistryLog(calls[..|calls| - 1], source) + if IsRegistryCall(c) && c.source == source then [c] else []
  }

  lemma {:induction false} RegistryLogAppend(a: seq<Call>, b: seq<Call>, source: string)
    ensures RegistryLog(a + b, source) == RegistryLog(a, source) + RegistryLog(b, source)
  {
    if b != [] {
      var init := b[..|b| - 1];
      assert (a + b)[..|a + b| - 1] == a + init;
      RegistryLogAppend(a, init, source);
    } else {
      assert a + b == a;
    }
  }

  /** A log with no registry call about `source` has an empty registry log for it. */
  lemma {:induction false} RegistryLogNone(calls: seq<Call>, source: string)
    requires forall c :: c in calls ==> !(IsRegistryCall(c) && c.source == source)
    ensures RegistryLog(calls, source) == []
  {
    if calls != [] {
      RegistryLogNone(calls[..|calls| - 1], source);
      assert calls[|calls| - 1] in calls;
    }
  }

  /** A log made only of registry calls about `source` is its own registry log. */
  lemma {:induction false} RegistryLogAll(calls: seq<Call>, source: string)
    requires forall c :: c in calls ==> IsRegistryCall(c) && c.source == source
    ensures RegistryLog(calls, source) == calls
  {
    if calls != [] {
      var init := calls[..|calls| - 1];
      RegistryLogAll(init, source);
      assert calls[|calls| - 1] in calls;
      assert calls == init + [calls[|calls| - 1]];
    }
  }

  /** Every call of a registry log was made. */
  lemma {:induction false} RegistryLogMade(calls: seq<Call>, source: string)
    ensures forall c :: c in RegistryLog(calls, source) ==> c in calls
  {
    if calls != [] {
      var init := calls[..|calls| - 1];
      RegistryLogMade(init, source);
      assert calls == init + [calls[|calls| - 1]];
    }
  }

  /**
   * The registry exchange expected for the ids of `source` still missing:
   * none when nothing is missing or no registry is configured; otherwise one
   * `has(source)`, followed, only when it answers yes, by one `get(source)`
   * and one `load` of exactly the missing ids.
   */
  function RegistryProtocol(l: Loader, source: string, missing: seq<string>): seq<Call> {
    if missing == [] || l.fallback.None? then []
    else if l.fallback.value.has(source) then
      [FallbackHas(source), FallbackGet(source), FallbackLoad(source, missing)]
    else [FallbackHas(source)]
  }

  /** The calls asking the registry for missing ids follow the expected exchange. */
  lemma FallbackCallsProtocol(l: Loader, source: string, ids: seq<string>)
    requires ids != []
    ensures l.FallbackCalls(source, ids) == RegistryProtocol(l, source, ids)
  {
  }

  /** A group's registry calls are the expected exchange for its missing ids, and concern no other source. */
  lemma SourceRegistryLog(l: Loader, refs: seq<RecordRef>, params: map<string, ParamBag>, s: string, t: string)
    ensures RegistryLog(l.SourceCalls(refs, params, s), t) ==
      if s == t then RegistryProtocol(l, s, l.Missing(refs, params, s)) else []
  {
    var missing := l.Missing(refs, params, s);
    var head := [RetrieveBatch(s, IdsFor(refs, s), ParamsFor(params, s))];
    var tail := if missing == [] then [] else l.FallbackCalls(s, missing);
    assert l.SourceCalls(refs, params, s) == head + tail;
    RegistryLogAppend(head, tail, t);
    RegistryLogNone(head, t);
    var expected := RegistryProtocol(l, s, missing);
    assert tail == expected by {
      if missing != [] {
        FallbackCallsProtocol(l, s, missing);
      }
    }
    if s == t {
      RegistryLogAll(expected, t);
    } else {
      RegistryLogNone(expected, t);
    }
  }

  /**
   * Over distinct sources, the registry calls about `t` are the expected
   * exchange for its missing ids when `t` is one of them, and none otherwise:
   * at most one `has`, `get` and `load` per source.
   */
  lemma {:induction false} DispatchRegistryLog(l: Loader, refs: seq<RecordRef>, params: map<string, ParamBag>,
                                               sources: seq<string>, t: string)
    requires forall i, j :: 0 <= i < j < |sources| ==> sources[i] != sources[j]
    ensures RegistryLog(l.DispatchCalls(refs, params, sources), t) ==
      if t in sources then RegistryProtocol(l, t, l.Missing(refs, params, t)) else []
  {
    if sources != [] {
      var init := sources[..|sources| - 1];
      var s := sources[|sources| - 1];
      assert sources == init + [s];
      assert t !in init || t != s by {
        if t in init {
          var i :| 0 <= i < |init| && init[i] == t;
          assert sources[i] == t;
        }
      }
      DispatchRegistryLog(l, refs, params, init, t);
      SourceRegistryLog(l, refs, params, s, t);
      RegistryLogAppend(l.DispatchCalls(refs, params, init), l.SourceCalls(refs, params, s), t);
    }
  }

  /**
   * For each source of the batch, `loadBatch` asks the registry `has` once
   * when some of its ids are missing and a registry is configured, and then
   * `get` and `load` of exactly the missing ids once each when `has` answers
   * yes; it asks nothing about a source with no missing ids or outside the
   * batch.
   */
  lemma LoadBatchRegistryLog(l: Loader, raws: seq<RawRequest>, tolerate: bool, params: map<string, ParamBag>,
                             t: string)
    requires ParseAll(raws).Success?
    ensures var refs := ParseAll(raws).value;
      var calls := l.LoadBatchSpec(raws, tolerate, params).calls;
      RegistryLog(calls, t) ==
        if t in Sources(refs) then RegistryProtocol(l, t, l.Missing(refs, params, t)) else []
  {
    var refs := ParseAll(raws).value;
    var slots := l.Slots(refs, params);
    SourcesDistinct(refs);
    DispatchRegistryLog(l, refs, params, Sources(refs), t);
    PlaceholderCallsShape(l, slots);
    RegistryLogNone(l.PlaceholderCalls(slots), t);
    RegistryLogAppend(l.DispatchCalls(refs, params, Sources(refs)), l.PlaceholderCalls(slots), t);
  }

  /**
   * When `has(s)` answers yes for a source with missing ids, `loadBatch`
   * calls `get(s)` and `load` of exactly those ids.
   */
  lemma LoadBatchLoadsFromRegistry(l: Loader, raws: seq<RawRequest>, tolerate: bool,
                                   params: map<string, ParamBag>, s: string)
    requires ParseAll(raws).Success?
    requires s in Sources(ParseAll(raws).value)
    requires l.Missing(ParseAll(raws).value, params, s) != []
    requires l.fallback.Some? && l.fallback.value.has(s)
    ensures var calls := l.LoadBatchSpec(raws, tolerate, params).calls;
      FallbackGet(s) in calls && FallbackLoad(s, l.Missing(ParseAll(raws).value, params, s)) in calls
  {
    var calls := l.LoadBatchSpec(raws, tolerate, params).calls;
    LoadBatchRegistryLog(l, raws, tolerate, params, s);
    RegistryLogMade(calls, s);
    var log := RegistryLog(calls, s);
    assert log[1] in log && log[2] in log;
  }

  /**
   * The whole log of `load`: its `retrieve` call; when that finds nothing,
   * the expected registry exchange for `[id]`; and when nothing is recovered
   * and a miss is tolerated, one factory call for `Missing`.
   */
  lemma LoadCallLog(l: Loader, id: string, source: string, tolerateMissing: bool, params: Option<ParamBag>)
    ensures var t := l.Load(id, source, tolerateMissing, params);
      var found := l.service.retrieve(source, id, params);
      var recovered := l.Recovered(source, [id]);
      t.calls == [Retrieve(source, id, params)] +
        (if found == [] then RegistryProtocol(l, source, [id]) else []) +
        (if found == [] && recovered == [] && tolerateMissing then [FactoryGet(MissingDriver)] else [])
  {
    FallbackCallsProtocol(l, source, [id]);
  }

  /**
   * The fallback registry is consulted only for a source some of whose ids
   * the backend did not return, and for every such source when a registry is
   * configured; its loader receives exactly those missing ids. The record
   * factory is called once per placeholder, always for `Missing`.
   */
  lemma LoadBatchRegistryAndFactoryCalls(l: Loader, raws: seq<RawRequest>, tolerate: bool,
                                         params: map<string, ParamBag>)
    requires ParseAll(raws).Success?
    ensures var refs := ParseAll(raws).value;
      var sources := Sources(refs);
      var calls := l.LoadBatchSpec(raws, tolerate, params).calls;
      && (forall c :: c in calls && (c.FallbackHas? || c.FallbackGet? || c.FallbackLoad?) ==>
            c.source in sources && l.Missing(refs, params, c.source) != [])
      && (forall c :: c in calls && c.FallbackLoad? ==>
            c.ids == l.Missing(refs, params, c.source) && l.fallback.Some? && l.fallback.value.has(c.source))
      && (forall s :: s in sources && l.Missing(refs, params, s) != [] && l.fallback.Some? ==> FallbackHas(s) in calls)
      && (forall s :: s in sources && l.Missing(refs, params, s) != [] && l.fallback.Some? && l.fallback.value.has(s) ==>
            FallbackGet(s) in calls && FallbackLoad(s, l.Missing(refs, params, s)) in calls)
      && CountFactoryCalls(calls) == CountMissing(l.Slots(refs, params))
      && OnlyPlaceholders(calls)
  {
    var refs := ParseAll(raws).value;
    var slots := l.Slots(refs, params);
    var dispatched := l.DispatchCalls(refs, params, Sources(refs));
    DispatchRegistryCalls(l, refs, params, Sources(refs));
    PlaceholderCallsShape(l, slots);
    CountFactoryCallsAppend(dispatched, l.PlaceholderCalls(slots));
    assert CountFactoryCalls(dispatched) == 0 by {
      NoFactoryCalls(dispatched);
    }
    forall s | s in Sources(refs) && l.Missing(refs, params, s) != [] && l.fallback.Some? && l.fallback.value.has(s)
      ensures var calls := l.LoadBatchSpec(raws, tolerate, params).calls;
        FallbackGet(s) in calls && FallbackLoad(s, l.Missing(refs, params, s)) in calls
    {
      LoadBatchLoadsFromRegistry(l, raws, tolerate, params, s);
    }
  }
}
