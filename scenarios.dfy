/** The situations the repository's own tests describe, worked out on the
    model.  Producer identities are small numbers; a type that is only a
    declared annotation (such as `str`) gets an identity no producer has. */
module Scenarios {
  import opened Base
  import opened Dependency
  import opened Graph
  import opened Utils
  import opened Resolver
  import opened ResolverFacts

  const Str_ := 100
  const OptionalStr := 101

  function Plain(name: Name): Param { Param(name, false, Unannotated) }

  function Dep(name: Name, declared: ProducerId, d: Depends): Param
  {
    Param(name, false, Annotated(declared, DependsMark(d)))
  }

  /** `async def start(message, full_name: Annotated[str, d])`. */
  function StartParams(d: Depends): seq<Param>
  {
    [Plain("message"), Dep("full_name", Str_, d)]
  }

  // ---------------------------------------------------------------------------
  // The walker and the helpers

  /** The walk of `start`'s annotations: its dependency's own walk, then the
      dependency itself. */
  lemma StartWalk(reg: Registry, d: Depends, bound: nat)
    requires WellFormed(reg) && CallOf(d, Str_) < bound <= |reg|
    ensures CallsBelow(StartParams(d), bound)
    ensures GetDependencies(reg, StartParams(d), bound)
         == GetDependencies(reg, reg[CallOf(d, Str_)].params, CallOf(d, Str_)) + [Occurrence("full_name", d, Str_)]
  {
    var e := Dep("full_name", Str_, d);
    assert StartParams(d) == [Plain("message")] + [e];
    WalkOfOne(reg, Plain("message"), bound);
    WalkOfOne(reg, e, bound);
    WalkDistributes(reg, [Plain("message")], [e], bound);
  }


  /** `get_user_first_name` (0), `get_user_last_name` (1) and
      `get_user_full_name` (2), which depends on the other two. */
  function NameParts(): Registry
  {
    [Producer(Routine(PlainFn), [Plain("event_from_user")]),
     Producer(Routine(PlainFn), [Plain("event_from_user")]),
     Producer(Routine(PlainFn), [Dep("first_name", Str_, Depends(Some(0))), Dep("last_name", OptionalStr, Depends(Some(1)))])]
  }

  lemma NamePartsValid()
    ensures WellFormed(NameParts())
  {
    var reg := NameParts();
    assert UniqueNames(reg[0].params) && UniqueNames(reg[1].params) && UniqueNames(reg[2].params);
  }

  /** Two dependency entries whose producers take no dependencies of their
      own walk to the two entries, in order. */
  lemma TwoLeavesWalk(reg: Registry, a: Param, b: Param, bound: nat)
    requires WellFormed(reg) && bound <= |reg|
    requires IsDependencyParam(a) && ParamCall(a) < bound && GetDependencies(reg, reg[ParamCall(a)].params, ParamCall(a)) == []
    requires IsDependencyParam(b) && ParamCall(b) < bound && GetDependencies(reg, reg[ParamCall(b)].params, ParamCall(b)) == []
    ensures CallsBelow([a, b], bound)
    ensures GetDependencies(reg, [a, b], bound) == [OccurrenceOf(a), OccurrenceOf(b)]
  {
    assert [a, b] == [a] + [b];
    WalkOfOne(reg, a, bound);
    WalkOfOne(reg, b, bound);
    WalkDistributes(reg, [a], [b], bound);
  }

  lemma FullNameWalk()
    ensures WellFormed(NameParts())
    ensures GetDependencies(NameParts(), NameParts()[2].params, 2) == [
      Occurrence("first_name", Depends(Some(0)), Str_),
      Occurrence("last_name", Depends(Some(1)), OptionalStr)]
  {
    NamePartsValid();
    var reg := NameParts();
    var leaf := Plain("event_from_user");
    WalkOfOne(reg, leaf, 0);
    WalkOfOne(reg, leaf, 1);
    TwoLeavesWalk(reg, Dep("first_name", Str_, Depends(Some(0))), Dep("last_name", OptionalStr, Depends(Some(1))), 2);
  }

  /** Sub-dependencies come before the dependency that needs them, in
      parameter order. */
  lemma SubDependenciesWalk()
    ensures WellFormed(NameParts()) && CallsBelow(StartParams(Depends(Some(2))), 3)
    ensures GetDependencies(NameParts(), StartParams(Depends(Some(2))), 3) == [
      Occurrence("first_name", Depends(Some(0)), Str_),
      Occurrence("last_name", Depends(Some(1)), OptionalStr),
      Occurrence("full_name", Depends(Some(2)), Str_)]
  {
    FullNameWalk();
    StartWalk(NameParts(), Depends(Some(2)), 3);
  }

  /** Only the handler's parameters without a default are passed, taken from
      the data; `'event'` and unrelated entries are dropped. */
  lemma OnlyDeclaredKwargs()
    ensures ValidKwargs(map["event" := Object(0), "first_name" := Str("Vladyslav"),
                            "last_name" := Str("Timofeev"), "full_name" := Str("Vladyslav Timofeev")],
                        StartParams(Depends(Some(0))))
         == map["full_name" := Str("Vladyslav Timofeev")]
  {
    var r := ValidKwargs(map["event" := Object(0), "first_name" := Str("Vladyslav"),
                             "last_name" := Str("Timofeev"), "full_name" := Str("Vladyslav Timofeev")],
                         StartParams(Depends(Some(0))));
    assert StartParams(Depends(Some(0)))[1].name == "full_name";
    assert r.Keys == {"full_name"};
  }

  /** The handler's dependency value is read back from the binding table
      under (producer, parameter name). */
  lemma HandlerParamsExtracted(d: Depends, v: Value)
    ensures ExtractParams(StartParams(d), map[ParamKey(CallOf(d, Str_), "full_name") := v]) == Ok(map["full_name" := v])
  {
    var h := StartParams(d);
    var r := ExtractParams(h, map[ParamKey(CallOf(d, Str_), "full_name") := v]);
    assert !IsDependencyParam(h[0]) && IsDependencyParam(h[1]) && KeyOf(h[1]) == ParamKey(CallOf(d, Str_), "full_name");
    assert NeededKeys(h) == {ParamKey(CallOf(d, Str_), "full_name")};
    assert UniqueNames(h);
    assert DependencyNames(h) == {"full_name"};
    assert r.value.Keys == {"full_name"};
    assert r.value["full_name"] == v;
    assert r.value == map["full_name" := v];
    assert r == Ok(r.value);
  }

  // ---------------------------------------------------------------------------
  // Whole passes

  /** A walk of one occurrence whose producer returns binds that value. */
  lemma OneReturningOccurrence(env: PassEnv, st: PassState, o: Occurrence, v: Value, after: PassState)
    requires ValidEnv(env) && o.Call() < |env.reg|
    requires ProcessCallSpec(env, st, o.Call(), o.dep) == CallStep(Returned(v), after)
    ensures OccurrencesSpec(env, st, [o]) == Run(None, after.(paramData := after.paramData[o.Key() := v]))
  {
    assert [o][1..] == [];
  }

  /** A stand-in for a mock whose successive calls return two names. */
  function TwoNames(p: ProducerId, nth: nat, args: map<Name, Value>): Outcome
  {
    if p == 1 && nth == 0 then Returned(Str("Vladyslav Timofeev"))
    else if p == 1 then Returned(Str("Vlad Timofeev"))
    else Returned(NoneValue)
  }

  /** `get_user_full_name` (0), overridden by a plain mock (1). */
  function NameRegistry(): Registry
  {
    [Producer(Routine(PlainFn), [Plain("event_from_user")]), Producer(Instance(Some(PlainFn)), [])]
  }

  const UpdateData := map["event_from_user" := Object(1), "handler" := Object(2), "event" := Object(3)]

  function NameEnv(): PassEnv
  {
    PassEnv(NameRegistry(), map[0 := 1], TwoNames, UpdateData, Current)
  }

  lemma NameEnvValid()
    ensures ValidEnv(NameEnv())
  {
    var reg := NameRegistry();
    assert UniqueNames(reg[0].params) && UniqueNames(reg[1].params);
  }

  const NoCacheHandler := StartParams(Depends(Some(0), useCache := false))

  const AfterGlobal := PassState(map[], map[Some(1) := Str("Vladyslav Timofeev")], [Invocation(1, map[])], [])

  lemma NameGlobalCall()
    ensures ValidEnv(NameEnv())
    ensures ProcessCallSpec(NameEnv(), EmptyState, 0, Depends(Some(0)))
         == CallStep(Returned(Str("Vladyslav Timofeev")), AfterGlobal)
  {
    NameEnvValid();
    assert ValidKwargs(UpdateData + map[], []) == map[];
  }

  lemma NameGlobalStep()
    ensures ValidEnv(NameEnv())
    ensures GlobalsSpec(NameEnv(), EmptyState, [Depends(Some(0))]) == Run(None, AfterGlobal)
  {
    NameEnvValid();
    var env := NameEnv();
    var s0 := EmptyState;
    assert GetDependencies(env.reg, env.reg[0].params, 0) == [];
    NameGlobalCall();
    assert GlobalSpec(env, s0, Depends(Some(0))) == Run(None, AfterGlobal);
  }

  const NoCacheOccurrence := Occurrence("full_name", Depends(Some(0), useCache := false), Str_)

  lemma NameWalk()
    ensures ValidEnv(NameEnv()) && CallsBelow(NoCacheHandler, 2)
    ensures GetDependencies(NameRegistry(), NoCacheHandler, 2) == [NoCacheOccurrence]
  {
    NameEnvValid();
    var reg := NameRegistry();
    assert GetDependencies(reg, reg[0].params, 0) == [] by {
      WalkOfOne(reg, Plain("event_from_user"), 0);
    }
    StartWalk(reg, NoCacheOccurrence.dep, 2);
  }

  lemma NameHandlerCall()
    ensures ValidEnv(NameEnv())
    ensures ProcessCallSpec(NameEnv(), AfterGlobal, 0, NoCacheOccurrence.dep)
         == CallStep(Returned(Str("Vlad Timofeev")), PassState(map[], AfterGlobal.cache, AfterHandler.log, []))
  {
    NameEnvValid();
    assert Invocations(AfterGlobal.log, 1) == 1;
    assert ValidKwargs(UpdateData + map[], []) == map[];
  }

  lemma NameHandlerStep()
    ensures ValidEnv(NameEnv()) && CallsBelow(NoCacheHandler, 2)
    ensures OccurrencesSpec(NameEnv(), AfterGlobal, GetDependencies(NameRegistry(), NoCacheHandler, 2))
         == Run(None, AfterHandler)
  {
    NameEnvValid();
    NameWalk();
    NameHandlerCall();
    OneReturningOccurrence(NameEnv(), AfterGlobal, NoCacheOccurrence,
                           Str("Vlad Timofeev"), PassState(map[], AfterGlobal.cache, AfterHandler.log, []));
  }

  const NameOutcome := (UpdateData - {"event"}) + map["full_name" := Str("Vlad Timofeev")]

  const AfterHandler := PassState(map[ParamKey(0, "full_name") := Str("Vlad Timofeev")], AfterGlobal.cache,
                                  [Invocation(1, map[]), Invocation(1, map[])], [])

  lemma DisabledCacheResolution()
    ensures ValidEnv(NameEnv()) && CallsBelow(NoCacheHandler, 2)
    ensures ResolveSpec(NameEnv(), EmptyState, [Depends(Some(0))], NoCacheHandler)
         == Resolution(Ok(NameOutcome), AfterHandler)
  {
    NameEnvValid();
    NameGlobalStep();
    NameHandlerStep();
    HandlerParamsExtracted(Depends(Some(0), useCache := false), Str("Vlad Timofeev"));
  }

  lemma NameOutcomeShape()
    ensures "event" !in NameOutcome && "event_from_user" in NameOutcome && "full_name" in NameOutcome
    ensures NameOutcome["event_from_user"] == Object(1) && NameOutcome["full_name"] == Str("Vlad Timofeev")
    ensures Producers(AfterHandler.log) == [1, 1]
  {
    assert "event_from_user" != "event" && "event_from_user" != "full_name";
  }

  /** With `use_cache=False` on the handler's annotation, the producer named
      both as a handler-level dependency and in the annotation runs twice; the
      handler sees the second value, and the cache keeps the first, under the
      mock that stands in for the producer. */
  lemma DisabledCacheRunsTwice()
    ensures ValidEnv(NameEnv()) && CallsBelow(NoCacheHandler, 2)
    ensures var res := ResolveSpec(NameEnv(), EmptyState, [Depends(Some(0))], NoCacheHandler);
      && res.result.Ok?
      && "full_name" in res.result.value && res.result.value["full_name"] == Str("Vlad Timofeev")
      && "event" !in res.result.value
      && "event_from_user" in res.result.value && res.result.value["event_from_user"] == Object(1)
      && Producers(res.st.log) == [1, 1]
      && res.st.cache == map[Some(1) := Str("Vladyslav Timofeev")]
  {
    NameEnvValid();
    DisabledCacheResolution();
    var res := ResolveSpec(NameEnv(), EmptyState, [Depends(Some(0))], NoCacheHandler);
    assert res == Resolution(Ok(NameOutcome), AfterHandler);
    NameOutcomeShape();
  }

  /** Two mocks recording their calls: a handler-level dependency (1) that
      returns `None`, and the substitute (2) of the handler's own dependency
      (0).  The handler-level one runs first, then the substitute. */
  function Recorders(p: ProducerId, nth: nat, args: map<Name, Value>): Outcome
  {
    if p == 2 then Returned(Str("Vladyslav Timofeev")) else Returned(NoneValue)
  }

  function RecorderEnv(): PassEnv
  {
    PassEnv([Producer(Routine(PlainFn), [Plain("event_from_user")]),
             Producer(Instance(Some(PlainFn)), []), Producer(Instance(Some(PlainFn)), [])],
            map[0 := 2], Recorders, UpdateData, Current)
  }

  lemma RecorderEnvValid()
    ensures ValidEnv(RecorderEnv())
  {
    var reg := RecorderEnv().reg;
    assert UniqueNames(reg[0].params) && UniqueNames(reg[1].params) && UniqueNames(reg[2].params);
  }

  const AfterVerify := PassState(map[], map[Some(1) := NoneValue], [Invocation(1, map[])], [])

  lemma RecorderGlobalStep()
    ensures ValidEnv(RecorderEnv())
    ensures GlobalsSpec(RecorderEnv(), EmptyState, [Depends(Some(1))]) == Run(None, AfterVerify)
  {
    RecorderEnvValid();
    var env := RecorderEnv();
    var reg := env.reg;
    var s0 := EmptyState;
    assert GetDependencies(reg, reg[1].params, 1) == [];
    assert ValidKwargs(env.data + map[], []) == map[];
    assert ProcessCallSpec(env, s0, 1, Depends(Some(1))) == CallStep(Returned(NoneValue), AfterVerify);
    assert GlobalSpec(env, s0, Depends(Some(1))) == Run(None, AfterVerify);
  }

  lemma RecorderWalk()
    ensures ValidEnv(RecorderEnv()) && CallsBelow(StartParams(Depends(Some(0))), 3)
    ensures GetDependencies(RecorderEnv().reg, StartParams(Depends(Some(0))), 3) == [Occurrence("full_name", Depends(Some(0)), Str_)]
  {
    RecorderEnvValid();
    var reg := RecorderEnv().reg;
    assert GetDependencies(reg, reg[0].params, 0) == [] by {
      WalkOfOne(reg, Plain("event_from_user"), 0);
    }
    StartWalk(reg, Depends(Some(0)), 3);
  }

  lemma RecorderHandlerCall()
    ensures ValidEnv(RecorderEnv())
    ensures ProcessCallSpec(RecorderEnv(), AfterVerify, 0, Depends(Some(0)))
         == CallStep(Returned(Str("Vladyslav Timofeev")),
                     PassState(map[], AfterRecorders.cache, AfterRecorders.log, []))
  {
    RecorderEnvValid();
    var env := RecorderEnv();
    assert Substitute(env, 0) == 2;
    assert !Hit(env, AfterVerify, 0, Depends(Some(0)));
    assert Invocations(AfterVerify.log, 2) == 0;
    assert ValidKwargs(env.data + map[], []) == map[];
  }

  lemma RecorderHandlerStep()
    ensures ValidEnv(RecorderEnv()) && CallsBelow(StartParams(Depends(Some(0))), 3)
    ensures OccurrencesSpec(RecorderEnv(), AfterVerify, GetDependencies(RecorderEnv().reg, StartParams(Depends(Some(0))), 3))
         == Run(None, AfterRecorders)
  {
    RecorderEnvValid();
    RecorderWalk();
    RecorderHandlerCall();
    OneReturningOccurrence(RecorderEnv(), AfterVerify, Occurrence("full_name", Depends(Some(0)), Str_),
                           Str("Vladyslav Timofeev"), PassState(map[], AfterRecorders.cache, AfterRecorders.log, []));
  }

  const RecorderOutcome := (UpdateData - {"event"}) + map["full_name" := Str("Vladyslav Timofeev")]

  const AfterRecorders := PassState(map[ParamKey(0, "full_name") := Str("Vladyslav Timofeev")],
                                    map[Some(1) := NoneValue, Some(2) := Str("Vladyslav Timofeev")],
                                    [Invocation(1, map[]), Invocation(2, map[])], [])

  lemma RecorderResolution()
    ensures ValidEnv(RecorderEnv()) && CallsBelow(StartParams(Depends(Some(0))), 3)
    ensures ResolveSpec(RecorderEnv(), EmptyState, [Depends(Some(1))], StartParams(Depends(Some(0))))
         == Resolution(Ok(RecorderOutcome), AfterRecorders)
  {
    RecorderEnvValid();
    RecorderGlobalStep();
    RecorderHandlerStep();
    HandlerParamsExtracted(Depends(Some(0)), Str("Vladyslav Timofeev"));
  }

  lemma RecorderOutcomeShape()
    ensures "full_name" in RecorderOutcome && RecorderOutcome["full_name"] == Str("Vladyslav Timofeev")
    ensures Producers(AfterRecorders.log) == [1, 2]
  {
  }

  /** The handler-level dependency runs first; the handler's own dependency is
      replaced by its override, whose value the handler receives. */
  lemma OverriddenDependencyResolved()
    ensures ValidEnv(RecorderEnv()) && CallsBelow(StartParams(Depends(Some(0))), 3)
    ensures var res := ResolveSpec(RecorderEnv(), EmptyState, [Depends(Some(1))], StartParams(Depends(Some(0))));
      && res.result.Ok?
      && "full_name" in res.result.value && res.result.value["full_name"] == Str("Vladyslav Timofeev")
      && Producers(res.st.log) == [1, 2]
  {
    RecorderEnvValid();
    RecorderResolution();
    var res := ResolveSpec(RecorderEnv(), EmptyState, [Depends(Some(1))], StartParams(Depends(Some(0))));
    assert res == Resolution(Ok(RecorderOutcome), AfterRecorders);
    RecorderOutcomeShape();
  }

  // ---------------------------------------------------------------------------
  // The two revisions' cache keys

  function Built(p: ProducerId, nth: nat, args: map<Name, Value>): Outcome
  {
    Returned(Object(5))
  }

  /** Two annotations `Annotated[Foo, Depends()]`, where `Foo` is a class (0)
      taking no arguments. */
  const FooPair := [Occurrence("a", Depends(), 0), Occurrence("b", Depends(), 0)]

  function FooEnv(rev: Revision): PassEnv
  {
    PassEnv([Producer(Class(None), [])], map[], Built, map[], rev)
  }

  /** In `resolver.py` the second annotation does not reuse the first one's
      instance: `Foo` is built twice even though both allow caching. */
  lemma ImplicitProducerBuiltTwice()
    ensures ValidEnv(FooEnv(Current))
    ensures var r := OccurrencesSpec(FooEnv(Current), EmptyState, FooPair);
      r.failure.None? && Producers(r.st.log) == [0, 0] && r.st.cache == map[None := Object(5)]
  {
    var env := FooEnv(Current);
    var s0 := EmptyState;
    assert ValidKwargs(map[] + map[], []) == map[];
    var r1 := DependencySpec(env, s0, FooPair[0]);
    assert r1.failure.None?;
    assert r1.st.cache == map[None := Object(5)];
    assert FooPair[1..] == [FooPair[1]];
    assert !Hit(env, r1.st, 0, Depends());
    var r2 := DependencySpec(env, r1.st, FooPair[1]);
    assert r2.failure.None?;
    assert OccurrencesSpec(env, r1.st, FooPair[1..]) == r2;
    assert Producers(r2.st.log) == [0, 0];
  }

  /** In the earlier revision the second annotation reuses the first one's
      instance. */
  lemma ImplicitProducerBuiltOnceInLegacy()
    ensures ValidEnv(FooEnv(Legacy))
    ensures var r := OccurrencesSpec(FooEnv(Legacy), EmptyState, FooPair);
      r.failure.None? && Producers(r.st.log) == [0] && r.st.cache == map[Some(0) := Object(5)]
  {
    var env := FooEnv(Legacy);
    var s0 := EmptyState;
    assert ValidKwargs(map[] + map[], []) == map[];
    var r1 := DependencySpec(env, s0, FooPair[0]);
    assert r1.failure.None?;
    assert r1.st.cache == map[Some(0) := Object(5)];
    assert FooPair[1..] == [FooPair[1]];
    assert Hit(env, r1.st, 0, Depends());
    var r2 := DependencySpec(env, r1.st, FooPair[1]);
    assert r2.failure.None?;
    assert OccurrencesSpec(env, r1.st, FooPair[1..]) == r2;
    assert Producers(r2.st.log) == [0];
  }

  // ---------------------------------------------------------------------------
  // An overridden producer and the cache

  /** Two annotations `Annotated[str, Depends(get_name)]` with `get_name` (0)
      overridden by a stand-in (1) that returns a truthy value. */
  const NamePair := [Occurrence("a", Depends(Some(0)), Str_), Occurrence("b", Depends(Some(0)), Str_)]

  function OverriddenEnv(): PassEnv
  {
    PassEnv([Producer(Routine(PlainFn), []), Producer(Routine(PlainFn), [])], map[0 := 1], Built, map[], Current)
  }

  /** The stand-in runs once: its first result is cached under its own
      identity and the second annotation reuses it. */
  lemma OverriddenProducerBuiltOnce()
    ensures ValidEnv(OverriddenEnv())
    ensures var r := OccurrencesSpec(OverriddenEnv(), EmptyState, NamePair);
      && r.failure.None? && Producers(r.st.log) == [1] && r.st.cache == map[Some(1) := Object(5)]
      && r.st.paramData == map[ParamKey(0, "a") := Object(5), ParamKey(0, "b") := Object(5)]
  {
    var env := OverriddenEnv();
    assert ValidKwargs(map[] + map[], []) == map[];
    var r1 := DependencySpec(env, EmptyState, NamePair[0]);
    assert r1.failure.None?;
    assert r1.st.cache == map[Some(1) := Object(5)];
    assert NamePair[1..] == [NamePair[1]];
    assert Hit(env, r1.st, 0, Depends(Some(0)));
    var r2 := DependencySpec(env, r1.st, NamePair[1]);
    assert r2.failure.None? && r2.st.log == r1.st.log;
    assert OccurrencesSpec(env, r1.st, NamePair[1..]) == r2;
    assert Producers(r2.st.log) == [1];
  }

  // ---------------------------------------------------------------------------
  // A substitute that needs more than the producer it replaces

  /** `get_id` (0), `get_name` (1), which takes `uid: Annotated[int,
      Depends(get_id)]`, and `get_default` (2), which takes nothing. */
  function WiderRegistry(): Registry
  {
    [Producer(Routine(PlainFn), []),
     Producer(Routine(PlainFn), [Dep("uid", Str_, Depends(Some(0)))]),
     Producer(Routine(PlainFn), [])]
  }

  /** `get_default` overridden by `get_name`. */
  function WiderEnv(): PassEnv
  {
    PassEnv(WiderRegistry(), map[2 := 1], Built, UpdateData, Current)
  }

  /** The walk follows the replaced producer, which needs nothing, so the
      substitute's own `uid` is never resolved and its lookup raises
      `KeyError`: without the hypothesis that substitutes need no more than
      what they replace, `resolve` does not complete. */
  lemma WiderSubstituteRaises()
    ensures ValidEnv(WiderEnv()) && !SubstitutesNeedNoMore(WiderEnv())
    ensures CallsBelow(StartParams(Depends(Some(2))), 3)
    ensures ResolveSpec(WiderEnv(), EmptyState, [], StartParams(Depends(Some(2)))).result == Err(KeyError)
  {
    var env := WiderEnv();
    var reg := WiderRegistry();
    assert UniqueNames(reg[1].params);
    assert NeededKeys(reg[1].params) == {ParamKey(0, "uid")} by {
      assert IsDependencyParam(reg[1].params[0]);
    }
    assert ParamKey(0, "uid") !in NeededKeys(reg[2].params);
    var d := Depends(Some(2));
    StartWalk(reg, d, 3);
    assert GetDependencies(reg, reg[2].params, 2) == [];
    var o := Occurrence("full_name", d, Str_);
    assert ProcessCallSpec(env, EmptyState, 2, d) == CallStep(Raised(KeyError), EmptyState);
    assert [o][1..] == [];
    assert OccurrencesSpec(env, EmptyState, [o]).failure == Some(KeyError);
  }
}
