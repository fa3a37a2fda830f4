/** The earlier single-function revision, `process_dependencies(data)`: one
    walk of the handler's annotations inside its own exit stack, no global
    dependencies, no overrides, and the cache read and written under the
    producer actually called. */
module Legacy {
  import opened Base
  import opened Dependency
  import opened Graph
  import opened Utils
  import opened Scope
  import opened Resolver
  import opened ResolverFacts

  function LegacyEnv(reg: Registry, invoke: Invoker, data: map<Name, Value>): (env: PassEnv)
    ensures env.revision == Legacy && env.overrides == map[]
  {
    PassEnv(reg, map[], invoke, data, Legacy)
  }

  /** What one call of `process_dependencies` does: its result, the state its
      walk left, and the release calls its exit stack made. */
  datatype LegacyPass = LegacyPass(result: Result<map<Name, Value>>, walked: Run, released: seq<Release>)

  /** The walk runs inside `async with AsyncExitStack()`: the stack is closed
      with the exception the walk stopped on (if any); an exception still
      pending afterwards propagates; otherwise the handler's dependency values
      are laid over the whole of `data`. */
  function ProcessDependenciesSpec(reg: Registry, invoke: Invoker, exit: ExitFn, data: map<Name, Value>, handler: seq<Param>): LegacyPass
    requires WellFormed(reg) && CallsBelow(handler, |reg|)
  {
    var r := OccurrencesSpec(LegacyEnv(reg, invoke, data), EmptyState, GetDependencies(reg, handler, |reg|));
    var u := Unwind(r.st.ledger, r.failure, exit);
    var result :=
      if u.pending.Some? then Err(u.pending.value)
      else match ExtractParams(handler, r.st.paramData)
        case Err(e) => Err(e)
        case Ok(params) => Ok(data + params);
    LegacyPass(result, r, u.calls)
  }

  /** The body of the walk loop for one producer: reuse the cache, or invoke
      the producer with its filtered arguments (entering it on the stack when it
      is a generator), then `setdefault` its result under `hash(call)`. */
  method RunProducer(
    reg: Registry, invoke: Invoker, data: map<Name, Value>, stack: ExitStack,
    paramData: map<ParamKey, Value>, cache: map<Option<ProducerId>, Value>, invocations: seq<Invocation>,
    call: ProducerId, dep: Depends)
    returns (result: Outcome, cache': map<Option<ProducerId>, Value>, invocations': seq<Invocation>)
    requires WellFormed(reg) && call < |reg|
    modifies stack
    ensures stack.released == old(stack.released)
    ensures CallStep(result, PassState(paramData, cache', invocations', stack.entries))
         == ProcessCallSpec(LegacyEnv(reg, invoke, data), PassState(paramData, cache, invocations, old(stack.entries)), call, dep)
  {
    cache' := cache;
    invocations' := invocations;
    if Some(call) in cache && Truthy(cache[Some(call)]) && dep.useCache {
      return Returned(cache[Some(call)]), cache', invocations';
    }
    var params := ExtractParams(reg[call].params, paramData);
    if params.Err? {
      return Raised(params.error), cache', invocations';
    }
    var values := ValidKwargs(data + params.value, reg[call].params);
    var nth := Invocations(invocations, call);
    result := invoke(call, nth, values);
    invocations' := invocations + [Invocation(call, values)];
    if result.Raised? {
      return;
    }
    if IsScoped(StrategyOf(Legacy, reg[call].shape)) {
      stack.Enter(Handle(call, nth));
    }
    if Some(call) !in cache {
      cache' := cache[Some(call) := result.value];
    }
  }

  /** The `for` loop of `process_dependencies`: runs the walk in order; an
      exception leaves the loop at once. */
  method WalkDependencies(reg: Registry, invoke: Invoker, data: map<Name, Value>, stack: ExitStack, occs: seq<Occurrence>)
    returns (failure: Option<Exc>, paramData: map<ParamKey, Value>, cache: map<Option<ProducerId>, Value>, invocations: seq<Invocation>)
    requires WellFormed(reg) && forall k :: 0 <= k < |occs| ==> occs[k].Call() < |reg|
    modifies stack
    ensures stack.released == old(stack.released)
    ensures Run(failure, PassState(paramData, cache, invocations, stack.entries))
         == OccurrencesSpec(LegacyEnv(reg, invoke, data), PassState(map[], map[], [], old(stack.entries)), occs)
  {
    ghost var env := LegacyEnv(reg, invoke, data);
    paramData, cache, invocations := map[], map[], [];
    var i := 0;
    while i < |occs|
      invariant 0 <= i <= |occs|
      invariant stack.released == old(stack.released)
      invariant OccurrencesSpec(env, PassState(map[], map[], [], old(stack.entries)), occs)
             == OccurrencesSpec(env, PassState(paramData, cache, invocations, stack.entries), occs[i..])
    {
      assert occs[i..][1..] == occs[i + 1..];
      var result;
      result, cache, invocations := RunProducer(reg, invoke, data, stack, paramData, cache, invocations, occs[i].Call(), occs[i].dep);
      if result.Raised? {
        return Some(result.error), paramData, cache, invocations;
      }
      paramData := paramData[occs[i].Key() := result.value];
      i := i + 1;
    }
    failure := None;
  }

  /** `process_dependencies`, given the handler's annotations, the result
      oracle and the release steps of the generator producers. */
  method ProcessDependencies(reg: Registry, invoke: Invoker, exit: ExitFn, data: map<Name, Value>, handler: seq<Param>)
    returns (r: Result<map<Name, Value>>, released: seq<Release>)
    requires WellFormed(reg) && CallsBelow(handler, |reg|)
    ensures r == ProcessDependenciesSpec(reg, invoke, exit, data, handler).result
    ensures released == ProcessDependenciesSpec(reg, invoke, exit, data, handler).released
  {
    var stack := new ExitStack();
    var occs := GetDependencies(reg, handler, |reg|);
    var failure, paramData, cache, invocations := WalkDependencies(reg, invoke, data, stack, occs);
    ghost var walked := Run(failure, PassState(paramData, cache, invocations, stack.entries));
    assert walked == OccurrencesSpec(LegacyEnv(reg, invoke, data), EmptyState, occs);
    var pending := stack.Close(failure, exit);
    released := stack.released;
    assert pending == Unwind(walked.st.ledger, walked.failure, exit).pending;
    if pending.Some? {
      return Err(pending.value), released;
    }
    var params := ExtractParams(handler, paramData);
    if params.Err? {
      return Err(params.error), released;
    }
    r := Ok(data + params.value);
  }

  /** Every resource entered during the walk is released once, newest first. */
  lemma LegacyReleasesNewestFirst(reg: Registry, invoke: Invoker, exit: ExitFn, data: map<Name, Value>, handler: seq<Param>)
    requires WellFormed(reg) && CallsBelow(handler, |reg|)
    ensures var p := ProcessDependenciesSpec(reg, invoke, exit, data, handler);
      Handles(p.released) == Reversed(p.walked.st.ledger)
  {
    var p := ProcessDependenciesSpec(reg, invoke, exit, data, handler);
    ReleasedInReverse(p.walked.st.ledger, p.walked.failure, exit);
  }

  /** When no producer raises and no release step raises, the call succeeds
      and returns `data` with one entry added or replaced per dependency
      annotation of the handler; `'event'` and `'handler'` are kept. */
  lemma LegacySucceeds(reg: Registry, invoke: Invoker, exit: ExitFn, data: map<Name, Value>, handler: seq<Param>)
    requires WellFormed(reg) && CallsBelow(handler, |reg|)
    requires NeverRaises(LegacyEnv(reg, invoke, data))
    requires forall h, x :: exit(h, x).ExitReturned?
    ensures var r := ProcessDependenciesSpec(reg, invoke, exit, data, handler).result;
      r.Ok? && (forall k :: k in r.value <==> k in data || k in DependencyNames(handler))
  {
    var env := LegacyEnv(reg, invoke, data);
    WalkCompletes(env, EmptyState, handler, |reg|);
    var w := OccurrencesSpec(env, EmptyState, GetDependencies(reg, handler, |reg|));
    NoRaiseKeepsNone(w.st.ledger, exit);
  }

  /** The values of a successful call: each dependency name is bound to the
      value its (producer, name) binding holds after the walk, and every
      other key keeps the value it has in `data`. */
  lemma LegacyMerge(reg: Registry, invoke: Invoker, exit: ExitFn, data: map<Name, Value>, handler: seq<Param>)
    requires WellFormed(reg) && CallsBelow(handler, |reg|) && UniqueNames(handler)
    requires ProcessDependenciesSpec(reg, invoke, exit, data, handler).result.Ok?
    ensures var p := ProcessDependenciesSpec(reg, invoke, exit, data, handler);
      var m := p.result.value;
      && (forall k :: k in m <==> k in data || k in DependencyNames(handler))
      && (forall i :: 0 <= i < |handler| && IsDependencyParam(handler[i]) ==>
            KeyOf(handler[i]) in p.walked.st.paramData && m[handler[i].name] == p.walked.st.paramData[KeyOf(handler[i])])
      && (forall k :: k in m && k !in DependencyNames(handler) ==> m[k] == data[k])
  {
  }

  /** An exception the walk stopped on, but which a release step suppressed,
      does not end the call: the final merge runs on the incomplete binding
      table and fails with `KeyError` when a handler binding is missing. */
  lemma SuppressedFailureSurfacesAsKeyError(reg: Registry, invoke: Invoker, exit: ExitFn, data: map<Name, Value>, handler: seq<Param>)
    requires WellFormed(reg) && CallsBelow(handler, |reg|)
    requires var p := ProcessDependenciesSpec(reg, invoke, exit, data, handler);
      && p.walked.failure.Some?
      && Unwind(p.walked.st.ledger, p.walked.failure, exit).pending.None?
      && !(NeededKeys(handler) <= p.walked.st.paramData.Keys)
    ensures ProcessDependenciesSpec(reg, invoke, exit, data, handler).result == Err(KeyError)
  {
  }
}
