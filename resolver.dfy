/** The per-event dependency resolver (`DependenciesResolver`).  The pass is
    specified by functions over a `PassState` (binding table, cache, record of
    producer invocations, exit-stack ledger); the class below performs it in
    place and is proved to follow those functions step by step. */
module Resolver {
  import opened Base
  import opened Dependency
  import opened Graph
  import opened Utils
  import opened Scope

  // ---------------------------------------------------------------------------
  // Execution strategies

  /** The four ways a producer is run. */
  datatype Strategy = AsyncGen | Gen | Coroutine | Sync

  /** The two revisions of the resolver: `resolver.py` and the earlier
      single-function `process_dependencies`. */
  datatype Revision = Current | Legacy

  /** The strategy a revision picks for a callable.  The current revision asks
      the classifiers in the order async generator, generator, coroutine; the
      earlier one asks `inspect` about the callable itself only, so both
      agree on functions and the earlier one runs any class or other object
      synchronously. */
  function StrategyOf(rev: Revision, s: Shape): (k: Strategy)
    ensures s.Routine? ==> (k == AsyncGen <==> s.flavour == AsyncGeneratorFn)
    ensures s.Routine? ==> (k == Gen <==> s.flavour == GeneratorFn)
    ensures s.Routine? ==> (k == Coroutine <==> s.flavour == CoroutineFn)
    ensures rev == Legacy && !s.Routine? ==> k == Sync
  {
    match rev
    case Current =>
      if IsAsyncGenCallable(s) then AsyncGen
      else if IsGenCallable(s) then Gen
      else if IsCoroutineCallable(s) then Coroutine
      else Sync
    case Legacy =>
      match s
      case Routine(f) =>
        (match f
         case AsyncGeneratorFn => AsyncGen
         case GeneratorFn => Gen
         case CoroutineFn => Coroutine
         case PlainFn => Sync)
      case _ => Sync
  }

  /** Generator producers are scoped resources; the others are plain calls. */
  predicate IsScoped(k: Strategy)
  {
    k == AsyncGen || k == Gen
  }

  /** The strategy picked is the first classifier that answers yes; a class is
      never run as a coroutine; any other object is run as its `__call__` is. */
  lemma ClassifierOrder(s: Shape)
    ensures StrategyOf(Current, s) == AsyncGen <==> IsAsyncGenCallable(s)
    ensures StrategyOf(Current, s) == Gen <==> !IsAsyncGenCallable(s) && IsGenCallable(s)
    ensures StrategyOf(Current, s) == Coroutine <==> !IsAsyncGenCallable(s) && !IsGenCallable(s) && IsCoroutineCallable(s)
    ensures StrategyOf(Current, s) == Sync <==> !IsAsyncGenCallable(s) && !IsGenCallable(s) && !IsCoroutineCallable(s)
    ensures s.Class? ==> !IsCoroutineCallable(s) && StrategyOf(Current, s) != Coroutine
    ensures s.Instance? && s.dunderCall.Some? ==> StrategyOf(Current, s) == StrategyOf(Current, Routine(s.dunderCall.value))
    ensures s.Instance? && s.dunderCall.None? ==> StrategyOf(Current, s) == Sync
  {
  }

  // ---------------------------------------------------------------------------
  // The environment and state of a pass

  /** The result oracle: what the `nth` invocation (from 0, within this pass)
      of a producer returns or raises, given its keyword arguments.  For a
      generator producer it is what entering the resource yields. */
  type Invoker = (ProducerId, nat, map<Name, Value>) -> Outcome

  datatype Invocation = Invocation(producer: ProducerId, args: map<Name, Value>)

  /** What a pass reads but never changes: the producer graph, the override
      table, the result oracle, the ambient data and the revision. */
  datatype PassEnv = PassEnv(
    reg: Registry,
    overrides: map<ProducerId, ProducerId>,
    invoke: Invoker,
    data: map<Name, Value>,
    revision: Revision)

  predicate ValidEnv(env: PassEnv)
  {
    && WellFormed(env.reg)
    && forall p :: p in env.overrides ==> env.overrides[p] < |env.reg|
  }

  /** The optional override step: the current revision runs the substitute of
      an overridden producer; the earlier one has no override step. */
  function Substitute(env: PassEnv, call: ProducerId): ProducerId
  {
    if env.revision == Current && call in env.overrides then env.overrides[call] else call
  }

  /** How many times `p` was invoked in `log`. */
  function Invocations(log: seq<Invocation>, p: ProducerId): nat
    decreases |log|
  {
    if log == [] then 0
    else Invocations(log[..|log| - 1], p) + (if log[|log| - 1].producer == p then 1 else 0)
  }

  /** The state of a pass: the param binding table, the cache, the record of
      producer invocations and the exit-stack ledger. */
  datatype PassState = PassState(
    paramData: map<ParamKey, Value>,
    cache: map<Option<ProducerId>, Value>,
    log: seq<Invocation>,
    ledger: seq<Handle>)

  /** The state a pass starts from. */
  const EmptyState := PassState(map[], map[], [], [])

  datatype CallStep = CallStep(outcome: Outcome, st: PassState)

  /** A stage that returns nothing: the exception it stopped on, if any. */
  datatype Run = Run(failure: Option<Exc>, st: PassState)

  datatype Resolution = Resolution(result: Result<map<Name, Value>>, st: PassState)

  /** The key the cache is written under.  `resolver.py` writes under
      `hash(dependency.func)`: for an explicit producer that is the producer
      after the override step (the key the next read uses), and for a
      descriptor without one it is `hash(None)`, which no read uses.  The
      earlier revision writes under `hash(call)`. */
  function CacheWriteKey(env: PassEnv, call0: ProducerId, dep: Depends): (key: Option<ProducerId>)
    ensures env.revision == Legacy ==> key == Some(call0)
    ensures env.revision == Current && dep.func.None? ==> key == None
    ensures dep.func == Some(call0) ==> key == Some(Substitute(env, call0))
  {
    match env.revision
    case Current => if dep.func.Some? then Some(Substitute(env, dep.func.value)) else None
    case Legacy => Some(call0)
  }

  /** The cache may be reused: the producer's entry is present and truthy, and
      the descriptor allows reuse. */
  predicate Hit(env: PassEnv, st: PassState, call: ProducerId, dep: Depends): (r: bool)
    ensures !dep.useCache ==> !r
    ensures Some(Substitute(env, call)) !in st.cache ==> !r
    ensures r ==> st.cache[Some(Substitute(env, call))] !in {NoneValue, Bool(false), Int(0), Str("")}
  {
    var key := Some(Substitute(env, call));
    key in st.cache && Truthy(st.cache[key]) && dep.useCache
  }

  // ---------------------------------------------------------------------------
  // The pass as functions

  /** `__process_dependency(call, dependency)`: reuse the cache, or invoke the
      producer with its filtered arguments, entering it on the exit stack when
      it is a generator, and record the result in the cache if the key is new. */
  function ProcessCallSpec(env: PassEnv, st: PassState, call0: ProducerId, dep: Depends): CallStep
    requires ValidEnv(env) && call0 < |env.reg|
  {
    var call := Substitute(env, call0);
    if Hit(env, st, call0, dep) then CallStep(Returned(st.cache[Some(call)]), st)
    else
      var producer := env.reg[call];
      match ExtractParams(producer.params, st.paramData)
      case Err(e) => CallStep(Raised(e), st)
      case Ok(params) =>
        var values := ValidKwargs(env.data + params, producer.params);
        var nth := Invocations(st.log, call);
        var log := st.log + [Invocation(call, values)];
        match env.invoke(call, nth, values)
        case Raised(e) => CallStep(Raised(e), st.(log := log))
        case Returned(v) =>
          var ledger := if IsScoped(StrategyOf(env.revision, producer.shape)) then st.ledger + [Handle(call, nth)] else st.ledger;
          var wkey := CacheWriteKey(env, call0, dep);
          var cache := if wkey in st.cache then st.cache else st.cache[wkey := v];
          CallStep(Returned(v), PassState(st.paramData, cache, log, ledger))
  }

  /** `_process_dependency(name, dependency, type)`: process the producer and
      bind its result under (producer, name), overwriting any earlier binding. */
  function DependencySpec(env: PassEnv, st: PassState, o: Occurrence): Run
    requires ValidEnv(env) && o.Call() < |env.reg|
  {
    var s := ProcessCallSpec(env, st, o.Call(), o.dep);
    match s.outcome
    case Raised(e) => Run(Some(e), s.st)
    case Returned(v) => Run(None, s.st.(paramData := s.st.paramData[o.Key() := v]))
  }

  /** Processing a walk in order, stopping at the first exception. */
  function OccurrencesSpec(env: PassEnv, st: PassState, occs: seq<Occurrence>): Run
    requires ValidEnv(env) && forall i :: 0 <= i < |occs| ==> occs[i].Call() < |env.reg|
    decreases |occs|
  {
    if occs == [] then Run(None, st)
    else
      var r := DependencySpec(env, st, occs[0]);
      if r.failure.Some? then r else OccurrencesSpec(env, r.st, occs[1..])
  }

  /** A global (dispatcher, router or handler-level) dependency is usable when
      its producer, if any, is registered. */
  predicate GlobalsRegistered(reg: Registry, globals: seq<Depends>)
  {
    forall i :: 0 <= i < |globals| && globals[i].func.Some? ==> globals[i].func.value < |reg|
  }

  /** `_resolve_global_dependency`: the walk of the producer's own parameters,
      then the producer itself, whose result is cached but never bound.
      Without an explicit producer, `inspect.get_annotations(None)` raises
      `TypeError`. */
  function GlobalSpec(env: PassEnv, st: PassState, dep: Depends): Run
    requires ValidEnv(env) && (dep.func.Some? ==> dep.func.value < |env.reg|)
  {
    if dep.func.None? then Run(Some(TypeError), st)
    else
      var f := dep.func.value;
      var r := OccurrencesSpec(env, st, GetDependencies(env.reg, env.reg[f].params, f));
      if r.failure.Some? then r
      else
        var s := ProcessCallSpec(env, r.st, f, dep);
        Run(if s.outcome.Raised? then Some(s.outcome.error) else None, s.st)
  }

  function GlobalsSpec(env: PassEnv, st: PassState, globals: seq<Depends>): Run
    requires ValidEnv(env) && GlobalsRegistered(env.reg, globals)
    decreases |globals|
  {
    if globals == [] then Run(None, st)
    else
      var r := GlobalSpec(env, st, globals[0]);
      if r.failure.Some? then r else GlobalsSpec(env, r.st, globals[1..])
  }

  /** `resolve`: every global dependency, then the walk of the handler's own
      annotations; then `'event'` is removed from the data and the handler's
      dependency values are laid over it. */
  function ResolveSpec(env: PassEnv, st: PassState, globals: seq<Depends>, handler: seq<Param>): Resolution
    requires ValidEnv(env) && GlobalsRegistered(env.reg, globals) && CallsBelow(handler, |env.reg|)
  {
    var g := GlobalsSpec(env, st, globals);
    if g.failure.Some? then Resolution(Err(g.failure.value), g.st)
    else
      var h := OccurrencesSpec(env, g.st, GetDependencies(env.reg, handler, |env.reg|));
      if h.failure.Some? then Resolution(Err(h.failure.value), h.st)
      else if "event" !in env.data then Resolution(Err(KeyError), h.st)
      else
        match ExtractParams(handler, h.st.paramData)
        case Err(e) => Resolution(Err(e), h.st)
        case Ok(params) => Resolution(Ok((env.data - {"event"}) + params), h.st)
  }

  // ---------------------------------------------------------------------------
  // The resolver object

  class DependenciesResolver {
    const stack: ExitStack
    /** `global_dependencies + handler_dependencies`, in that order. */
    const globalDependencies: seq<Depends>
    /** The annotations of `data['handler']`. */
    const handler: seq<Param>
    const registry: Registry
    const overrides: map<ProducerId, ProducerId>
    const invoke: Invoker
    var data: map<Name, Value>
    var paramData: map<ParamKey, Value>
    var cache: map<Option<ProducerId>, Value>
    /** The producers' own record of how they were called during this pass. */
    var invocations: seq<Invocation>

    function Env(): PassEnv
      reads this
    {
      PassEnv(registry, overrides, invoke, data, Current)
    }

    function State(): PassState
      reads this, stack
    {
      PassState(paramData, cache, invocations, stack.entries)
    }

    ghost predicate Valid()
      reads this
    {
      && ValidEnv(Env())
      && GlobalsRegistered(registry, globalDependencies)
      && CallsBelow(handler, |registry|)
      && UniqueNames(handler)
    }

    constructor (
      stack: ExitStack,
      globalDependencies: seq<Depends>,
      handlerDependencies: seq<Depends>,
      data: map<Name, Value>,
      handler: seq<Param>,
      registry: Registry,
      overrides: map<ProducerId, ProducerId>,
      invoke: Invoker)
      requires WellFormed(registry) && forall p :: p in overrides ==> overrides[p] < |registry|
      requires GlobalsRegistered(registry, globalDependencies + handlerDependencies)
      requires CallsBelow(handler, |registry|) && UniqueNames(handler)
      ensures Valid()
      ensures this.stack == stack && this.globalDependencies == globalDependencies + handlerDependencies
      ensures this.data == data && this.handler == handler
      ensures this.registry == registry && this.overrides == overrides && this.invoke == invoke
      ensures paramData == map[] && cache == map[] && invocations == []
    {
      this.stack := stack;
      this.globalDependencies := globalDependencies + handlerDependencies;
      this.data := data;
      this.handler := handler;
      this.registry := registry;
      this.overrides := overrides;
      this.invoke := invoke;
      paramData := map[];
      cache := map[];
      invocations := [];
    }

    /** `__process_dependency`. */
    method ProcessCall(call0: ProducerId, dep: Depends) returns (out: Outcome)
      requires Valid() && call0 < |registry|
      modifies this`cache, this`invocations, stack
      ensures Valid() && stack.released == old(stack.released)
      ensures CallStep(out, State()) == ProcessCallSpec(Env(), old(State()), call0, dep)
    {
      var call := Substitute(Env(), call0);
      var key := Some(call);
      if key in cache && Truthy(cache[key]) && dep.useCache {
        return Returned(cache[key]);
      }
      var producer := registry[call];
      var params := ExtractParams(producer.params, paramData);
      if params.Err? {
        return Raised(params.error);
      }
      var values := ValidKwargs(data + params.value, producer.params);
      var nth := Invocations(invocations, call);
      out := invoke(call, nth, values);
      invocations := invocations + [Invocation(call, values)];
      if out.Raised? {
        return;
      }
      if IsScoped(StrategyOf(Current, producer.shape)) {
        stack.Enter(Handle(call, nth));
      }
      // `setdefault` under `hash(dependency.func)`, after the override step.
      var wkey := if dep.func.Some? then Some(Substitute(Env(), dep.func.value)) else None;
      if wkey !in cache {
        cache := cache[wkey := out.value];
      }
    }

    /** `_process_dependency`. */
    method ProcessDependency(name: Name, dep: Depends, declared: ProducerId) returns (failure: Option<Exc>)
      requires Valid() && CallOf(dep, declared) < |registry|
      modifies this`cache, this`invocations, this`paramData, stack
      ensures Valid() && stack.released == old(stack.released)
      ensures Run(failure, State()) == DependencySpec(Env(), old(State()), Occurrence(name, dep, declared))
    {
      var call := CallOf(dep, declared);
      var result := ProcessCall(call, dep);
      if result.Raised? {
        return Some(result.error);
      }
      paramData := paramData[ParamKey(call, name) := result.value];
      failure := None;
    }

    /** Processes a walk in order, stopping at the first exception. */
    method ProcessAll(occs: seq<Occurrence>) returns (failure: Option<Exc>)
      requires Valid() && forall i :: 0 <= i < |occs| ==> occs[i].Call() < |registry|
      modifies this`cache, this`invocations, this`paramData, stack
      ensures Valid() && stack.released == old(stack.released)
      ensures Run(failure, State()) == OccurrencesSpec(Env(), old(State()), occs)
    {
      var i := 0;
      while i < |occs|
        invariant 0 <= i <= |occs|
        invariant Valid() && data == old(data) && stack.released == old(stack.released)
        invariant OccurrencesSpec(Env(), old(State()), occs) == OccurrencesSpec(Env(), State(), occs[i..])
      {
        assert occs[i..][1..] == occs[i + 1..];
        failure := ProcessDependency(occs[i].name, occs[i].dep, occs[i].declared);
        if failure.Some? {
          return;
        }
        i := i + 1;
      }
      failure := None;
    }

    /** `_resolve_global_dependency`. */
    method ResolveGlobalDependency(dep: Depends) returns (failure: Option<Exc>)
      requires Valid() && (dep.func.Some? ==> dep.func.value < |registry|)
      modifies this`cache, this`invocations, this`paramData, stack
      ensures Valid() && stack.released == old(stack.released)
      ensures Run(failure, State()) == GlobalSpec(Env(), old(State()), dep)
    {
      if dep.func.None? {
        return Some(TypeError);
      }
      var f := dep.func.value;
      failure := ProcessAll(GetDependencies(registry, registry[f].params, f));
      if failure.Some? {
        return;
      }
      var result := ProcessCall(f, dep);
      failure := if result.Raised? then Some(result.error) else None;
    }

    /** `resolve`. */
    method Resolve() returns (r: Result<map<Name, Value>>)
      requires Valid()
      modifies this`cache, this`invocations, this`paramData, this`data, stack
      ensures stack.released == old(stack.released)
      ensures Resolution(r, State()) == ResolveSpec(old(Env()), old(State()), globalDependencies, handler)
      ensures r.Ok? ==> data == old(data) - {"event"}
    {
      ghost var env := Env();
      var i := 0;
      while i < |globalDependencies|
        invariant 0 <= i <= |globalDependencies|
        invariant Valid() && Env() == env && stack.released == old(stack.released)
        invariant GlobalsSpec(env, old(State()), globalDependencies) == GlobalsSpec(env, State(), globalDependencies[i..])
      {
        assert globalDependencies[i..][1..] == globalDependencies[i + 1..];
        var failure := ResolveGlobalDependency(globalDependencies[i]);
        if failure.Some? {
          return Err(failure.value);
        }
        i := i + 1;
      }
      var failure := ProcessAll(GetDependencies(registry, handler, |registry|));
      if failure.Some? {
        return Err(failure.value);
      }
      if "event" !in data {
        return Err(KeyError);
      }
      data := data - {"event"};
      var params := ExtractParams(handler, paramData);
      if params.Err? {
        return Err(params.error);
      }
      r := Ok(data + params.value);
    }
  }
}
