# aiogram3_di dependency resolver, modelled in Dafny

aiogram3_di adds FastAPI-style dependency injection to aiogram bots. A
handler declares parameters such as `full_name: Annotated[str,
Depends(get_user_full_name)]`. For each incoming update, a middleware builds a
`DependenciesResolver`. The resolver then does five things:

- It walks the dependency graph in pre-order, so sub-dependencies come before the producer that needs them.
- It runs each producer once per occurrence, unless a per-pass cache may be reused.
- It enters generator producers on an `AsyncExitStack`.
- It records every result in a binding table keyed by (producer, parameter name).
- It returns the update's data without `'event'`, overlaid with the handler's resolved parameters.

This project models that core:

- the current resolver (`src/aiogram3_di/resolver.py`) and its helpers (`src/aiogram3_di/utils.py`);
- the earlier single-function revision (`aiogram3_di/utils.py`, `process_dependencies`);
- `setup_di`, `DIManager` and the `Depends` descriptor.

Python reflection is replaced by an explicit producer graph:

- A `Registry` is a sequence of producers. A producer's identity is its index, and it stands for Python's `hash(call)`.
- Each producer has a `Shape`: a routine, a class or another object, plus the flavour of its own function or `__call__`. It also has an ordered parameter list.
- A parameter has a name, a has-default flag and an annotation. The annotation is either not `Annotated`, or `Annotated[declared, first-metadata]`.
- A graph is well formed when producer `i` depends only on producers below `i`. That is the acyclicity the walker needs to end.
- What a producer returns or raises is an oracle. The oracle is a function of the producer, how many times it already ran in the pass, and its keyword arguments. This is enough to state the `use_cache=False` and mock-based scenarios.
- A resource's release step is also an oracle. It maps (resource, exception handed in) to "returned truthy/falsy" or "raised".

The module layout:

- `Base`: values, Python truthiness, exceptions and outcomes.
- `Dependency`: `Depends`.
- `Graph`: producers, parameters and the walk elements.
- `Utils`: `get_valid_kwargs`, `get_dependencies`, the parameter extraction, `contextmanager_in_threadpool` and the classifiers.
- `Scope`: the exit stack, as a ledger released newest first with exceptions threaded through.
- `Resolver`: the pass as functions, plus the `DependenciesResolver` class proved to follow them.
- `ResolverFacts`: what a pass guarantees.
- `Legacy`: `process_dependencies`.
- `Middleware`: `DIMiddleware.__call__`, which shows the scope enclosing the handler.
- `Manager`: `DIManager`.
- `Setup`: `setup_di`.
- `Scenarios`: the repository's test situations worked out on the model.

The legacy helpers `_get_valid_kwargs` (aiogram3_di/utils.py:10-13),
`_get_dependencies` (aiogram3_di/utils.py:16-26) and
`_contextmanager_in_threadpool` (aiogram3_di/utils.py:29-38) have the same
bodies as their current counterparts. `Utils.ValidKwargs`,
`Utils.GetDependencies` and `Utils.ContextmanagerInThreadpool` model both.

Where the source and its descriptions disagree, the model follows the code:

- `resolver.py` imports `ParamData` and `extract_params` from `utils.py`, which does not define them.
  - `Utils.ExtractParams` follows the inline extraction of the earlier revision (aiogram3_di/utils.py:69-71).
  - It looks up each dependency annotation's value under (producer, name), and a missing binding raises `KeyError`.
- The shown `resolver.py` has no override lookup, while the tests and `DIManager` use one.
  - Overrides are an optional substitution step inside `__process_dependency`. With an empty table the model is exactly the shown code.
  - The substitute is run, and its identity is the cache key, both for reading and for writing `hash(dependency.func)`. This is the key the tests expect (tests/test_disable_cache.py:46): an overridden producer is reused like any other (`Scenarios.OverriddenProducerBuiltOnce`).
  - The walk and the binding keys use the original producer.
- The cache is read under `hash(call)` but written under `hash(dependency.func)` (src/aiogram3_di/resolver.py:70, :86). This is modelled as written.
  - For an explicit producer the two keys agree, so its first truthy result is reused (`ResolverFacts.FirstResultReused`).
  - A descriptor without an explicit producer writes under `hash(None)`, and no read ever uses that key.
  - `ResolverFacts.ImplicitDescriptorsNeverReuse` and `Scenarios.ImplicitProducerBuiltTwice` state the consequence: such producers run once per occurrence whatever `use_cache` says.
  - The earlier revision reads and writes under the same key (`Scenarios.ImplicitProducerBuiltOnceInLegacy`).
- The earlier `process_dependencies(data)` takes one argument, but the earlier middleware passes four (aiogram3_di/middleware.py:24-25). That call raises `TypeError` before anything runs. The model gives the function the arguments its body reads.
  - The function closes its own exit stack before it returns, so resources are released before the handler runs.
  - An exception that a release step suppresses lets the final merge run on an incomplete binding table (`Legacy.SuppressedFailureSurfacesAsKeyError`).

## Model

| member | source | states |
|---|---|---|
| Dependency.DependsDefaults | aiogram3_di/depends.py:9-11 | `func` defaults to none (use the declared type), `use_cache` defaults to true, and given arguments are stored unchanged |
| Dependency.CallOf | src/aiogram3_di/utils.py:26 | the producer of a use site is the descriptor's explicit producer when it has one, otherwise the declared type |
| Utils.ValidKwargs | src/aiogram3_di/utils.py:10-16 | the result's keys are exactly the data keys that name a parameter without a default, and each value equals the data's value |
| Utils.ResolvedArgumentsWin | src/aiogram3_di/resolver.py:73-74 | after filtering `data \| params`, a resolved value wins over a same-named data entry, and data entries are used only where nothing was resolved |
| Utils.GetDependencies | src/aiogram3_di/utils.py:19-30 | on an acyclic graph the walk ends, and every producer it yields is registered (below the bound) |
| Utils.WalkOfOne | src/aiogram3_di/utils.py:20-30 | an entry that is not `Annotated[..., Depends]` yields nothing; a dependency entry yields its producer's own walk, then itself |
| Utils.WalkDistributes | src/aiogram3_di/utils.py:20 | walking `a + b` is walking `a`, then `b`: annotation order is kept and nothing is deduplicated |
| Utils.WalkYieldsEntries | src/aiogram3_di/utils.py:30 | every dependency entry appears in the walk as (name, descriptor, declared type) |
| Utils.SubDependenciesFirst | src/aiogram3_di/utils.py:26-30 | pre-order: every sub-dependency of the producer of walk element `i` appears before position `i` |
| Utils.SubDependencyKeysFirst | src/aiogram3_di/utils.py:26-30 | the bindings that walk element `i`'s producer needs are all written by walk elements before `i` |
| Utils.WalkCoversEntries | src/aiogram3_di/utils.py:19-30 | the bindings the walked entries themselves need are all written by the walk |
| Utils.ExtractParams | aiogram3_di/utils.py:69-71 | succeeds exactly when every dependency annotation's (producer, name) is bound, else `KeyError`; its keys are the dependency names and its values the bound values |
| Utils.ContextmanagerInThreadpool | src/aiogram3_di/utils.py:33-42 | `__exit__` runs exactly once. A failed enter is re-raised, replaced by what `__exit__` raises, or becomes "didn't yield" when `__exit__` answers truthy. A body exception reaches `__exit__`, which decides suppression. A normal end calls `__exit__(None)` and suppresses nothing |
| Utils.IsCoroutineCallable | src/aiogram3_di/utils.py:45-51 | a class is never a coroutine callable, even when its `__call__` is; an object without a callable `__call__` is not one either |
| Utils.IsAsyncGenCallable | src/aiogram3_di/utils.py:54-58 | a class is asked about its `__call__`; an async-generator callable is neither a generator nor a coroutine callable |
| Utils.IsGenCallable | src/aiogram3_di/utils.py:61-65 | a class is asked about its `__call__`; a generator callable is not a coroutine callable |
| Scope.Unwind | src/aiogram3_di/middleware.py:23-27 | closing the stack makes one release call per entered resource |
| Scope.ReleasedInReverse | src/aiogram3_di/middleware.py:23-27 | every entered resource is released exactly once, newest first |
| Scope.UnhandledPropagates | src/aiogram3_di/middleware.py:23-27 | when no release step handles or raises, each sees the incoming exception and that exception propagates |
| Scope.HandledIsSuppressed | src/aiogram3_di/middleware.py:23-27 | when no release step raises, one truthy release step suppresses the propagating exception |
| Scope.NoRaiseKeepsNone | src/aiogram3_di/middleware.py:23-27 | a normal scope end with no raising release step raises nothing |
| Scope.ExitStack.constructor | src/aiogram3_di/middleware.py:23 | a new stack holds nothing and has released nothing |
| Scope.ExitStack.Enter | src/aiogram3_di/resolver.py:77-81 | `enter_async_context` pushes the resource and releases nothing |
| Scope.ExitStack.Close | src/aiogram3_di/middleware.py:23-27 | closing empties the stack; the release calls and the pending exception are exactly `Unwind` of the entries |
| Resolver.StrategyOf | src/aiogram3_di/resolver.py:76-85 | a function is run by its own flavour in both revisions; the earlier revision (aiogram3_di/utils.py:56-65) runs every class or other object synchronously |
| Resolver.CacheWriteKey | src/aiogram3_di/resolver.py:86 | the earlier revision writes under the producer called; the current one under `hash(None)` for an implicit descriptor and, for an explicit producer, under the key the next read of it uses |
| Resolver.ClassifierOrder | src/aiogram3_di/resolver.py:76-85 | exactly one strategy is picked, by the first classifier that answers yes; a class is never a coroutine; other objects follow their `__call__` |
| Resolver.DependenciesResolver.constructor | src/aiogram3_di/resolver.py:30-41 | the dependency list is the global dependencies followed by the handler-level ones; binding table and cache start empty |
| Resolver.Hit | src/aiogram3_di/resolver.py:70 | the cache is reused only when `use_cache` is set and the producer's entry exists and is not a falsy value (`None`, `False`, `0`, `""`) |
| Resolver.DependenciesResolver.ProcessCall | src/aiogram3_di/resolver.py:67-87 | the result and new state are exactly `ProcessCallSpec` of the old state (properties in `ResolverFacts.ProcessCallFacts`) |
| Resolver.DependenciesResolver.ProcessDependency | src/aiogram3_di/resolver.py:60-65 | the result and new state are exactly `DependencySpec` of the old state |
| Resolver.DependenciesResolver.ProcessAll | src/aiogram3_di/resolver.py:47-48 | processing a walk in place equals `OccurrencesSpec` and stops at the first exception |
| Resolver.DependenciesResolver.ResolveGlobalDependency | src/aiogram3_di/resolver.py:54-58 | equals `GlobalSpec`: without an explicit producer `TypeError`, else its sub-dependencies, then the producer |
| Resolver.DependenciesResolver.Resolve | src/aiogram3_di/resolver.py:43-52 | equals `ResolveSpec`; on success `'event'` has been removed from the data |
| ResolverFacts.ProcessCallFacts | src/aiogram3_di/resolver.py:67-87 | a truthy cached value with `use_cache` is returned without invoking anything. Otherwise a missing binding is `KeyError`, or the producer runs once with `data \| params` filtered. Only a fresh generator producer adds a stack entry. The binding table is untouched and a cached key keeps its first value |
| ResolverFacts.DependencyFacts | src/aiogram3_di/resolver.py:60-65 | a returning step binds its value under (producer, name), replacing any earlier binding; a raising step binds nothing |
| ResolverFacts.OccurrencesGrow | src/aiogram3_di/resolver.py:60-87 | a pass only appends invocations and stack entries, never overwrites a cache entry, and never removes a binding |
| ResolverFacts.OccurrencesConcat | src/aiogram3_di/resolver.py:47-48 | processing `a + b` is processing `a`, then `b` unless `a` raised |
| ResolverFacts.BindingKept | src/aiogram3_di/resolver.py:60-65 | a binding that no later occurrence writes keeps its value to the end of the pass |
| ResolverFacts.LastWriterWins | src/aiogram3_di/resolver.py:65 | after a completed pass, the key of any occurrence that no later occurrence writes holds the value that occurrence's own step produced |
| ResolverFacts.UncachedInvokesEach | src/aiogram3_di/resolver.py:70-71 | with `use_cache=False` everywhere, a completed pass invokes exactly the walk's producers, one per occurrence, in walk order |
| ResolverFacts.ImplicitDescriptorsNeverReuse | src/aiogram3_di/resolver.py:70-86 | with only implicit descriptors, from a cache with no producer key, every occurrence invokes its producer and only the `hash(None)` key is ever written |
| ResolverFacts.FirstResultReused | src/aiogram3_di/resolver.py:70-86 | the first truthy result of an explicit producer (of any producer in the earlier revision, aiogram3_di/utils.py:49-68) is cached under the key its next read uses, so a later `use_cache` occurrence returns it and invokes nothing |
| ResolverFacts.CachedValueReused | src/aiogram3_di/resolver.py:70-71 | a truthy cached value under the producer called, with `use_cache`, is returned and the state is unchanged |
| ResolverFacts.OccurrencesComplete | src/aiogram3_di/resolver.py:60-74 | when no producer raises and each occurrence's needed bindings exist before it, the pass completes and binds exactly one key per occurrence |
| ResolverFacts.WalkCompletes | src/aiogram3_di/utils.py:19-30 | running a walk on a well-formed graph with non-raising producers, when no substitute needs a binding its original lacks, completes and binds every key the walked entries need |
| ResolverFacts.GlobalsComplete | src/aiogram3_di/resolver.py:54-58 | global dependencies with explicit producers all complete when no producer raises and no substitute needs a binding its original lacks |
| ResolverFacts.ResolveSucceeds | src/aiogram3_di/resolver.py:43-52 | on a well-formed graph, with non-raising producers, explicit global producers, `'event'` present and no substitute needing a binding its original lacks, `resolve` never raises `KeyError` |
| ResolverFacts.ResolveMerge | src/aiogram3_di/resolver.py:50-52 | the result's keys are the data's without `'event'` plus the handler's dependency names; dependency values win; other entries equal the data's |
| ResolverFacts.GlobalsFirst | src/aiogram3_di/resolver.py:44-48 | every global dependency runs before any handler parameter dependency: the invocations after the globals are a prefix of the final record |
| ResolverFacts.GlobalResultUnbound | src/aiogram3_di/resolver.py:54-58 | a global's own result is never bound in the table; only its sub-dependencies' values are |
| ResolverFacts.GlobalsGrow | src/aiogram3_di/resolver.py:44-45 | resolving the globals only grows the state |
| ResolverFacts.ResolveGrows | src/aiogram3_di/resolver.py:43-52 | over a whole pass no cache entry is overwritten, only generator producers are entered, and nothing is removed |
| Legacy.RunProducer | aiogram3_di/utils.py:47-68 | one loop body equals the shared step with the earlier revision's strategy and cache key |
| Legacy.WalkDependencies | aiogram3_di/utils.py:46-68 | the loop over the walk equals `OccurrencesSpec` from an empty state and leaves at the first exception |
| Legacy.ProcessDependencies | aiogram3_di/utils.py:41-71 | result and release calls are exactly `ProcessDependenciesSpec`: walk, close the stack with the walk's exception, then merge over the whole data |
| Legacy.LegacyReleasesNewestFirst | aiogram3_di/utils.py:45 | every resource entered during the walk is released once, newest first, before the function returns |
| Legacy.LegacySucceeds | aiogram3_di/utils.py:41-71 | with no raising producer or release step, the result is `data` plus one entry per handler dependency name, `'event'` kept |
| Legacy.LegacyMerge | aiogram3_di/utils.py:69-71 | on success each handler dependency name holds the value bound under its (producer, name) after the walk, and every other key keeps its value from `data` |
| Legacy.SuppressedFailureSurfacesAsKeyError | aiogram3_di/utils.py:45-71 | an exception a release step suppressed lets the merge run, and a missing handler binding then raises `KeyError` |
| Manager.DIManager.constructor | src/aiogram3_di/manager.py:9-14 | the given table object itself is stored, not a copy |
| Manager.DIManager.DependencyOverrides | src/aiogram3_di/manager.py:16-18 | the property returns the table object the constructor or the setter stored (stated by those two members) |
| Manager.DIManager.SetDependencyOverrides | src/aiogram3_di/manager.py:20-22 | the getter afterwards returns the new table |
| Setup.Chosen | src/aiogram3_di/setup.py:25 | a non-empty list is used as given; an absent or empty one falls back to the update types in use |
| Setup.InstalledPerMention | src/aiogram3_di/setup.py:25-27 | observers keep their middleware and gain one resolver middleware per mention of their update type; the others are untouched |
| Setup.SetupDi | src/aiogram3_di/setup.py:11-32 | a non-dispatcher gives `TypeError`; an unknown name gives `ValueError` with nothing changed; otherwise the middleware is installed, and the manager is stored under `'di_manager'` and returned. An absent or empty table is replaced by a fresh empty one; a non-empty one is shared |
| Middleware.HandleUpdate | src/aiogram3_di/middleware.py:13-27 | the outcome and release calls are exactly `HandleSpec`: resolve, then the handler, then close the stack with what either raised |
| Middleware.ReleasedAfterHandler | src/aiogram3_di/middleware.py:23-27 | every resource entered while resolving is released once, after the handler, newest first |
| Middleware.EventHiddenFromHandler | src/aiogram3_di/middleware.py:24-27 | the handler sees `'event'` only if one of its own dependency parameters is named so; other data entries reach it unchanged |
| Middleware.HandlerRuns | src/aiogram3_di/middleware.py:23-27 | when no producer, release step or handler raises, every global names its producer and substitutes need no binding the original lacks, the handler is called and its value is the middleware's result |
| Scenarios.SubDependenciesWalk | tests/test_get_sub_dependencies.py:37-43 | first name, last name, then full name |
| Scenarios.OnlyDeclaredKwargs | tests/test_get_valid_kwargs.py:20-32 | only `full_name` survives the filtering |
| Scenarios.HandlerParamsExtracted | tests/test_extract_params.py:27-52 | the handler's value is read back under (producer, name) |
| Scenarios.DisabledCacheRunsTwice | tests/test_disable_cache.py:26-46 | two invocations; the handler sees the second value; the cache keeps the first, under the mock's identity |
| Scenarios.OverriddenDependencyResolved | tests/test_resolve_dependencies.py:39-62 | the handler-level dependency runs first, then the substitute, whose value the handler sees |
| Scenarios.ImplicitProducerBuiltTwice | src/aiogram3_di/resolver.py:70-86 | two `Annotated[Foo, Depends()]` parameters build `Foo` twice |
| Scenarios.OverriddenProducerBuiltOnce | src/aiogram3_di/resolver.py:70-86 | with `get_name` overridden, two cached annotations run the substitute once and the cache holds its value under the substitute's identity |
| Scenarios.WiderSubstituteRaises | src/aiogram3_di/resolver.py:60-74 | a substitute with a dependency parameter that the producer it replaces lacks finds no binding for it, and `resolve` fails with `KeyError` |
| Scenarios.ImplicitProducerBuiltOnceInLegacy | aiogram3_di/utils.py:49-68 | in the earlier revision the second one reuses the first instance |

## Left out

- Threads and awaiting (`asyncio.to_thread`, `await`) are modelled as sequential calls. Cancellation and `BaseException` paths are not modelled.
- Python reflection is not modelled. `inspect.signature`, `inspect.get_annotations`, `Annotated` and `hash()` of callables are replaced by the explicit producer graph.
  - `inspect.get_annotations(cls)` of a class gives its class-body annotations rather than its `__init__` parameters. The model uses one parameter list per producer for both.
  - Keyword-only and variadic parameters are not distinguished.
  - `data['handler'].spec.annotations` is passed in directly, so a missing `'handler'` key is not modelled.
- Cyclic dependency graphs are excluded by precondition (`Graph.WellFormed`). On them the walker recurses without end.
- What producers, handlers and release steps do is an oracle parameter. The model does not look inside them.
- `asynccontextmanager` entering and the exit stack's own callbacks are reduced to the ledger, and an exception that escapes `enter_async_context` after the generator yielded is not modelled.
- The aiogram parts of `setup_di` are reduced to the few pieces it uses:
  - `isinstance(dispatcher, Dispatcher)` becomes the `Target` datatype.
  - Observers are a map from update type to middleware list.
  - `resolve_used_update_types()` is a constant of the dispatcher.
  - `workflow_data` holds only what `setup_di` writes.
- The earlier middleware (aiogram3_di/middleware.py) is not modelled, because its call does not match `process_dependencies`'s signature. The flag lookup and `getattr(..., 'dependencies')` of the current middleware become plain arguments.
- The example bots and the package `__init__` files are not part of this model.
- Resolver.DependenciesResolver.Resolve: `data` after a failed pass is not stated, and the exit stack is left open for the caller to close, as in the source.
- Python truthiness is modelled for `None`, booleans, integers and strings. Every other object (`Object`) counts as truthy, so a falsy container, `0.0` or an object with `__bool__`/`__len__` is stood for by `NoneValue`, `Bool(false)`, `Int(0)` or `Str("")`.
- The release step of an entered generator producer is the oracle `Scope.ExitFn`. For a synchronous generator, that step is what `Utils.ContextmanagerInThreadpool` describes; the model does not derive one from the other.
- Overrides: the walk and the binding keys follow the replaced producer, so a substitute's own dependency parameters are neither walked nor bound. A substitute with a dependency parameter the replaced producer lacks makes `resolve` raise `KeyError` in this model (`Scenarios.WiderSubstituteRaises`), and the completion lemmas assume that no substitute needs more than what it replaces.
