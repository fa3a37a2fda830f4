/** `DIMiddleware.__call__` of the current revision: one exit stack per update,
    a resolver over the update's data with `'event'` added, then the handler,
    then the stack is closed with whatever the two raised. */
module Middleware {
  import opened Base
  import opened Dependency
  import opened Graph
  import opened Utils
  import opened Scope
  import opened Resolver
  import opened ResolverFacts

  /** What one update produces: the middleware's outcome, the release calls
      the stack made, and the data the handler was called with (if it was). */
  datatype Handled = Handled(outcome: Outcome, released: seq<Release>, handlerData: Option<map<Name, Value>>)

  function UpdateEnv(reg: Registry, overrides: map<ProducerId, ProducerId>, invoke: Invoker,
                     event: Value, data: map<Name, Value>): PassEnv
  {
    PassEnv(reg, overrides, invoke, data["event" := event], Current)
  }

  /** Resolution, then the handler (only when resolution succeeded), then the
      stack closed with the exception pending.  A still-pending exception is
      raised; a suppressed one makes the middleware return `None`. */
  function HandleSpec(
    reg: Registry, overrides: map<ProducerId, ProducerId>, invoke: Invoker, exit: ExitFn,
    handlerCall: map<Name, Value> -> Outcome, globals: seq<Depends>, handler: seq<Param>,
    event: Value, data: map<Name, Value>): Handled
    requires ValidEnv(UpdateEnv(reg, overrides, invoke, event, data))
    requires GlobalsRegistered(reg, globals) && CallsBelow(handler, |reg|)
  {
    var res := ResolveSpec(UpdateEnv(reg, overrides, invoke, event, data), EmptyState, globals, handler);
    var handlerOut := if res.result.Ok? then Some(handlerCall(res.result.value)) else None;
    var exc :=
      if res.result.Err? then Some(res.result.error)
      else if handlerOut.value.Raised? then Some(handlerOut.value.error)
      else None;
    var u := Unwind(res.st.ledger, exc, exit);
    var outcome :=
      if u.pending.Some? then Raised(u.pending.value)
      else if handlerOut.Some? && handlerOut.value.Returned? then handlerOut.value
      else Returned(NoneValue);
    Handled(outcome, u.calls, if res.result.Ok? then Some(res.result.value) else None)
  }

  /** `DIMiddleware.__call__(handler, event, data)`. */
  method HandleUpdate(
    reg: Registry, overrides: map<ProducerId, ProducerId>, invoke: Invoker, exit: ExitFn,
    handlerCall: map<Name, Value> -> Outcome,
    dispatcherDependencies: seq<Depends>, routerDependencies: seq<Depends>, handlerDependencies: seq<Depends>,
    handler: seq<Param>, event: Value, data: map<Name, Value>)
    returns (outcome: Outcome, released: seq<Release>)
    requires ValidEnv(UpdateEnv(reg, overrides, invoke, event, data))
    requires GlobalsRegistered(reg, dispatcherDependencies + routerDependencies + handlerDependencies)
    requires CallsBelow(handler, |reg|) && UniqueNames(handler)
    ensures var h := HandleSpec(reg, overrides, invoke, exit, handlerCall,
                                dispatcherDependencies + routerDependencies + handlerDependencies, handler, event, data);
      outcome == h.outcome && released == h.released
  {
    var stack := new ExitStack();
    var resolver := new DependenciesResolver(stack, dispatcherDependencies + routerDependencies, handlerDependencies,
                                             data["event" := event], handler, reg, overrides, invoke);
    var r := resolver.Resolve();
    var exc: Option<Exc>;
    var handlerOut: Outcome := Returned(NoneValue);
    if r.Err? {
      exc := Some(r.error);
    } else {
      handlerOut := handlerCall(r.value);
      exc := if handlerOut.Raised? then Some(handlerOut.error) else None;
    }
    var pending := stack.Close(exc, exit);
    released := stack.released;
    if pending.Some? {
      outcome := Raised(pending.value);
    } else if r.Ok? && handlerOut.Returned? {
      outcome := handlerOut;
    } else {
      outcome := Returned(NoneValue);
    }
  }

  /** Every resource entered while resolving is released exactly once, after
      the handler has run, newest first. */
  lemma ReleasedAfterHandler(
    reg: Registry, overrides: map<ProducerId, ProducerId>, invoke: Invoker, exit: ExitFn,
    handlerCall: map<Name, Value> -> Outcome, globals: seq<Depends>, handler: seq<Param>,
    event: Value, data: map<Name, Value>)
    requires ValidEnv(UpdateEnv(reg, overrides, invoke, event, data))
    requires GlobalsRegistered(reg, globals) && CallsBelow(handler, |reg|)
    ensures var res := ResolveSpec(UpdateEnv(reg, overrides, invoke, event, data), EmptyState, globals, handler);
      Handles(HandleSpec(reg, overrides, invoke, exit, handlerCall, globals, handler, event, data).released)
        == Reversed(res.st.ledger)
  {
    var env := UpdateEnv(reg, overrides, invoke, event, data);
    var res := ResolveSpec(env, EmptyState, globals, handler);
    var h := HandleSpec(reg, overrides, invoke, exit, handlerCall, globals, handler, event, data);
    var exc :=
      if res.result.Err? then Some(res.result.error)
      else if handlerCall(res.result.value).Raised? then Some(handlerCall(res.result.value).error)
      else None;
    assert h.released == Unwind(res.st.ledger, exc, exit).calls;
    ReleasedInReverse(res.st.ledger, exc, exit);
  }

  /** The handler never sees the event under `'event'` unless one of its own
      dependency parameters is named so: the key is removed before the
      resolved values are laid over the data. */
  lemma EventHiddenFromHandler(
    reg: Registry, overrides: map<ProducerId, ProducerId>, invoke: Invoker, exit: ExitFn,
    handlerCall: map<Name, Value> -> Outcome, globals: seq<Depends>, handler: seq<Param>,
    event: Value, data: map<Name, Value>)
    requires ValidEnv(UpdateEnv(reg, overrides, invoke, event, data))
    requires GlobalsRegistered(reg, globals) && CallsBelow(handler, |reg|) && UniqueNames(handler)
    requires HandleSpec(reg, overrides, invoke, exit, handlerCall, globals, handler, event, data).handlerData.Some?
    ensures var m := HandleSpec(reg, overrides, invoke, exit, handlerCall, globals, handler, event, data).handlerData.value;
      && ("event" in m <==> "event" in DependencyNames(handler))
      && forall k :: k in data && k != "event" && k !in DependencyNames(handler) ==> k in m && m[k] == data[k]
  {
    ResolveMerge(UpdateEnv(reg, overrides, invoke, event, data), EmptyState, globals, handler);
  }

  /** When no producer, release step or handler raises, every global names its
      producer and substitutes need nothing new, the handler is called and its
      value is what the middleware returns. */
  lemma HandlerRuns(
    reg: Registry, overrides: map<ProducerId, ProducerId>, invoke: Invoker, exit: ExitFn,
    handlerCall: map<Name, Value> -> Outcome, globals: seq<Depends>, handler: seq<Param>,
    event: Value, data: map<Name, Value>)
    requires ValidEnv(UpdateEnv(reg, overrides, invoke, event, data))
    requires GlobalsRegistered(reg, globals) && CallsBelow(handler, |reg|)
    requires NeverRaises(UpdateEnv(reg, overrides, invoke, event, data))
    requires SubstitutesNeedNoMore(UpdateEnv(reg, overrides, invoke, event, data))
    requires forall i :: 0 <= i < |globals| ==> globals[i].func.Some?
    requires forall h, x :: exit(h, x).ExitReturned?
    requires forall m :: handlerCall(m).Returned?
    ensures var h := HandleSpec(reg, overrides, invoke, exit, handlerCall, globals, handler, event, data);
      h.handlerData.Some? && h.outcome == handlerCall(h.handlerData.value)
  {
    var env := UpdateEnv(reg, overrides, invoke, event, data);
    ResolveSucceeds(env, EmptyState, globals, handler);
    NoRaiseKeepsNone(ResolveSpec(env, EmptyState, globals, handler).st.ledger, exit);
  }
}
