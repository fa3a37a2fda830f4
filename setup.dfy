/** `setup_di`: installs the resolver's middleware on the dispatcher's update
    observers and stores a `DIManager` in the dispatcher's workflow data. */
module Setup {
  import opened Base
  import opened Manager

  /** The middleware registered on an observer; only the resolver's own one is
      told apart. */
  datatype Middleware = DIMiddleware | OtherMiddleware(id: nat)

  /** The parts of an aiogram `Dispatcher` that `setup_di` reads or changes. */
  class Dispatcher {
    /** Middleware list of each update observer, by update type. */
    var observers: map<string, seq<Middleware>>
    /** What `resolve_used_update_types()` answers: the update types some
        handler is registered for, each the name of an observer. */
    const usedUpdateTypes: seq<string>
    /** `workflow_data`, written through `dispatcher[key] = value`. */
    var workflowData: map<string, object>

    constructor (observers: map<string, seq<Middleware>>, usedUpdateTypes: seq<string>)
      requires forall i :: 0 <= i < |usedUpdateTypes| ==> usedUpdateTypes[i] in observers
      ensures Valid()
      ensures this.observers == observers && this.usedUpdateTypes == usedUpdateTypes
      ensures workflowData == map[]
    {
      this.observers := observers;
      this.usedUpdateTypes := usedUpdateTypes;
      workflowData := map[];
    }

    ghost predicate Valid()
      reads this
    {
      forall i :: 0 <= i < |usedUpdateTypes| ==> usedUpdateTypes[i] in observers
    }
  }

  /** What `setup_di` is handed as its first argument. */
  datatype Target = IsDispatcher(dp: Dispatcher) | NotDispatcher

  /** Every requested update type names an observer of the dispatcher. */
  predicate AllObserved(names: seq<string>, observers: map<string, seq<Middleware>>)
  {
    forall i :: 0 <= i < |names| ==> names[i] in observers
  }

  /** `allowed_updates or dispatcher.resolve_used_update_types()`: an absent
      or empty list falls back to the update types in use. */
  function Chosen(allowedUpdates: Option<seq<string>>, used: seq<string>): (names: seq<string>)
    ensures allowedUpdates.Some? && allowedUpdates.value != [] ==> names == allowedUpdates.value
    ensures allowedUpdates.None? || allowedUpdates.value == [] ==> names == used
  {
    if allowedUpdates.Some? && allowedUpdates.value != [] then allowedUpdates.value else used
  }

  /** The observers after `observer.middleware(DIMiddleware())` for each name,
      in order: one more resolver middleware at the end per mention. */
  function Installed(observers: map<string, seq<Middleware>>, names: seq<string>): map<string, seq<Middleware>>
    requires AllObserved(names, observers)
    decreases |names|
  {
    if names == [] then observers
    else
      var n := names[0];
      Installed(observers[n := observers[n] + [DIMiddleware]], names[1..])
  }

  /** How many times `n` is mentioned. */
  function Mentions(names: seq<string>, n: string): (c: nat)
    ensures c <= |names|
  {
    multiset(names)[n]
  }

  /** Installing keeps the set of observers; each observer keeps its
      middleware and receives, after it, exactly one resolver middleware per
      mention of its update type (so a repeated name installs it twice, and
      an unmentioned observer is left alone). */
  lemma {:induction false} InstalledPerMention(observers: map<string, seq<Middleware>>, names: seq<string>)
    requires AllObserved(names, observers)
    ensures Installed(observers, names).Keys == observers.Keys
    ensures forall k :: k in observers ==>
      Installed(observers, names)[k] == observers[k] + seq(Mentions(names, k), _ => DIMiddleware)
    decreases |names|
  {
    if names != [] {
      var n := names[0];
      var next := observers[n := observers[n] + [DIMiddleware]];
      InstalledPerMention(next, names[1..]);
      assert names == [n] + names[1..];
      assert multiset(names) == multiset{n} + multiset(names[1..]);
      forall k | k in observers
        ensures Installed(observers, names)[k] == observers[k] + seq(Mentions(names, k), _ => DIMiddleware)
      {
        if k == n {
          assert seq(Mentions(names, k), _ => DIMiddleware) == [DIMiddleware] + seq(Mentions(names[1..], k), _ => DIMiddleware);
        }
      }
    }
  }

  /** `setup_di(dispatcher, allowed_updates=..., dependency_overrides=...)`.
      Checks first that the target is a dispatcher (`TypeError`), then, when
      a list is given, that every name is an observer (`ValueError`, with
      nothing installed); then installs the middleware and stores the manager
      under `'di_manager'`.  An absent or empty override table is replaced by
      a fresh empty one; a non-empty one is shared, not copied. */
  method SetupDi(target: Target, allowedUpdates: Option<seq<string>>, dependencyOverrides: Option<OverrideTable>)
    returns (r: Result<DIManager>)
    requires target.IsDispatcher? ==> target.dp.Valid()
    modifies if target.IsDispatcher? then {target.dp} else {}
    ensures target.NotDispatcher? ==> r == Err(TypeError)
    ensures target.IsDispatcher? && allowedUpdates.Some? && !AllObserved(allowedUpdates.value, old(target.dp.observers)) ==>
      r == Err(ValueError) && unchanged(target.dp)
    ensures target.IsDispatcher? && (allowedUpdates.Some? ==> AllObserved(allowedUpdates.value, old(target.dp.observers))) ==>
      && r.Ok? && fresh(r.value)
      && AllObserved(Chosen(allowedUpdates, target.dp.usedUpdateTypes), old(target.dp.observers))
      && target.dp.observers == Installed(old(target.dp.observers), Chosen(allowedUpdates, target.dp.usedUpdateTypes))
      && target.dp.workflowData == old(target.dp.workflowData)["di_manager" := r.value]
      && (if dependencyOverrides.None? || dependencyOverrides.value.IsEmpty()
          then fresh(r.value.overrides) && r.value.overrides.entries == map[]
          else r.value.overrides == dependencyOverrides.value)
  {
    if target.NotDispatcher? {
      return Err(TypeError);
    }
    var dp := target.dp;
    if allowedUpdates.Some? {
      var names := allowedUpdates.value;
      for i := 0 to |names|
        invariant forall j :: 0 <= j < i ==> names[j] in dp.observers
      {
        if names[i] !in dp.observers {
          return Err(ValueError);
        }
      }
    }
    var names := Chosen(allowedUpdates, dp.usedUpdateTypes);
    ghost var start := dp.observers;
    for i := 0 to |names|
      invariant dp.observers.Keys == start.Keys
      invariant dp.workflowData == old(dp.workflowData)
      invariant Installed(start, names) == Installed(dp.observers, names[i..])
    {
      assert names[i..][1..] == names[i + 1..];
      dp.observers := dp.observers[names[i] := dp.observers[names[i]] + [DIMiddleware]];
    }
    assert names[|names|..] == [];
    var table: OverrideTable;
    if dependencyOverrides.None? || dependencyOverrides.value.entries == map[] {
      table := new OverrideTable(map[]);
    } else {
      table := dependencyOverrides.value;
    }
    var manager := new DIManager(table);
    dp.workflowData := dp.workflowData["di_manager" := manager];
    r := Ok(manager);
  }
}
