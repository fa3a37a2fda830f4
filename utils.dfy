/** The helpers of the resolver: keyword filtering, the dependency walker, the
    parameter extraction, the thread-pool adapter for generator managers, and
    the callable classifiers. */
module Utils {
  import opened Base
  import opened Dependency
  import opened Graph

  // ---------------------------------------------------------------------------
  // Keyword filtering

  /** Names of the parameters that have no default value. */
  function RequiredNames(params: seq<Param>): set<Name>
  {
    set i | 0 <= i < |params| && !params[i].hasDefault :: params[i].name
  }

  /** `get_valid_kwargs`: the entries of `data` whose key names a parameter
      without a default, with their values unchanged. */
  function ValidKwargs(data: map<Name, Value>, params: seq<Param>): (r: map<Name, Value>)
    ensures forall k :: k in r <==> k in data && exists i :: 0 <= i < |params| && params[i].name == k && !params[i].hasDefault
    ensures forall k :: k in r ==> r[k] == data[k]
  {
    map k | k in data && k in RequiredNames(params) :: data[k]
  }

  /** Filtering a right-biased union: a resolved value wins over a same-named
      ambient entry, and ambient entries are used only where nothing was resolved. */
  lemma ResolvedArgumentsWin(data: map<Name, Value>, resolved: map<Name, Value>, params: seq<Param>, k: Name)
    requires k in ValidKwargs(data + resolved, params)
    ensures k in resolved ==> ValidKwargs(data + resolved, params)[k] == resolved[k]
    ensures k !in resolved ==> k in data && ValidKwargs(data + resolved, params)[k] == data[k]
  {
  }

  // ---------------------------------------------------------------------------
  // The dependency walker

  /** `get_dependencies`: for each entry annotated `Annotated[T, Depends(...)]`,
      first the walk of its producer's own parameters (when it has any), then
      the entry itself.  Other entries yield nothing. */
  function GetDependencies(reg: Registry, entries: seq<Param>, bound: nat): (r: seq<Occurrence>)
    requires WellFormed(reg) && bound <= |reg| && CallsBelow(entries, bound)
    ensures forall k :: 0 <= k < |r| ==> r[k].Call() < bound
    decreases bound, |entries|
  {
    if entries == [] then []
    else
      var e := entries[0];
      var here :=
        if IsDependencyParam(e) then
          var call := ParamCall(e);
          var params := reg[call].params;
          (if params != [] then GetDependencies(reg, params, call) else []) + [OccurrenceOf(e)]
        else [];
      here + GetDependencies(reg, entries[1..], bound)
  }

  /** The walk of one entry: empty for a non-dependency, otherwise the walk of
      the producer's parameters followed by the entry. */
  lemma {:induction false} WalkOfOne(reg: Registry, e: Param, bound: nat)
    requires WellFormed(reg) && bound <= |reg| && (IsDependencyParam(e) ==> ParamCall(e) < bound)
    ensures CallsBelow([e], bound)
    ensures !IsDependencyParam(e) ==> GetDependencies(reg, [e], bound) == []
    ensures IsDependencyParam(e) ==>
      GetDependencies(reg, [e], bound) == GetDependencies(reg, reg[ParamCall(e)].params, ParamCall(e)) + [OccurrenceOf(e)]
  {
    assert [e][1..] == [];
    if IsDependencyParam(e) && reg[ParamCall(e)].params == [] {
      assert GetDependencies(reg, [], ParamCall(e)) == [];
    }
  }

  /** The walk preserves the order of the entries and does not deduplicate:
      walking `a + b` is walking `a`, then walking `b`. */
  lemma {:induction false} WalkDistributes(reg: Registry, a: seq<Param>, b: seq<Param>, bound: nat)
    requires WellFormed(reg) && bound <= |reg| && CallsBelow(a, bound) && CallsBelow(b, bound)
    ensures CallsBelow(a + b, bound)
    ensures GetDependencies(reg, a + b, bound) == GetDependencies(reg, a, bound) + GetDependencies(reg, b, bound)
    decreases |a|
  {
    assert forall i :: 0 <= i < |a + b| ==> (a + b)[i] == if i < |a| then a[i] else b[i - |a|];
    if a == [] {
      assert a + b == b;
    } else {
      assert (a + b)[0] == a[0];
      assert (a + b)[1..] == a[1..] + b;
      WalkDistributes(reg, a[1..], b, bound);
    }
  }

  /** Every dependency entry is itself yielded by the walk. */
  lemma {:induction false} WalkYieldsEntries(reg: Registry, entries: seq<Param>, bound: nat)
    requires WellFormed(reg) && bound <= |reg| && CallsBelow(entries, bound)
    ensures forall i :: 0 <= i < |entries| && IsDependencyParam(entries[i]) ==>
      OccurrenceOf(entries[i]) in GetDependencies(reg, entries, bound)
    decreases |entries|
  {
    if entries != [] {
      WalkYieldsEntries(reg, entries[1..], bound);
      forall i | 0 <= i < |entries| && IsDependencyParam(entries[i])
        ensures OccurrenceOf(entries[i]) in GetDependencies(reg, entries, bound)
      {
        if i > 0 {
          assert entries[i] == entries[1..][i - 1];
        }
      }
    }
  }

  /** The binding-table keys of a walk are the union of its parts' keys. */
  lemma OccKeysConcat(a: seq<Occurrence>, b: seq<Occurrence>)
    ensures OccKeys(a + b) == OccKeys(a) + OccKeys(b)
  {
    var ab := a + b;
    forall k | k in OccKeys(ab) ensures k in OccKeys(a) + OccKeys(b) {
      var i :| 0 <= i < |ab| && ab[i].Key() == k;
      if i < |a| { assert a[i] == ab[i]; } else { assert b[i - |a|] == ab[i]; }
    }
    forall k | k in OccKeys(a) + OccKeys(b) ensures k in OccKeys(ab) {
      if k in OccKeys(a) {
        var i :| 0 <= i < |a| && a[i].Key() == k;
        assert ab[i] == a[i];
      } else {
        var i :| 0 <= i < |b| && b[i].Key() == k;
        assert ab[|a| + i] == b[i];
      }
    }
  }

  /** Pre-order: every sub-dependency of the producer of the `i`-th element of
      the walk is yielded before position `i`. */
  lemma {:induction false} SubDependenciesFirst(reg: Registry, entries: seq<Param>, bound: nat, i: nat)
    requires WellFormed(reg) && bound <= |reg| && CallsBelow(entries, bound)
    requires i < |GetDependencies(reg, entries, bound)|
    ensures var w := GetDependencies(reg, entries, bound);
      var ps := reg[w[i].Call()].params;
      forall k :: 0 <= k < |ps| && IsDependencyParam(ps[k]) ==> OccurrenceOf(ps[k]) in w[..i]
    decreases bound, |entries|
  {
    var w := GetDependencies(reg, entries, bound);
    var e := entries[0];
    var tail := GetDependencies(reg, entries[1..], bound);
    if !IsDependencyParam(e) {
      assert w == tail;
      SubDependenciesFirst(reg, entries[1..], bound, i);
    } else {
      var call := ParamCall(e);
      var params := reg[call].params;
      var sub := if params != [] then GetDependencies(reg, params, call) else [];
      var here := sub + [OccurrenceOf(e)];
      assert w == here + tail;
      if i < |sub| {
        SubDependenciesFirst(reg, params, call, i);
        assert w[..i] == sub[..i];
        assert w[i] == sub[i];
      } else if i == |sub| {
        assert w[i] == OccurrenceOf(e);
        assert w[..i] == sub;
        if params != [] {
          WalkYieldsEntries(reg, params, call);
        }
      } else {
        var j := i - |here|;
        SubDependenciesFirst(reg, entries[1..], bound, j);
        assert w[i] == tail[j];
        assert w[..i] == here + tail[..j];
      }
    }
  }

  /** The binding-table keys a producer needs are written by the part of the
      walk that precedes it. */
  lemma SubDependencyKeysFirst(reg: Registry, entries: seq<Param>, bound: nat, i: nat)
    requires WellFormed(reg) && bound <= |reg| && CallsBelow(entries, bound)
    requires i < |GetDependencies(reg, entries, bound)|
    ensures var w := GetDependencies(reg, entries, bound);
      NeededKeys(reg[w[i].Call()].params) <= OccKeys(w[..i])
  {
    var w := GetDependencies(reg, entries, bound);
    var ps := reg[w[i].Call()].params;
    SubDependenciesFirst(reg, entries, bound, i);
    forall key | key in NeededKeys(ps) ensures key in OccKeys(w[..i]) {
      var k :| 0 <= k < |ps| && IsDependencyParam(ps[k]) && KeyOf(ps[k]) == key;
      var o := OccurrenceOf(ps[k]);
      var j :| 0 <= j < i && w[..i][j] == o;
      assert w[..i][j].Key() == key;
    }
  }

  /** The keys the entries themselves need are all written by their walk. */
  lemma WalkCoversEntries(reg: Registry, entries: seq<Param>, bound: nat)
    requires WellFormed(reg) && bound <= |reg| && CallsBelow(entries, bound)
    ensures NeededKeys(entries) <= OccKeys(GetDependencies(reg, entries, bound))
  {
    var w := GetDependencies(reg, entries, bound);
    WalkYieldsEntries(reg, entries, bound);
    forall key | key in NeededKeys(entries) ensures key in OccKeys(w) {
      var k :| 0 <= k < |entries| && IsDependencyParam(entries[k]) && KeyOf(entries[k]) == key;
      var j :| 0 <= j < |w| && w[j] == OccurrenceOf(entries[k]);
      assert w[j].Key() == key;
    }
  }

  // ---------------------------------------------------------------------------
  // Parameter extraction

  /** Names of the dependency entries. */
  function DependencyNames(entries: seq<Param>): set<Name>
  {
    set i | 0 <= i < |entries| && IsDependencyParam(entries[i]) :: entries[i].name
  }

  /** `extract_params`: for each dependency entry, the value bound under
      (its producer, its name); a missing binding is a `KeyError`. */
  function ExtractParams(entries: seq<Param>, paramData: map<ParamKey, Value>): (r: Result<map<Name, Value>>)
    ensures r.Ok? <==> NeededKeys(entries) <= paramData.Keys
    ensures r.Err? ==> r.error == KeyError
    ensures r.Ok? ==> r.value.Keys == DependencyNames(entries)
    ensures r.Ok? && UniqueNames(entries) ==>
      forall i :: 0 <= i < |entries| && IsDependencyParam(entries[i]) ==> r.value[entries[i].name] == paramData[KeyOf(entries[i])]
  {
    if entries == [] then Ok(map[])
    else
      var e := entries[0];
      var rest := ExtractParams(entries[1..], paramData);
      assert NeededKeys(entries) == (if IsDependencyParam(e) then {KeyOf(e)} else {}) + NeededKeys(entries[1..]) by {
        assert forall i :: 0 < i < |entries| ==> entries[i] == entries[1..][i - 1];
      }
      assert DependencyNames(entries) == (if IsDependencyParam(e) then {e.name} else {}) + DependencyNames(entries[1..]) by {
        assert forall i :: 0 < i < |entries| ==> entries[i] == entries[1..][i - 1];
      }
      if !IsDependencyParam(e) then rest
      else if KeyOf(e) !in paramData then Err(KeyError)
      else if rest.Err? then rest
      else
        assert UniqueNames(entries) ==> e.name !in rest.value by {
          if UniqueNames(entries) {
            forall i | 0 <= i < |entries[1..]| ensures entries[1..][i].name != e.name {
              assert entries[1..][i] == entries[i + 1];
            }
          }
        }
        Ok(map[e.name := paramData[KeyOf(e)]] + rest.value)
  }

  // ---------------------------------------------------------------------------
  // Running a synchronous context manager from a worker thread

  /** `contextmanager_in_threadpool`, driven as an asynchronous context manager
      around a scope whose body ends with `body` (an exception or none).
      `enter` is what the wrapped manager's `__enter__` gives and `exit` is its
      `__exit__`, as a function of the exception it is handed.  Returns what
      entering gives, the exceptions `__exit__` was called with, and, when the
      scope was entered, the reply the asynchronous `__aexit__` gives. */
  method ContextmanagerInThreadpool(enter: Outcome, body: Option<Exc>, exit: Option<Exc> -> ExitReply)
    returns (entered: Outcome, exitCalls: seq<Option<Exc>>, reply: Option<ExitReply>)
    ensures |exitCalls| == 1
    ensures enter.Returned? ==> entered == enter && exitCalls == [body] && reply.Some?
    ensures enter.Returned? && body.None? ==>
      reply.value == (if exit(None).ExitRaised? then exit(None) else ExitReturned(false))
    ensures enter.Returned? && body.Some? ==> reply.value == exit(body)
    ensures enter.Raised? ==> exitCalls == [Some(enter.error)] && reply.None? && entered.Raised?
    ensures enter.Raised? ==> (entered.error ==
      match exit(Some(enter.error))
      case ExitRaised(e) => e
      case ExitReturned(truthy) => if truthy then RuntimeError else enter.error)
  {
    reply := None;
    if enter.Raised? {
      // `__enter__` failed inside the `try`: the `except` hands it to `__exit__`.
      var e := enter.error;
      var ok := exit(Some(e));
      exitCalls := [Some(e)];
      if ok.ExitRaised? {
        entered := Raised(ok.error);
      } else if ok.truthy {
        // The generator ends without yielding.
        entered := Raised(RuntimeError);
      } else {
        entered := Raised(e);
      }
    } else {
      entered := enter;
      if body.Some? {
        // The exception is thrown in at the `yield`; truthy means handled.
        var ok := exit(body);
        exitCalls := [body];
        reply := Some(ok);
      } else {
        var ok := exit(None);
        exitCalls := [None];
        reply := Some(if ok.ExitRaised? then ok else ExitReturned(false));
      }
    }
  }

  // ---------------------------------------------------------------------------
  // Classifiers

  /** `is_coroutine_callable`: a routine by its own flavour, a class never,
      anything else by its `__call__`. */
  predicate IsCoroutineCallable(s: Shape): (r: bool)
    ensures s.Class? ==> !r
    ensures !s.Routine? && s.dunderCall.None? ==> !r
  {
    match s
    case Routine(f) => f == CoroutineFn
    case Class(_) => false
    case Instance(d) => d == Some(CoroutineFn)
  }

  /** `is_async_gen_callable`: the callable itself, else its `__call__`;
      unlike `is_coroutine_callable`, a class is asked about its `__call__`
      too.  A callable has one flavour, so it is then neither a generator nor
      a coroutine callable. */
  predicate IsAsyncGenCallable(s: Shape): (r: bool)
    ensures s.Class? ==> (r <==> s.dunderCall == Some(AsyncGeneratorFn))
    ensures r ==> !IsGenCallable(s) && !IsCoroutineCallable(s)
  {
    match s
    case Routine(f) => f == AsyncGeneratorFn
    case Class(d) => d == Some(AsyncGeneratorFn)
    case Instance(d) => d == Some(AsyncGeneratorFn)
  }

  /** `is_gen_callable`: the callable itself, else its `__call__`, which
      is never also a coroutine callable. */
  predicate IsGenCallable(s: Shape): (r: bool)
    ensures s.Class? ==> (r <==> s.dunderCall == Some(GeneratorFn))
    ensures r ==> !IsCoroutineCallable(s)
  {
    match s
    case Routine(f) => f == GeneratorFn
    case Class(d) => d == Some(GeneratorFn)
    case Instance(d) => d == Some(GeneratorFn)
  }
}
