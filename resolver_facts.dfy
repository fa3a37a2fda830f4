/** What a resolution pass guarantees, proved about the functions that
    specify it. */
module ResolverFacts {
  import opened Base
  import opened Dependency
  import opened Graph
  import opened Utils
  import opened Scope
  import opened Resolver

  /** Existing cache entries are kept with their values. */
  predicate CacheExtends(a: map<Option<ProducerId>, Value>, b: map<Option<ProducerId>, Value>)
  {
    forall k :: k in a ==> k in b && b[k] == a[k]
  }

  /** `b` is a later state of the same pass as `a`: invocations and ledger
      entries are only appended, cache entries are never overwritten, bindings
      are never removed, and every resource entered is a generator producer's. */
  ghost predicate Grows(env: PassEnv, a: PassState, b: PassState)
  {
    && a.log <= b.log
    && a.ledger <= b.ledger
    && CacheExtends(a.cache, b.cache)
    && a.paramData.Keys <= b.paramData.Keys
    && forall i :: |a.ledger| <= i < |b.ledger| ==>
         b.ledger[i].producer < |env.reg| && IsScoped(StrategyOf(env.revision, env.reg[b.ledger[i].producer].shape))
  }

  lemma GrowsTransitive(env: PassEnv, a: PassState, b: PassState, c: PassState)
    requires Grows(env, a, b) && Grows(env, b, c)
    ensures Grows(env, a, c)
  {
    forall i | |a.ledger| <= i < |c.ledger|
      ensures c.ledger[i].producer < |env.reg| && IsScoped(StrategyOf(env.revision, env.reg[c.ledger[i].producer].shape))
    {
      if i < |b.ledger| {
        assert c.ledger[i] == b.ledger[i];
      }
    }
  }

  /** The producer is invoked: no reusable cache entry and every binding it needs is present. */
  predicate Fresh(env: PassEnv, st: PassState, call0: ProducerId, dep: Depends)
    requires ValidEnv(env) && call0 < |env.reg|
  {
    !Hit(env, st, call0, dep) && ExtractParams(env.reg[Substitute(env, call0)].params, st.paramData).Ok?
  }

  /** One `__process_dependency` step.  A reusable cache entry is returned
      without invoking anything; otherwise the producer is invoked once, with
      the arguments the oracle sees, and a generator producer adds one ledger
      entry.  The binding table is untouched, and a cache key already present
      keeps its first value. */
  lemma ProcessCallFacts(env: PassEnv, st: PassState, call0: ProducerId, dep: Depends)
    requires ValidEnv(env) && call0 < |env.reg|
    ensures var s := ProcessCallSpec(env, st, call0, dep);
      var call := Substitute(env, call0);
      && s.st.paramData == st.paramData
      && (Hit(env, st, call0, dep) ==> s == CallStep(Returned(st.cache[Some(call)]), st))
      && (!Hit(env, st, call0, dep) && !Fresh(env, st, call0, dep) ==> s == CallStep(Raised(KeyError), st))
      && (Fresh(env, st, call0, dep) ==>
            var args := ValidKwargs(env.data + ExtractParams(env.reg[call].params, st.paramData).value, env.reg[call].params);
            && s.outcome == env.invoke(call, Invocations(st.log, call), args)
            && s.st.log == st.log + [Invocation(call, args)])
      && s.st.ledger == st.ledger +
           (if Fresh(env, st, call0, dep) && s.outcome.Returned? && IsScoped(StrategyOf(env.revision, env.reg[call].shape))
            then [Handle(call, Invocations(st.log, call))] else [])
      && CacheExtends(st.cache, s.st.cache)
      && (forall k :: k in s.st.cache && k !in st.cache ==>
            Fresh(env, st, call0, dep) && s.outcome.Returned? && k == CacheWriteKey(env, call0, dep) && s.st.cache[k] == s.outcome.value)
      && Grows(env, st, s.st)
  {
  }

  /** One `_process_dependency` step binds the result under the occurrence's
      key, replacing whatever was bound there, and leaves every other binding. */
  lemma DependencyFacts(env: PassEnv, st: PassState, o: Occurrence)
    requires ValidEnv(env) && o.Call() < |env.reg|
    ensures var r := DependencySpec(env, st, o);
      var s := ProcessCallSpec(env, st, o.Call(), o.dep);
      && (r.failure.None? <==> s.outcome.Returned?)
      && (r.failure.None? ==> r.st.paramData == st.paramData[o.Key() := s.outcome.value])
      && (r.failure.Some? ==> r.st.paramData == st.paramData && r.failure.value == s.outcome.error)
      && Grows(env, st, r.st)
  {
    ProcessCallFacts(env, st, o.Call(), o.dep);
  }

  predicate CallsRegistered(env: PassEnv, occs: seq<Occurrence>)
  {
    forall i :: 0 <= i < |occs| ==> occs[i].Call() < |env.reg|
  }

  /** A walk is its first occurrence, then, unless that raised, the rest. */
  lemma OccurrencesCons(env: PassEnv, st: PassState, occs: seq<Occurrence>)
    requires ValidEnv(env) && CallsRegistered(env, occs) && occs != []
    ensures CallsRegistered(env, occs[1..])
    ensures var r := DependencySpec(env, st, occs[0]);
      OccurrencesSpec(env, st, occs) == if r.failure.Some? then r else OccurrencesSpec(env, r.st, occs[1..])
  {
    assert forall i :: 0 <= i < |occs[1..]| ==> occs[1..][i] == occs[i + 1];
  }

  /** A pass only ever grows its state. */
  lemma {:induction false} OccurrencesGrow(env: PassEnv, st: PassState, occs: seq<Occurrence>)
    requires ValidEnv(env) && CallsRegistered(env, occs)
    ensures Grows(env, st, OccurrencesSpec(env, st, occs).st)
    decreases |occs|
  {
    if occs != [] {
      var r := DependencySpec(env, st, occs[0]);
      DependencyFacts(env, st, occs[0]);
      if r.failure.None? {
        OccurrencesGrow(env, r.st, occs[1..]);
        GrowsTransitive(env, st, r.st, OccurrencesSpec(env, r.st, occs[1..]).st);
      }
    }
  }

  /** Processing `a + b` is processing `a`, then, unless it raised, `b`. */
  lemma {:induction false} OccurrencesConcat(env: PassEnv, st: PassState, a: seq<Occurrence>, b: seq<Occurrence>)
    requires ValidEnv(env) && CallsRegistered(env, a) && CallsRegistered(env, b)
    ensures CallsRegistered(env, a + b)
    ensures var r := OccurrencesSpec(env, st, a);
      OccurrencesSpec(env, st, a + b) == if r.failure.Some? then r else OccurrencesSpec(env, r.st, b)
    decreases |a|
  {
    assert forall i :: 0 <= i < |a + b| ==> (a + b)[i] == if i < |a| then a[i] else b[i - |a|];
    if a == [] {
      assert a + b == b;
    } else {
      assert (a + b)[0] == a[0];
      assert (a + b)[1..] == a[1..] + b;
      var r := DependencySpec(env, st, a[0]);
      if r.failure.None? {
        OccurrencesConcat(env, r.st, a[1..], b);
      }
    }
  }

  /** A binding no later occurrence writes is kept to the end of the pass. */
  lemma {:induction false} BindingKept(env: PassEnv, st: PassState, occs: seq<Occurrence>, k: ParamKey)
    requires ValidEnv(env) && CallsRegistered(env, occs) && k in st.paramData
    requires forall i :: 0 <= i < |occs| ==> occs[i].Key() != k
    ensures k in OccurrencesSpec(env, st, occs).st.paramData
    ensures OccurrencesSpec(env, st, occs).st.paramData[k] == st.paramData[k]
    decreases |occs|
  {
    if occs != [] {
      OccurrencesCons(env, st, occs);
      DependencyFacts(env, st, occs[0]);
      var r := DependencySpec(env, st, occs[0]);
      if r.failure.None? {
        assert forall i :: 0 <= i < |occs[1..]| ==> occs[1..][i] == occs[i + 1];
        BindingKept(env, r.st, occs[1..], k);
      }
    }
  }

  /** A completed pass, cut at occurrence `j`: the part before it completed,
      `j`'s own step returned, and the rest continued from there. */
  lemma SplitAt(env: PassEnv, st: PassState, occs: seq<Occurrence>, j: nat)
    requires ValidEnv(env) && CallsRegistered(env, occs) && j < |occs|
    requires OccurrencesSpec(env, st, occs).failure.None?
    ensures CallsRegistered(env, occs[..j]) && CallsRegistered(env, occs[j + 1..])
    ensures var r := OccurrencesSpec(env, st, occs[..j]);
      var d := DependencySpec(env, r.st, occs[j]);
      && r.failure.None? && d.failure.None?
      && OccurrencesSpec(env, st, occs) == OccurrencesSpec(env, d.st, occs[j + 1..])
  {
    var head, tail := occs[..j], occs[j..];
    assert occs == head + tail;
    assert tail[0] == occs[j] && tail[1..] == occs[j + 1..];
    OccurrencesConcat(env, st, head, tail);
    var r := OccurrencesSpec(env, st, head);
    assert r.failure.None?;
    OccurrencesCons(env, r.st, tail);
  }

  /** Last writer wins: after a completed pass, the key of occurrence `j`,
      when no later occurrence writes it, holds the value `j`'s own step
      produced, whatever earlier occurrences bound there. */
  lemma LastWriterWins(env: PassEnv, st: PassState, occs: seq<Occurrence>, j: nat)
    requires ValidEnv(env) && CallsRegistered(env, occs) && j < |occs|
    requires OccurrencesSpec(env, st, occs).failure.None?
    requires forall i :: j < i < |occs| ==> occs[i].Key() != occs[j].Key()
    ensures var before := OccurrencesSpec(env, st, occs[..j]).st;
      var s := ProcessCallSpec(env, before, occs[j].Call(), occs[j].dep);
      var last := OccurrencesSpec(env, st, occs).st;
      && s.outcome.Returned?
      && occs[j].Key() in last.paramData
      && last.paramData[occs[j].Key()] == s.outcome.value
  {
    SplitAt(env, st, occs, j);
    var r := OccurrencesSpec(env, st, occs[..j]);
    DependencyFacts(env, r.st, occs[j]);
    var d := DependencySpec(env, r.st, occs[j]);
    var rest := occs[j + 1..];
    assert forall i :: 0 <= i < |rest| ==> rest[i] == occs[j + 1 + i];
    BindingKept(env, d.st, rest, occs[j].Key());
  }

  function Producers(log: seq<Invocation>): (r: seq<ProducerId>)
    ensures |r| == |log|
  {
    seq(|log|, i requires 0 <= i < |log| => log[i].producer)
  }

  /** The producers a walk runs, after the override step. */
  function CallsOf(env: PassEnv, occs: seq<Occurrence>): (r: seq<ProducerId>)
    ensures |r| == |occs|
  {
    seq(|occs|, i requires 0 <= i < |occs| => Substitute(env, occs[i].Call()))
  }

  /** A step that does not reuse the cache and returns has invoked its producer. */
  lemma MissLogsOne(env: PassEnv, st: PassState, call0: ProducerId, dep: Depends)
    requires ValidEnv(env) && call0 < |env.reg| && !Hit(env, st, call0, dep)
    requires ProcessCallSpec(env, st, call0, dep).outcome.Returned?
    ensures Producers(ProcessCallSpec(env, st, call0, dep).st.log) == Producers(st.log) + [Substitute(env, call0)]
  {
    var log := ProcessCallSpec(env, st, call0, dep).st.log;
    assert log[..|st.log|] == st.log && |log| == |st.log| + 1;
    assert log[|st.log|].producer == Substitute(env, call0);
    assert forall i :: 0 <= i < |st.log| ==> log[i] == st.log[i];
  }

  /** Splitting off the first occurrence of a walk. */
  lemma CallsOfCons(env: PassEnv, occs: seq<Occurrence>)
    requires occs != []
    ensures CallsOf(env, occs) == [Substitute(env, occs[0].Call())] + CallsOf(env, occs[1..])
  {
  }

  lemma AppendChain<T>(before: seq<T>, x: T, mid: seq<T>, rest: seq<T>, last: seq<T>)
    requires mid == before + [x] && last == mid + rest
    ensures last == before + ([x] + rest)
  {
  }

  /** An occurrence that misses the cache and returns adds its producer to the record. */
  lemma MissStep(env: PassEnv, st: PassState, o: Occurrence)
    requires ValidEnv(env) && o.Call() < |env.reg| && !Hit(env, st, o.Call(), o.dep)
    requires DependencySpec(env, st, o).failure.None?
    ensures Producers(DependencySpec(env, st, o).st.log) == Producers(st.log) + [Substitute(env, o.Call())]
  {
    MissLogsOne(env, st, o.Call(), o.dep);
    assert DependencySpec(env, st, o).st.log == ProcessCallSpec(env, st, o.Call(), o.dep).st.log;
  }

  /** With `use_cache=False` every occurrence invokes its producer once, in walk
      order: a completed pass appends exactly the walk's producers to the record. */
  lemma {:induction false} UncachedInvokesEach(env: PassEnv, st: PassState, occs: seq<Occurrence>)
    requires ValidEnv(env) && CallsRegistered(env, occs)
    requires forall i :: 0 <= i < |occs| ==> !occs[i].dep.useCache
    requires OccurrencesSpec(env, st, occs).failure.None?
    ensures Producers(OccurrencesSpec(env, st, occs).st.log) == Producers(st.log) + CallsOf(env, occs)
    decreases |occs|
  {
    if occs != [] {
      var r := DependencySpec(env, st, occs[0]);
      OccurrencesCons(env, st, occs);
      assert r.failure.None?;
      MissStep(env, st, occs[0]);
      assert forall i :: 0 <= i < |occs[1..]| ==> occs[1..][i] == occs[i + 1];
      UncachedInvokesEach(env, r.st, occs[1..]);
      CallsOfCons(env, occs);
      AppendChain(Producers(st.log), Substitute(env, occs[0].Call()), Producers(r.st.log),
                  CallsOf(env, occs[1..]), Producers(OccurrencesSpec(env, r.st, occs[1..]).st.log));
    }
  }

  /** An implicit descriptor in the current revision, from a cache holding no
      producer key, misses the cache and writes under `hash(None)` only. */
  lemma ImplicitStep(env: PassEnv, st: PassState, o: Occurrence)
    requires ValidEnv(env) && env.revision == Current && o.Call() < |env.reg| && o.dep.func.None?
    requires forall k :: k in st.cache ==> k.None?
    ensures !Hit(env, st, o.Call(), o.dep)
    ensures forall k :: k in DependencySpec(env, st, o).st.cache ==> k.None?
  {
    ProcessCallFacts(env, st, o.Call(), o.dep);
  }

  /** In `resolver.py` the cache is read under the producer called but
      written under the descriptor's explicit producer, so a descriptor
      without one writes under `hash(None)`, which no read uses.  A pass made
      only of such descriptors, from a cache holding no producer key, never
      reuses a value: every occurrence invokes its producer, whatever
      `use_cache` says. */
  lemma {:induction false} ImplicitDescriptorsNeverReuse(env: PassEnv, st: PassState, occs: seq<Occurrence>)
    requires ValidEnv(env) && env.revision == Current && CallsRegistered(env, occs)
    requires forall i :: 0 <= i < |occs| ==> occs[i].dep.func.None?
    requires forall k :: k in st.cache ==> k.None?
    requires OccurrencesSpec(env, st, occs).failure.None?
    ensures Producers(OccurrencesSpec(env, st, occs).st.log) == Producers(st.log) + CallsOf(env, occs)
    ensures forall k :: k in OccurrencesSpec(env, st, occs).st.cache ==> k.None?
    decreases |occs|
  {
    if occs != [] {
      var r := DependencySpec(env, st, occs[0]);
      OccurrencesCons(env, st, occs);
      assert r.failure.None?;
      ImplicitStep(env, st, occs[0]);
      assert forall i :: 0 <= i < |occs[1..]| ==> occs[1..][i] == occs[i + 1];
      MissStep(env, st, occs[0]);
      ImplicitDescriptorsNeverReuse(env, r.st, occs[1..]);
      CallsOfCons(env, occs);
      AppendChain(Producers(st.log), Substitute(env, occs[0].Call()), Producers(r.st.log),
                  CallsOf(env, occs[1..]), Producers(OccurrencesSpec(env, r.st, occs[1..]).st.log));
    }
  }

  /** The first truthy result of an explicit producer is reused: it is
      cached under the key the next read of the same producer uses (the
      producer after the override step), so a later `use_cache=True`
      occurrence of it in the same pass returns that value and invokes
      nothing.  In the earlier revision this holds for every producer. */
  lemma FirstResultReused(env: PassEnv, st: PassState, o: Occurrence, later: PassState, dep: Depends)
    requires ValidEnv(env) && o.Call() < |env.reg|
    requires env.revision == Legacy || o.dep.func.Some?
    requires Some(Substitute(env, o.Call())) !in st.cache
    requires var s := DependencySpec(env, st, o);
      && s.failure.None?
      && Truthy(ProcessCallSpec(env, st, o.Call(), o.dep).outcome.value)
      && Grows(env, s.st, later)
    requires dep.useCache
    ensures ProcessCallSpec(env, later, o.Call(), dep)
         == CallStep(Returned(ProcessCallSpec(env, st, o.Call(), o.dep).outcome.value), later)
  {
    ProcessCallFacts(env, st, o.Call(), o.dep);
    assert CacheWriteKey(env, o.Call(), o.dep) == Some(Substitute(env, o.Call()));
  }

  /** A cached value is reused: once a producer has returned a truthy value
      that was cached under its own identity, a later `use_cache=True`
      occurrence of it returns that value and invokes nothing. */
  lemma CachedValueReused(env: PassEnv, st: PassState, call0: ProducerId, dep: Depends)
    requires ValidEnv(env) && call0 < |env.reg| && dep.useCache
    requires Some(Substitute(env, call0)) in st.cache && Truthy(st.cache[Some(Substitute(env, call0))])
    ensures ProcessCallSpec(env, st, call0, dep) == CallStep(Returned(st.cache[Some(Substitute(env, call0))]), st)
  {
  }

  // ---------------------------------------------------------------------------
  // A pass over a well-formed graph never misses a binding

  /** No producer raises. */
  ghost predicate NeverRaises(env: PassEnv)
  {
    forall p, n, args :: env.invoke(p, n, args).Returned?
  }

  /** A substitute needs no binding that the producer it replaces does not
      need (for instance, a substitute without dependency parameters). */
  predicate SubstitutesNeedNoMore(env: PassEnv)
  {
    forall p :: p in env.overrides && p < |env.reg| && env.overrides[p] < |env.reg| ==>
      NeededKeys(env.reg[env.overrides[p]].params) <= NeededKeys(env.reg[p].params)
  }

  lemma SubstituteNeeds(env: PassEnv, c: ProducerId)
    requires ValidEnv(env) && SubstitutesNeedNoMore(env) && c < |env.reg|
    ensures Substitute(env, c) < |env.reg|
    ensures NeededKeys(env.reg[Substitute(env, c)].params) <= NeededKeys(env.reg[c].params)
  {
  }

  /** When the bindings a producer needs are present and no producer raises,
      its step returns. */
  lemma NeededBoundReturns(env: PassEnv, st: PassState, call0: ProducerId, dep: Depends)
    requires ValidEnv(env) && call0 < |env.reg| && NeverRaises(env)
    requires NeededKeys(env.reg[Substitute(env, call0)].params) <= st.paramData.Keys
    ensures ProcessCallSpec(env, st, call0, dep).outcome.Returned?
  {
  }

  /** A step that returns binds exactly one more key. */
  lemma ReturningStepBinds(env: PassEnv, st: PassState, o: Occurrence)
    requires ValidEnv(env) && o.Call() < |env.reg|
    requires ProcessCallSpec(env, st, o.Call(), o.dep).outcome.Returned?
    ensures DependencySpec(env, st, o).failure.None?
    ensures DependencySpec(env, st, o).st.paramData.Keys == st.paramData.Keys + {o.Key()}
  {
    ProcessCallFacts(env, st, o.Call(), o.dep);
  }

  lemma OccKeysShift(occs: seq<Occurrence>, i: nat)
    requires i < |occs|
    ensures OccKeys(occs[..i + 1]) == {occs[0].Key()} + OccKeys(occs[1..][..i])
  {
    assert occs[..i + 1] == [occs[0]] + occs[1..][..i];
    OccKeysConcat([occs[0]], occs[1..][..i]);
    assert OccKeys([occs[0]]) == {occs[0].Key()};
  }

  lemma OccKeysCons(occs: seq<Occurrence>)
    requires occs != []
    ensures OccKeys(occs) == {occs[0].Key()} + OccKeys(occs[1..])
  {
    OccKeysShift(occs, |occs| - 1);
    assert occs[..|occs|] == occs;
    assert occs[1..][..|occs| - 1] == occs[1..];
  }

  /** Once the first occurrence is bound, the rest of the pass still finds
      what it needs. */
  lemma TailNeedsBound(env: PassEnv, keys: set<ParamKey>, occs: seq<Occurrence>)
    requires ValidEnv(env) && CallsRegistered(env, occs) && occs != []
    requires forall i :: 0 <= i < |occs| ==>
      NeededKeys(env.reg[Substitute(env, occs[i].Call())].params) <= keys + OccKeys(occs[..i])
    ensures forall i :: 0 <= i < |occs[1..]| ==>
      NeededKeys(env.reg[Substitute(env, occs[1..][i].Call())].params) <= (keys + {occs[0].Key()}) + OccKeys(occs[1..][..i])
  {
    forall i | 0 <= i < |occs[1..]|
      ensures NeededKeys(env.reg[Substitute(env, occs[1..][i].Call())].params) <= (keys + {occs[0].Key()}) + OccKeys(occs[1..][..i])
    {
      OccKeysShift(occs, i + 1);
      assert occs[1..][i] == occs[i + 1];
    }
  }

  /** A pass in which each occurrence's needed bindings are already bound, or
      bound by an earlier occurrence, completes and binds every occurrence. */
  lemma {:induction false} OccurrencesComplete(env: PassEnv, st: PassState, occs: seq<Occurrence>)
    requires ValidEnv(env) && CallsRegistered(env, occs) && NeverRaises(env)
    requires forall i :: 0 <= i < |occs| ==>
      NeededKeys(env.reg[Substitute(env, occs[i].Call())].params) <= st.paramData.Keys + OccKeys(occs[..i])
    ensures OccurrencesSpec(env, st, occs).failure.None?
    ensures OccurrencesSpec(env, st, occs).st.paramData.Keys == st.paramData.Keys + OccKeys(occs)
    decreases |occs|
  {
    if occs == [] {
      assert OccKeys(occs) == {};
    } else {
      var o := occs[0];
      assert occs[..0] == [];
      assert OccKeys(occs[..0]) == {};
      NeededBoundReturns(env, st, o.Call(), o.dep);
      ReturningStepBinds(env, st, o);
      var r := DependencySpec(env, st, o);
      OccurrencesCons(env, st, occs);
      TailNeedsBound(env, st.paramData.Keys, occs);
      OccurrencesComplete(env, r.st, occs[1..]);
      OccKeysCons(occs);
    }
  }

  /** Running the walk of some annotations completes and binds every key those
      annotations need. */
  lemma WalkCompletes(env: PassEnv, st: PassState, entries: seq<Param>, bound: nat)
    requires ValidEnv(env) && NeverRaises(env) && SubstitutesNeedNoMore(env)
    requires bound <= |env.reg| && CallsBelow(entries, bound)
    ensures var w := GetDependencies(env.reg, entries, bound);
      CallsRegistered(env, w)
      && OccurrencesSpec(env, st, w).failure.None?
      && NeededKeys(entries) <= OccurrencesSpec(env, st, w).st.paramData.Keys
  {
    var w := GetDependencies(env.reg, entries, bound);
    forall i | 0 <= i < |w|
      ensures NeededKeys(env.reg[Substitute(env, w[i].Call())].params) <= st.paramData.Keys + OccKeys(w[..i])
    {
      SubDependencyKeysFirst(env.reg, entries, bound, i);
      SubstituteNeeds(env, w[i].Call());
    }
    OccurrencesComplete(env, st, w);
    WalkCoversEntries(env.reg, entries, bound);
  }

  /** Every global dependency with an explicit producer completes when no
      producer raises. */
  lemma {:induction false} GlobalsComplete(env: PassEnv, st: PassState, globals: seq<Depends>)
    requires ValidEnv(env) && NeverRaises(env) && SubstitutesNeedNoMore(env)
    requires GlobalsRegistered(env.reg, globals)
    requires forall i :: 0 <= i < |globals| ==> globals[i].func.Some?
    ensures GlobalsSpec(env, st, globals).failure.None?
    decreases |globals|
  {
    if globals != [] {
      var g := globals[0];
      var f := g.func.value;
      var w := GetDependencies(env.reg, env.reg[f].params, f);
      WalkCompletes(env, st, env.reg[f].params, f);
      var r := OccurrencesSpec(env, st, w);
      SubstituteNeeds(env, f);
      NeededBoundReturns(env, r.st, f, g);
      GlobalsComplete(env, GlobalSpec(env, st, g).st, globals[1..]);
    }
  }

  /** On a well-formed, acyclic graph, when no producer raises, every global
      dependency names its producer, `'event'` is in the data and substitutes
      need nothing new, a pass succeeds: the pre-order walk guarantees that
      every binding a producer or the handler reads is present, so no
      `KeyError` occurs. */
  lemma ResolveSucceeds(env: PassEnv, st: PassState, globals: seq<Depends>, handler: seq<Param>)
    requires ValidEnv(env) && NeverRaises(env) && SubstitutesNeedNoMore(env)
    requires GlobalsRegistered(env.reg, globals) && CallsBelow(handler, |env.reg|)
    requires forall i :: 0 <= i < |globals| ==> globals[i].func.Some?
    requires "event" in env.data
    ensures ResolveSpec(env, st, globals, handler).result.Ok?
  {
    GlobalsComplete(env, st, globals);
    WalkCompletes(env, GlobalsSpec(env, st, globals).st, handler, |env.reg|);
  }

  /** The result of a successful pass is the data without `'event'`, overlaid
      with one entry per dependency annotation of the handler, bound to the
      value recorded under (its producer, its name); these win over
      same-named data entries. */
  lemma ResolveMerge(env: PassEnv, st: PassState, globals: seq<Depends>, handler: seq<Param>)
    requires ValidEnv(env) && GlobalsRegistered(env.reg, globals) && CallsBelow(handler, |env.reg|)
    requires UniqueNames(handler)
    requires ResolveSpec(env, st, globals, handler).result.Ok?
    ensures var res := ResolveSpec(env, st, globals, handler);
      var m := res.result.value;
      && "event" in env.data
      && (forall k :: k in m <==> (k in env.data && k != "event") || k in DependencyNames(handler))
      && (forall i :: 0 <= i < |handler| && IsDependencyParam(handler[i]) ==>
            KeyOf(handler[i]) in res.st.paramData && m[handler[i].name] == res.st.paramData[KeyOf(handler[i])])
      && (forall k :: k in m && k !in DependencyNames(handler) ==> m[k] == env.data[k])
  {
  }

  /** The state a pass ends in: the globals' state when one of them raised,
      otherwise the state the handler's walk left, whatever the merge gives. */
  lemma ResolveState(env: PassEnv, st: PassState, globals: seq<Depends>, handler: seq<Param>)
    requires ValidEnv(env) && GlobalsRegistered(env.reg, globals) && CallsBelow(handler, |env.reg|)
    ensures var g := GlobalsSpec(env, st, globals);
      ResolveSpec(env, st, globals, handler).st
        == if g.failure.Some? then g.st else OccurrencesSpec(env, g.st, GetDependencies(env.reg, handler, |env.reg|)).st
  {
  }

  /** The globals are resolved before the handler's own dependencies: the
      invocation record after the globals is a prefix of the final one. */
  lemma GlobalsFirst(env: PassEnv, st: PassState, globals: seq<Depends>, handler: seq<Param>)
    requires ValidEnv(env) && GlobalsRegistered(env.reg, globals) && CallsBelow(handler, |env.reg|)
    ensures GlobalsSpec(env, st, globals).st.log <= ResolveSpec(env, st, globals, handler).st.log
  {
    var g := GlobalsSpec(env, st, globals);
    ResolveState(env, st, globals, handler);
    if g.failure.None? {
      OccurrencesGrow(env, g.st, GetDependencies(env.reg, handler, |env.reg|));
    }
  }

  /** A global dependency's own result is never bound: its step leaves the
      binding table as its sub-dependencies left it. */
  lemma GlobalResultUnbound(env: PassEnv, st: PassState, dep: Depends)
    requires ValidEnv(env) && dep.func.Some? && dep.func.value < |env.reg|
    ensures var f := dep.func.value;
      var r := OccurrencesSpec(env, st, GetDependencies(env.reg, env.reg[f].params, f));
      r.failure.None? ==> GlobalSpec(env, st, dep).st.paramData == r.st.paramData
  {
    var f := dep.func.value;
    var r := OccurrencesSpec(env, st, GetDependencies(env.reg, env.reg[f].params, f));
    if r.failure.None? {
      ProcessCallFacts(env, r.st, f, dep);
    }
  }

  lemma {:induction false} GlobalsGrow(env: PassEnv, st: PassState, globals: seq<Depends>)
    requires ValidEnv(env) && GlobalsRegistered(env.reg, globals)
    ensures Grows(env, st, GlobalsSpec(env, st, globals).st)
    decreases |globals|
  {
    if globals != [] {
      var g := globals[0];
      var r := GlobalSpec(env, st, g);
      if g.func.Some? {
        var f := g.func.value;
        var w := GetDependencies(env.reg, env.reg[f].params, f);
        OccurrencesGrow(env, st, w);
        var o := OccurrencesSpec(env, st, w);
        if o.failure.None? {
          ProcessCallFacts(env, o.st, f, g);
          GrowsTransitive(env, st, o.st, r.st);
        }
      }
      if r.failure.None? {
        GlobalsGrow(env, r.st, globals[1..]);
        GrowsTransitive(env, st, r.st, GlobalsSpec(env, r.st, globals[1..]).st);
      }
    }
  }

  /** First writer wins over a whole pass: no cache entry is ever overwritten,
      the ledger only receives generator producers, and nothing is removed. */
  lemma ResolveGrows(env: PassEnv, st: PassState, globals: seq<Depends>, handler: seq<Param>)
    requires ValidEnv(env) && GlobalsRegistered(env.reg, globals) && CallsBelow(handler, |env.reg|)
    ensures Grows(env, st, ResolveSpec(env, st, globals, handler).st)
  {
    GlobalsGrow(env, st, globals);
    var g := GlobalsSpec(env, st, globals);
    ResolveState(env, st, globals, handler);
    if g.failure.None? {
      var w := GetDependencies(env.reg, handler, |env.reg|);
      OccurrencesGrow(env, g.st, w);
      GrowsTransitive(env, st, g.st, OccurrencesSpec(env, g.st, w).st);
    }
  }
}
