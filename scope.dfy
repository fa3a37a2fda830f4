/** The resource scope of one pass: an exit stack that records the scoped
    resources entered, in order, and releases them newest first. */
module Scope {
  import opened Base

  /** A scoped resource: the `nth` invocation (from 0) of a generator producer. */
  datatype Handle = Handle(producer: ProducerId, nth: nat)

  /** One call of a release step, with the exception it was handed. */
  datatype Release = Release(handle: Handle, exc: Option<Exc>)

  /** How each resource's release step answers the exception it is handed. */
  type ExitFn = (Handle, Option<Exc>) -> ExitReply

  /** The release calls made and the exception left pending afterwards. */
  datatype Unwound = Unwound(calls: seq<Release>, pending: Option<Exc>)

  /** The exception after one release step: a truthy reply clears it, a raise
      replaces it, a falsy reply keeps it. */
  function AfterRelease(reply: ExitReply, exc: Option<Exc>): Option<Exc>
  {
    match reply
    case ExitReturned(truthy) => if truthy then None else exc
    case ExitRaised(e) => Some(e)
  }

  /** Closing the stack with `exc` propagating: the newest entry is released
      first, each step sees the exception left by the one before. */
  function Unwind(entries: seq<Handle>, exc: Option<Exc>, exit: ExitFn): (u: Unwound)
    ensures |u.calls| == |entries|
    decreases |entries|
  {
    if entries == [] then Unwound([], exc)
    else
      var h := entries[|entries| - 1];
      var rest := Unwind(entries[..|entries| - 1], AfterRelease(exit(h, exc), exc), exit);
      Unwound([Release(h, exc)] + rest.calls, rest.pending)
  }

  function Reversed<T>(s: seq<T>): (r: seq<T>)
    ensures |r| == |s|
  {
    seq(|s|, i requires 0 <= i < |s| => s[|s| - 1 - i])
  }

  function Handles(calls: seq<Release>): (r: seq<Handle>)
    ensures |r| == |calls|
  {
    seq(|calls|, i requires 0 <= i < |calls| => calls[i].handle)
  }

  /** Every entered resource is released exactly once, newest first. */
  lemma {:induction false} ReleasedInReverse(entries: seq<Handle>, exc: Option<Exc>, exit: ExitFn)
    ensures Handles(Unwind(entries, exc, exit).calls) == Reversed(entries)
    decreases |entries|
  {
    if entries != [] {
      var n := |entries|;
      var h := entries[n - 1];
      var init := entries[..n - 1];
      var next := AfterRelease(exit(h, exc), exc);
      ReleasedInReverse(init, next, exit);
      var calls := Unwind(entries, exc, exit).calls;
      assert calls == [Release(h, exc)] + Unwind(init, next, exit).calls;
      forall i | 0 <= i < n ensures Handles(calls)[i] == Reversed(entries)[i] {
        if i > 0 {
          assert calls[i] == Unwind(init, next, exit).calls[i - 1];
          assert Reversed(init)[i - 1] == init[n - 1 - i];
        }
      }
    }
  }

  /** When no release step answers truthy or raises, each is handed the
      incoming exception and that exception is what propagates. */
  lemma {:induction false} UnhandledPropagates(entries: seq<Handle>, exc: Option<Exc>, exit: ExitFn)
    requires forall h, x :: exit(h, x) == ExitReturned(false)
    ensures Unwind(entries, exc, exit).pending == exc
    ensures forall i :: 0 <= i < |entries| ==> Unwind(entries, exc, exit).calls[i].exc == exc
    decreases |entries|
  {
    if entries != [] {
      UnhandledPropagates(entries[..|entries| - 1], exc, exit);
    }
  }

  /** When no release step raises, a resource whose release step answers
      truthy suppresses the propagating exception. */
  lemma {:induction false} HandledIsSuppressed(entries: seq<Handle>, exc: Option<Exc>, exit: ExitFn, k: nat)
    requires forall h, x :: exit(h, x).ExitReturned?
    requires k < |entries| && forall x :: exit(entries[k], x) == ExitReturned(true)
    ensures Unwind(entries, exc, exit).pending == None
    decreases |entries|
  {
    var n := |entries|;
    var next := AfterRelease(exit(entries[n - 1], exc), exc);
    if k == n - 1 {
      NoRaiseKeepsNone(entries[..n - 1], exit);
    } else {
      HandledIsSuppressed(entries[..n - 1], next, exit, k);
    }
  }

  /** When no release step raises and nothing propagates, nothing is raised. */
  lemma {:induction false} NoRaiseKeepsNone(entries: seq<Handle>, exit: ExitFn)
    requires forall h, x :: exit(h, x).ExitReturned?
    ensures Unwind(entries, None, exit).pending == None
    decreases |entries|
  {
    if entries != [] {
      NoRaiseKeepsNone(entries[..|entries| - 1], exit);
    }
  }

  /** `contextlib.AsyncExitStack`, reduced to its ledger. */
  class ExitStack {
    /** Entered resources, oldest first. */
    var entries: seq<Handle>
    /** Release calls made so far, in the order they were made. */
    var released: seq<Release>

    constructor ()
      ensures entries == [] && released == []
    {
      entries := [];
      released := [];
    }

    /** `enter_async_context`, once entering has succeeded: the release step is pushed. */
    method Enter(h: Handle)
      modifies this
      ensures entries == old(entries) + [h] && released == old(released)
    {
      entries := entries + [h];
    }

    /** `__aexit__`: releases every entry newest first, threading the
        propagating exception through the release steps, and returns the
        exception left pending (`None`: the scope ends normally). */
    method Close(exc: Option<Exc>, exit: ExitFn) returns (pending: Option<Exc>)
      modifies this
      ensures entries == []
      ensures released == old(released) + Unwind(old(entries), exc, exit).calls
      ensures pending == Unwind(old(entries), exc, exit).pending
    {
      var current := exc;
      ghost var done: seq<Release> := [];
      while entries != []
        invariant released == old(released) + done
        invariant Unwind(old(entries), exc, exit) ==
          Unwound(done + Unwind(entries, current, exit).calls, Unwind(entries, current, exit).pending)
        decreases |entries|
      {
        var h := entries[|entries| - 1];
        var reply := exit(h, current);
        ghost var rest := Unwind(entries[..|entries| - 1], AfterRelease(reply, current), exit);
        assert Unwind(entries, current, exit) == Unwound([Release(h, current)] + rest.calls, rest.pending);
        assert done + ([Release(h, current)] + rest.calls) == (done + [Release(h, current)]) + rest.calls;
        released := released + [Release(h, current)];
        done := done + [Release(h, current)];
        entries := entries[..|entries| - 1];
        current := AfterRelease(reply, current);
      }
      pending := current;
    }
  }
}
