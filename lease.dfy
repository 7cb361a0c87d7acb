/** The meaning of a call log: which stay-awake lease the platform has granted and
    not yet taken back, and whether the calls were made in a disciplined order
    (no second acquire while a lease is held, every release hands back the held handle).

    This is the reference against which the inhibitors' `inhibited` field is proved:
    it is computed from the platform's answers alone, not from the Python code. */
module Lease {
  import opened Platform

  /** What one event did to the lease. */
  datatype Effect = Acquired(handle: Handle) | Released | NoEffect

  /** A bus call that returns (whatever it returns) has done its work; a bus call that
      raises has not. A native call has done its work exactly when it returns non-zero. */
  function EffectOf(e: Event): (f: Effect)
    ensures f.Acquired? ==> e.call.IsAcquire() && e.reply.Returns?
    ensures f.Released? ==> !e.call.IsAcquire() && e.reply.Returns?
    ensures e.reply.Throws? ==> f.NoEffect?
    ensures e.call.BusInhibit? && e.reply.Returns? ==> f == Acquired(Cookie(e.reply.value))
  {
    match e.call
    case BusInhibit(_, _) =>
      if e.reply.Returns? then Acquired(Cookie(e.reply.value)) else NoEffect
    case BusUnInhibit(_) =>
      if e.reply.Returns? then Released else NoEffect
    case PowerSetRequest(_, _) =>
      if e.reply.Returns? && NativeSucceeded(e.reply.value) then Acquired(Flag) else NoEffect
    case PowerClearRequest(_, _) =>
      if e.reply.Returns? && NativeSucceeded(e.reply.value) then Released else NoEffect
  }

  /** The lease held after the calls of `log`: the handle of the last successful
      acquire, unless a successful release came after it. */
  function Holding(log: seq<Event>): Option<Handle>
    decreases |log|
  {
    if log == [] then None
    else
      match EffectOf(log[|log| - 1])
      case Acquired(h) => Some(h)
      case Released => None
      case NoEffect => Holding(log[..|log| - 1])
  }

  /** Whether `c` may be issued while `held` is the lease: acquire only when nothing is
      held, release only while something is held, and a bus release with exactly the
      cookie that is held. */
  predicate Permitted(held: Option<Handle>, c: Call) {
    match c
    case BusInhibit(_, _) => held.None?
    case PowerSetRequest(_, _) => held.None?
    case BusUnInhibit(h) => held == Some(h)
    case PowerClearRequest(_, _) => held.Some?
  }

  /** Every call of the log was permitted by the lease held just before it. */
  predicate Disciplined(log: seq<Event>)
    decreases |log|
  {
    log == [] ||
    (Disciplined(log[..|log| - 1]) && Permitted(Holding(log[..|log| - 1]), log[|log| - 1].call))
  }

  /** The number of successful acquires in the log. */
  function Acquires(log: seq<Event>): nat
    decreases |log|
  {
    if log == [] then 0
    else Acquires(log[..|log| - 1]) + (if EffectOf(log[|log| - 1]).Acquired? then 1 else 0)
  }

  /** The number of successful releases in the log. */
  function Releases(log: seq<Event>): nat
    decreases |log|
  {
    if log == [] then 0
    else Releases(log[..|log| - 1]) + (if EffectOf(log[|log| - 1]).Released? then 1 else 0)
  }

  /** In a disciplined log, successful acquires and releases alternate: there is one
      more acquire than release exactly while a lease is held, and as many otherwise. */
  lemma {:induction false} Balanced(log: seq<Event>)
    requires Disciplined(log)
    ensures Acquires(log) == Releases(log) + (if Holding(log).Some? then 1 else 0)
  {
    if log != [] {
      Balanced(log[..|log| - 1]);
    }
  }

  /** Every prefix of a disciplined log is disciplined. */
  lemma {:induction false} PrefixDisciplined(log: seq<Event>, k: nat)
    requires Disciplined(log) && k <= |log|
    ensures Disciplined(log[..k])
  {
    if k < |log| {
      var init := log[..|log| - 1];
      PrefixDisciplined(init, k);
      assert init[..k] == log[..k];
    } else {
      assert log[..k] == log;
    }
  }

  /** At no point of a disciplined log are two leases held at once. */
  lemma NeverTwoLeases(log: seq<Event>)
    requires Disciplined(log)
    ensures forall k :: 0 <= k <= |log| ==>
              Releases(log[..k]) <= Acquires(log[..k]) <= Releases(log[..k]) + 1
  {
    forall k | 0 <= k <= |log|
      ensures Releases(log[..k]) <= Acquires(log[..k]) <= Releases(log[..k]) + 1
    {
      PrefixDisciplined(log, k);
      Balanced(log[..k]);
    }
  }

  /** Event `j` acquired `h`, and no later event acquired or released anything. */
  predicate LastAcquireAt(log: seq<Event>, j: int, h: Handle) {
    0 <= j < |log| && EffectOf(log[j]) == Acquired(h) &&
    forall k :: j < k < |log| ==> EffectOf(log[k]).NoEffect?
  }

  /** `Holding` says what the informal invariant says: a handle is held exactly when
      the most recent successful acquire returned it and no release has succeeded since. */
  lemma {:induction false} HoldingIsLastAcquire(log: seq<Event>, h: Handle)
    ensures Holding(log) == Some(h) <==> exists j :: LastAcquireAt(log, j, h)
  {
    if log != [] {
      var n := |log| - 1;
      var init := log[..n];
      HoldingIsLastAcquire(init, h);
      match EffectOf(log[n])
      case Acquired(g) =>
        if g == h {
          assert LastAcquireAt(log, n, h);
        } else {
          assert !EffectOf(log[n]).NoEffect?;
        }
      case Released =>
        assert !EffectOf(log[n]).NoEffect?;
      case NoEffect =>
        forall j | LastAcquireAt(log, j, h) ensures LastAcquireAt(init, j, h) {
          assert j != n;
          assert init[j] == log[j];
          forall k | j < k < n ensures EffectOf(init[k]).NoEffect? {
            assert init[k] == log[k];
          }
        }
        forall j | LastAcquireAt(init, j, h) ensures LastAcquireAt(log, j, h) {
          assert init[j] == log[j];
          forall k | j < k < |log| ensures EffectOf(log[k]).NoEffect? {
            if k < n {
              assert init[k] == log[k];
            }
          }
        }
    }
  }
}
