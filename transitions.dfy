/** The inhibitor state machine as pure transitions over values.

    A `State` is the `inhibited` attribute together with the log of platform calls made
    so far. Each operation of the inhibitor classes is a function from the state before
    the call and the platform's reply to the state after it and to how the Python call
    ended (normally, or by propagating an exception the platform raised). The classes
    in `Inhibitors` and `Inhibitor` are proved to perform exactly these transitions. */
module Transitions {
  import opened Platform
  import opened Lease

  /** A bus proxy object, named by its bus name and object path. */
  datatype BusObject = BusObject(service: string, path: string)

  /** The backend of an inhibitor: the session-bus power-management proxy it was bound
      to, or the native power-request object it created. */
  datatype Backend = DBus(pm: BusObject) | Win7(request: int)

  datatype State = State(inhibited: Option<Handle>, log: seq<Event>) {
    /** The `Inhibited` property. */
    predicate Inhibited() {
      inhibited.Some?
    }
  }

  /** How a Python call ended: it returned, or it let an exception propagate. */
  datatype Outcome = Normal | Raised

  datatype Transition = Transition(after: State, outcome: Outcome)

  /** The state of a newly constructed inhibitor. */
  function Fresh(): State {
    State(None, [])
  }

  /** The call the backend makes to acquire a lease. */
  function AcquireCall(b: Backend): Call {
    match b
    case DBus(_) => BusInhibit(ApplicationName, InhibitReason)
    case Win7(request) => PowerSetRequest(request, SystemRequired.Ordinal())
  }

  /** The call the backend makes to release the lease `held`. */
  function ReleaseCall(b: Backend, held: Handle): Call {
    match b
    case DBus(_) => BusUnInhibit(held)
    case Win7(request) => PowerClearRequest(request, SystemRequired.Ordinal())
  }

  /** Whether `c` is a call that backend `b` makes. */
  predicate Issues(b: Backend, c: Call) {
    match b
    case DBus(_) => c == BusInhibit(ApplicationName, InhibitReason) || c.BusUnInhibit?
    case Win7(request) =>
      c == PowerSetRequest(request, SystemRequired.Ordinal()) ||
      c == PowerClearRequest(request, SystemRequired.Ordinal())
  }

  /** Whether the platform granted what was asked of it: a bus call that returned, or a
      native call that returned non-zero. */
  predicate Accepts(b: Backend, r: Reply) {
    r.Returns? && (b.Win7? ==> NativeSucceeded(r.value))
  }

  /** The invariant the inhibitor keeps: `inhibited` is the lease the platform's answers
      say is held, the calls were made in a disciplined order, and they are all calls
      of this inhibitor's own backend. */
  predicate Consistent(b: Backend, s: State) {
    s.inhibited == Holding(s.log) &&
    Disciplined(s.log) &&
    forall i :: 0 <= i < |s.log| ==> Issues(b, s.log[i].call)
  }

  /** `DBusInhibitor.Inhibit`: unless inhibited, ask the bus for a lease and store the
      cookie it returns. If the remote call raises, nothing is stored and the
      exception propagates. */
  function DBusInhibit(s: State, reply: Reply): Transition {
    if s.Inhibited() then Transition(s, Normal)
    else
      var logged := s.(log := s.log + [Event(BusInhibit(ApplicationName, InhibitReason), reply)]);
      match reply
      case Returns(cookie) => Transition(logged.(inhibited := Some(Cookie(cookie))), Normal)
      case Throws => Transition(logged, Raised)
  }

  /** `DBusInhibitor.UnInhibit`: if inhibited, hand the stored cookie back to the bus,
      then forget it. If the remote call raises, the cookie stays and the exception
      propagates. */
  function DBusUnInhibit(s: State, reply: Reply): Transition {
    if !s.Inhibited() then Transition(s, Normal)
    else
      var logged := s.(log := s.log + [Event(BusUnInhibit(s.inhibited.value), reply)]);
      match reply
      case Returns(_) => Transition(logged.(inhibited := None), Normal)
      case Throws => Transition(logged, Raised)
  }

  /** `Win7Inhibitor.Inhibit`: unless inhibited, set the system-required flag on the
      power request; a non-zero result stores `True`, a zero result stores nothing
      (the code prints a message and returns normally). */
  function Win7Inhibit(request: int, s: State, reply: Reply): Transition {
    if s.Inhibited() then Transition(s, Normal)
    else
      var logged := s.(log := s.log + [Event(PowerSetRequest(request, SystemRequired.Ordinal()), reply)]);
      match reply
      case Returns(result) =>
        if NativeSucceeded(result) then Transition(logged.(inhibited := Some(Flag)), Normal)
        else Transition(logged, Normal)
      case Throws => Transition(logged, Raised)
  }

  /** `Win7Inhibitor.UnInhibit`: if inhibited, clear the system-required flag; a non-zero
      result clears `inhibited`, a zero result leaves it (the code prints a message). */
  function Win7UnInhibit(request: int, s: State, reply: Reply): Transition {
    if !s.Inhibited() then Transition(s, Normal)
    else
      var logged := s.(log := s.log + [Event(PowerClearRequest(request, SystemRequired.Ordinal()), reply)]);
      match reply
      case Returns(result) =>
        if NativeSucceeded(result) then Transition(logged.(inhibited := None), Normal)
        else Transition(logged, Normal)
      case Throws => Transition(logged, Raised)
  }

  /** `Inhibit`, dispatched to the backend. */
  function Inhibit(b: Backend, s: State, reply: Reply): Transition {
    match b
    case DBus(_) => DBusInhibit(s, reply)
    case Win7(request) => Win7Inhibit(request, s, reply)
  }

  /** `UnInhibit`, dispatched to the backend. */
  function UnInhibit(b: Backend, s: State, reply: Reply): Transition {
    match b
    case DBus(_) => DBusUnInhibit(s, reply)
    case Win7(request) => Win7UnInhibit(request, s, reply)
  }

  /** `Toggle`: `Inhibit` when not inhibited, `UnInhibit` otherwise. */
  function Toggle(b: Backend, s: State, reply: Reply): Transition {
    if !s.Inhibited() then Inhibit(b, s, reply) else UnInhibit(b, s, reply)
  }

  // ---------------------------------------------------------------------------
  // One call at a time

  /** Inhibiting an inhibited machine makes no platform call and changes nothing. */
  lemma InhibitWhenInhibited(b: Backend, s: State, reply: Reply)
    requires s.Inhibited()
    ensures Inhibit(b, s, reply) == Transition(s, Normal)
  {
  }

  /** Releasing a machine that is not inhibited makes no platform call and changes nothing;
      this is also why teardown of such a machine touches no platform. */
  lemma UnInhibitWhenIdle(b: Backend, s: State, reply: Reply)
    requires !s.Inhibited()
    ensures UnInhibit(b, s, reply) == Transition(s, Normal)
  {
  }

  /** Inhibiting a machine that is not inhibited makes exactly one acquire call. If the
      platform grants it, the machine is inhibited, holding the cookie the bus returned
      or `True`; otherwise it is left not inhibited. An exception from the platform
      propagates, and it is the only way the call fails visibly. */
  lemma InhibitWhenIdle(b: Backend, s: State, reply: Reply)
    requires !s.Inhibited()
    ensures Inhibit(b, s, reply).after.log == s.log + [Event(AcquireCall(b), reply)]
    ensures Inhibit(b, s, reply).after.Inhibited() <==> Accepts(b, reply)
    ensures Accepts(b, reply) ==>
              Inhibit(b, s, reply).after.inhibited == Some(if b.DBus? then Cookie(reply.value) else Flag)
    ensures Inhibit(b, s, reply).outcome == Raised <==> reply.Throws?
  {
  }

  /** Releasing an inhibited machine makes exactly one release call, with the handle it
      holds. If the platform grants it, the machine is no longer inhibited; otherwise it
      keeps the handle it had. */
  lemma UnInhibitWhenInhibited(b: Backend, s: State, reply: Reply)
    requires s.Inhibited()
    ensures UnInhibit(b, s, reply).after.log == s.log + [Event(ReleaseCall(b, s.inhibited.value), reply)]
    ensures Accepts(b, reply) ==> UnInhibit(b, s, reply).after.inhibited == None
    ensures !Accepts(b, reply) ==> UnInhibit(b, s, reply).after.inhibited == s.inhibited
    ensures UnInhibit(b, s, reply).outcome == Raised <==> reply.Throws?
  {
  }

  /** A platform call that is not granted leaves the machine as it was, apart from the log. */
  lemma FailureLeavesStateUnchanged(b: Backend, s: State, reply: Reply)
    requires !Accepts(b, reply)
    ensures Inhibit(b, s, reply).after.inhibited == s.inhibited
    ensures UnInhibit(b, s, reply).after.inhibited == s.inhibited
  {
  }

  /** Both operations are idempotent: once an `Inhibit` has left the machine inhibited, a
      second one makes no call; once an `UnInhibit` has left it not inhibited, a second
      one makes no call. */
  lemma Idempotent(b: Backend, s: State, first: Reply, second: Reply)
    ensures Inhibit(b, s, first).after.Inhibited() ==>
              Inhibit(b, Inhibit(b, s, first).after, second) == Transition(Inhibit(b, s, first).after, Normal)
    ensures !UnInhibit(b, s, first).after.Inhibited() ==>
              UnInhibit(b, UnInhibit(b, s, first).after, second) == Transition(UnInhibit(b, s, first).after, Normal)
  {
  }

  /** `Toggle` always makes exactly one platform call, never both: an acquire exactly
      when the machine was not inhibited. */
  lemma ToggleMakesOneCall(b: Backend, s: State, reply: Reply)
    ensures |Toggle(b, s, reply).after.log| == |s.log| + 1
    ensures Toggle(b, s, reply).after.log[..|s.log|] == s.log
    ensures Toggle(b, s, reply).after.log[|s.log|].call.IsAcquire() <==> !s.Inhibited()
    ensures Toggle(b, s, reply).after.log[|s.log|].reply == reply
  {
  }

  /** Two toggles that the platform both grants bring the machine back to whether it
      was inhibited before. */
  lemma ToggleTwice(b: Backend, s: State, first: Reply, second: Reply)
    requires Accepts(b, first) && Accepts(b, second)
    ensures Toggle(b, Toggle(b, s, first).after, second).after.Inhibited() == s.Inhibited()
  {
  }

  /** The bus backend returns the handle it was given: after `Inhibit(); UnInhibit()`
      on a machine that is not inhibited, the log shows one acquire and one release,
      and the release hands back exactly the cookie the acquire returned. */
  lemma DBusRoundTrip(pm: BusObject, s: State, cookie: int, reply: Reply)
    requires !s.Inhibited()
    ensures var after := UnInhibit(DBus(pm), Inhibit(DBus(pm), s, Returns(cookie)).after, reply).after;
            after.log == s.log + [Event(BusInhibit(ApplicationName, InhibitReason), Returns(cookie)),
                                  Event(BusUnInhibit(Cookie(cookie)), reply)] &&
            (reply.Returns? ==> after.inhibited == s.inhibited)
  {
  }

  // ---------------------------------------------------------------------------
  // The invariant

  /** A newly constructed machine is not inhibited, and is consistent with its empty log. */
  lemma FreshIsConsistent(b: Backend)
    ensures Consistent(b, Fresh()) && !Fresh().Inhibited()
  {
  }

  /** `Inhibit` keeps the invariant. */
  lemma InhibitConsistent(b: Backend, s: State, reply: Reply)
    requires Consistent(b, s)
    ensures Consistent(b, Inhibit(b, s, reply).after)
  {
  }

  /** `UnInhibit` keeps the invariant; in particular a bus release is always made with
      the cookie the platform handed out last. */
  lemma UnInhibitConsistent(b: Backend, s: State, reply: Reply)
    requires Consistent(b, s)
    ensures Consistent(b, UnInhibit(b, s, reply).after)
  {
  }

  /** The native backend only ever asks for the system-required flag, on its own
      power-request object. */
  lemma OnlySystemRequired(request: int, s: State)
    requires Consistent(Win7(request), s)
    ensures forall i :: 0 <= i < |s.log| ==>
              s.log[i].call.PowerSetRequest? || s.log[i].call.PowerClearRequest?
    ensures forall i :: 0 <= i < |s.log| ==>
              s.log[i].call.request == request &&
              FromOrdinal(s.log[i].call.requestType) == Some(SystemRequired)
  {
  }

  /** What the machine holds while inhibited depends on its backend alone: a cookie
      for the bus backend, and `True` for the native one. */
  lemma HeldHandleKind(b: Backend, s: State)
    requires Consistent(b, s) && s.Inhibited()
    ensures b.DBus? ==> s.inhibited.value.Cookie?
    ensures b.Win7? ==> s.inhibited.value == Flag
  {
    HoldingIsLastAcquire(s.log, s.inhibited.value);
    var j :| LastAcquireAt(s.log, j, s.inhibited.value);
    assert Issues(b, s.log[j].call);
  }

  // ---------------------------------------------------------------------------
  // Whole runs

  /** What a caller (the tray icon, a `with` block) asks of the inhibitor, and what the
      platform answers to the call that operation makes, if it makes one. */
  datatype Op = DoInhibit | DoUnInhibit | DoToggle
  datatype Command = Command(op: Op, reply: Reply)

  function Apply(b: Backend, s: State, c: Command): Transition {
    match c.op
    case DoInhibit => Inhibit(b, s, c.reply)
    case DoUnInhibit => UnInhibit(b, s, c.reply)
    case DoToggle => Toggle(b, s, c.reply)
  }

  /** The state after the commands, in order; an exception from one command does not
      stop the caller from issuing the next. */
  function Run(b: Backend, s: State, cmds: seq<Command>): State
    decreases |cmds|
  {
    if cmds == [] then s else Run(b, Apply(b, s, cmds[0]).after, cmds[1..])
  }

  /** Every command keeps the invariant, so every run does. */
  lemma {:induction false} RunConsistent(b: Backend, s: State, cmds: seq<Command>)
    requires Consistent(b, s)
    ensures Consistent(b, Run(b, s, cmds))
    decreases |cmds|
  {
    if cmds != [] {
      var c := cmds[0];
      InhibitConsistent(b, s, c.reply);
      UnInhibitConsistent(b, s, c.reply);
      RunConsistent(b, Apply(b, s, c).after, cmds[1..]);
    }
  }

  /** For every sequence of calls on a new inhibitor, `Inhibited` is true exactly when
      one successful acquire is left unmatched by a successful release, and at no point
      are two leases held. */
  lemma RunFromFresh(b: Backend, cmds: seq<Command>)
    ensures var s := Run(b, Fresh(), cmds);
            Consistent(b, s) &&
            (s.Inhibited() <==> Acquires(s.log) == Releases(s.log) + 1) &&
            (!s.Inhibited() <==> Acquires(s.log) == Releases(s.log))
  {
    FreshIsConsistent(b);
    RunConsistent(b, Fresh(), cmds);
    Balanced(Run(b, Fresh(), cmds).log);
  }

  /** The `with` form: entering inhibits; if entering returned normally the governed
      block runs (any commands on the inhibitor, `body`; a block that stops early,
      by an exception or otherwise, ran a prefix of them) and leaving calls `UnInhibit`.
      Whatever the block did, the invariant holds after leaving, leaving makes exactly
      one release call (with the handle then held) when a lease is held at the end of
      the block and none otherwise, and a granted release leaves the machine not
      inhibited. */
  lemma ScopedAcquisition(b: Backend, s: State, enter: Reply, body: seq<Command>, exit: Reply)
    requires Consistent(b, s)
    ensures var entered := Inhibit(b, s, enter);
            var inside := Run(b, entered.after, body);
            var left := UnInhibit(b, inside, exit);
            entered.outcome == Normal ==>
              Consistent(b, left.after) &&
              (inside.Inhibited() ==>
                 left.after.log == inside.log + [Event(ReleaseCall(b, inside.inhibited.value), exit)]) &&
              (!inside.Inhibited() ==> left == Transition(inside, Normal)) &&
              (Accepts(b, exit) ==> !left.after.Inhibited())
  {
    InhibitConsistent(b, s, enter);
    RunConsistent(b, Inhibit(b, s, enter).after, body);
    UnInhibitConsistent(b, Run(b, Inhibit(b, s, enter).after, body), exit);
  }
}
