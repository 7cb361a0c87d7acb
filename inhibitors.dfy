/** The sleep inhibitor of inhibitors.py: a `SleepInhibitor` whose one piece of state is
    the `inhibited` attribute, with a session-bus backend and a native power-request
    backend.

    Python's base class with two subclasses becomes one class tagged with its backend;
    what the subclasses override (`Inhibit`, `UnInhibit`) dispatches on the tag. Every
    platform call is an oracle: the operation that may make it takes the platform's
    `reply` as a parameter and records the call in the ghost `log`. */
module Inhibitors {
  import opened Platform
  import opened Lease
  import Transitions

  /** The three arguments Python passes to `__exit__`: the type, value and traceback
      of the exception leaving the `with` block, or `None` for each if there is none. */
  datatype ExceptionInfo = ExceptionInfo(excType: Option<string>, value: Option<string>, traceback: Option<string>)

  class SleepInhibitor {
    const backend: Transitions.Backend
    var inhibited: Option<Handle>
    ghost var log: seq<Event>

    /** The state of the machine, as the pure transitions see it. */
    ghost function Current(): Transitions.State
      reads this
    {
      Transitions.State(inhibited, log)
    }

    /** `inhibited` is what the platform's answers say is held, and the log is disciplined. */
    ghost predicate Valid()
      reads this
    {
      Transitions.Consistent(backend, Current())
    }

    /** `DBusInhibitor()`: binds to the power-management object on the session bus and
        starts not inhibited. */
    constructor DBusInhibitor()
      ensures backend == Transitions.DBus(Transitions.BusObject(PowerManagementService, InhibitObjectPath))
      ensures inhibited == None && log == []
      ensures Valid() && !Inhibited()
    {
      backend := Transitions.DBus(Transitions.BusObject(PowerManagementService, InhibitObjectPath));
      inhibited := None;
      log := [];
    }

    /** `Win7Inhibitor()`: `request` is the power-request object `PowerCreateRequest`
        returned; the machine starts not inhibited. */
    constructor Win7Inhibitor(request: int)
      ensures backend == Transitions.Win7(request)
      ensures inhibited == None && log == []
      ensures Valid() && !Inhibited()
    {
      backend := Transitions.Win7(request);
      inhibited := None;
      log := [];
    }

    /** The `Inhibited` property: a query with no effect, true exactly when `inhibited`
        is not `None`, which is exactly when the platform holds a lease for this machine. */
    function Inhibited(): (r: bool)
      reads this
      ensures r <==> inhibited != None
      ensures Valid() ==> (r <==> Holding(log).Some?)
    {
      inhibited.Some?
    }

    /** `DBusInhibitor.Inhibit`. */
    method DBusInhibit(reply: Reply) returns (outcome: Transitions.Outcome)
      requires Valid() && backend.DBus?
      modifies this
      ensures Valid()
      ensures Transitions.Transition(Current(), outcome) == Transitions.DBusInhibit(old(Current()), reply)
    {
      outcome := Transitions.Normal;
      if !Inhibited() {
        // the remote Inhibit call, with the application name and the reason
        log := log + [Event(BusInhibit(ApplicationName, InhibitReason), reply)];
        match reply
        case Returns(cookie) =>
          inhibited := Some(Cookie(cookie));
        case Throws =>
          outcome := Transitions.Raised;
      }
      Transitions.InhibitConsistent(backend, old(Current()), reply);
    }

    /** `DBusInhibitor.UnInhibit`. */
    method DBusUnInhibit(reply: Reply) returns (outcome: Transitions.Outcome)
      requires Valid() && backend.DBus?
      modifies this
      ensures Valid()
      ensures Transitions.Transition(Current(), outcome) == Transitions.DBusUnInhibit(old(Current()), reply)
    {
      outcome := Transitions.Normal;
      if Inhibited() {
        // the remote UnInhibit call, handing back the stored cookie
        log := log + [Event(BusUnInhibit(inhibited.value), reply)];
        match reply
        case Returns(_) =>
          inhibited := None;
        case Throws =>
          outcome := Transitions.Raised;
      }
      Transitions.UnInhibitConsistent(backend, old(Current()), reply);
    }

    /** `Win7Inhibitor.Inhibit`. */
    method Win7Inhibit(reply: Reply) returns (outcome: Transitions.Outcome)
      requires Valid() && backend.Win7?
      modifies this
      ensures Valid()
      ensures Transitions.Transition(Current(), outcome) == Transitions.Win7Inhibit(backend.request, old(Current()), reply)
    {
      outcome := Transitions.Normal;
      if !Inhibited() {
        // set the system-required flag on this machine's power request
        log := log + [Event(PowerSetRequest(backend.request, SystemRequired.Ordinal()), reply)];
        match reply
        case Returns(result) =>
          // zero means failure; the code then only prints a message
          if NativeSucceeded(result) {
            inhibited := Some(Flag);
          }
        case Throws =>
          outcome := Transitions.Raised;
      }
      Transitions.InhibitConsistent(backend, old(Current()), reply);
    }

    /** `Win7Inhibitor.UnInhibit`. */
    method Win7UnInhibit(reply: Reply) returns (outcome: Transitions.Outcome)
      requires Valid() && backend.Win7?
      modifies this
      ensures Valid()
      ensures Transitions.Transition(Current(), outcome) == Transitions.Win7UnInhibit(backend.request, old(Current()), reply)
    {
      outcome := Transitions.Normal;
      if Inhibited() {
        // clear the system-required flag on this machine's power request
        log := log + [Event(PowerClearRequest(backend.request, SystemRequired.Ordinal()), reply)];
        match reply
        case Returns(result) =>
          // zero means failure; the code then only prints a message
          if NativeSucceeded(result) {
            inhibited := None;
          }
        case Throws =>
          outcome := Transitions.Raised;
      }
      Transitions.UnInhibitConsistent(backend, old(Current()), reply);
    }

    /** `Inhibit`, as the backend's subclass implements it. */
    method Inhibit(reply: Reply) returns (outcome: Transitions.Outcome)
      requires Valid()
      modifies this
      ensures Valid()
      ensures Transitions.Transition(Current(), outcome) == Transitions.Inhibit(backend, old(Current()), reply)
    {
      match backend
      case DBus(_) => outcome := DBusInhibit(reply);
      case Win7(_) => outcome := Win7Inhibit(reply);
    }

    /** `UnInhibit`, as the backend's subclass implements it. */
    method UnInhibit(reply: Reply) returns (outcome: Transitions.Outcome)
      requires Valid()
      modifies this
      ensures Valid()
      ensures Transitions.Transition(Current(), outcome) == Transitions.UnInhibit(backend, old(Current()), reply)
    {
      match backend
      case DBus(_) => outcome := DBusUnInhibit(reply);
      case Win7(_) => outcome := Win7UnInhibit(reply);
    }

    /** `Toggle`: exactly one of `Inhibit` (when not inhibited) and `UnInhibit` (when
        inhibited) runs. */
    method Toggle(reply: Reply) returns (outcome: Transitions.Outcome)
      requires Valid()
      modifies this
      ensures Valid()
      ensures !old(Inhibited()) ==>
                Transitions.Transition(Current(), outcome) == Transitions.Inhibit(backend, old(Current()), reply)
      ensures old(Inhibited()) ==>
                Transitions.Transition(Current(), outcome) == Transitions.UnInhibit(backend, old(Current()), reply)
    {
      if !Inhibited() {
        outcome := Inhibit(reply);
      } else {
        outcome := UnInhibit(reply);
      }
    }

    /** `__enter__`: inhibits and hands back this same object. If `Inhibit` raised, the
        `with` statement propagates the exception and its block does not run. */
    method Enter(reply: Reply) returns (self: SleepInhibitor, outcome: Transitions.Outcome)
      requires Valid()
      modifies this
      ensures self == this
      ensures Valid()
      ensures Transitions.Transition(Current(), outcome) == Transitions.Inhibit(backend, old(Current()), reply)
    {
      outcome := Inhibit(reply);
      self := this;
    }

    /** `__exit__`: releases whatever the exception arguments are, and returns `None`,
        so an exception leaving the block is never suppressed. */
    method Exit(exception: ExceptionInfo, reply: Reply) returns (suppress: bool, outcome: Transitions.Outcome)
      requires Valid()
      modifies this
      ensures !suppress
      ensures Valid()
      ensures Transitions.Transition(Current(), outcome) == Transitions.UnInhibit(backend, old(Current()), reply)
    {
      outcome := UnInhibit(reply);
      suppress := false;
    }

    /** `__del__`: releases; Python ignores an exception raised by a finaliser, so no
        outcome reaches anyone. */
    method Finalize(reply: Reply)
      requires Valid()
      modifies this
      ensures Valid()
      ensures Current() == Transitions.UnInhibit(backend, old(Current()), reply).after
    {
      var _ := UnInhibit(reply);
    }
  }
}
