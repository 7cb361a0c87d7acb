/** The older inhibitor of inhibitor.py: an `Inhibitor` base class (the `inhibited`
    attribute, the `Inhibited` property and `Toggle`) and its native power-request
    subclass `Win7Inhibitor`, here one class. It performs the same transitions as the
    native backend of `Inhibitors`; it has no `with` protocol and no finaliser. */
module Inhibitor {
  import opened Platform
  import opened Lease
  import Transitions

  class Win7Inhibitor {
    /** The power-request object `PowerCreateRequest` returned at construction. */
    const request: int
    var inhibited: Option<Handle>
    ghost var log: seq<Event>

    ghost function Current(): Transitions.State
      reads this
    {
      Transitions.State(inhibited, log)
    }

    ghost predicate Valid()
      reads this
    {
      Transitions.Consistent(Transitions.Win7(request), Current())
    }

    constructor(request: int)
      ensures this.request == request
      ensures inhibited == None && log == []
      ensures Valid() && !Inhibited()
    {
      this.request := request;
      inhibited := None;
      log := [];
    }

    /** The `Inhibited` property: true exactly when `inhibited` is not `None`, which is
        exactly when the power request's system-required flag is set for this machine. */
    function Inhibited(): (r: bool)
      reads this
      ensures r <==> inhibited != None
      ensures Valid() ==> (r <==> Holding(log).Some?)
    {
      inhibited.Some?
    }

    /** `Win7Inhibitor.Inhibit`. */
    method Inhibit(reply: Reply) returns (outcome: Transitions.Outcome)
      requires Valid()
      modifies this
      ensures Valid()
      ensures Transitions.Transition(Current(), outcome) == Transitions.Win7Inhibit(request, old(Current()), reply)
    {
      outcome := Transitions.Normal;
      if !Inhibited() {
        log := log + [Event(PowerSetRequest(request, SystemRequired.Ordinal()), reply)];
        match reply
        case Returns(result) =>
          if NativeSucceeded(result) {
            inhibited := Some(Flag);
          }
        case Throws =>
          outcome := Transitions.Raised;
      }
      Transitions.InhibitConsistent(Transitions.Win7(request), old(Current()), reply);
    }

    /** `Win7Inhibitor.UnInhibit`. */
    method UnInhibit(reply: Reply) returns (outcome: Transitions.Outcome)
      requires Valid()
      modifies this
      ensures Valid()
      ensures Transitions.Transition(Current(), outcome) == Transitions.Win7UnInhibit(request, old(Current()), reply)
    {
      outcome := Transitions.Normal;
      if Inhibited() {
        log := log + [Event(PowerClearRequest(request, SystemRequired.Ordinal()), reply)];
        match reply
        case Returns(result) =>
          if NativeSucceeded(result) {
            inhibited := None;
          }
        case Throws =>
          outcome := Transitions.Raised;
      }
      Transitions.UnInhibitConsistent(Transitions.Win7(request), old(Current()), reply);
    }

    /** `Toggle`: `Inhibit` when not inhibited, `UnInhibit` otherwise, never both. */
    method Toggle(reply: Reply) returns (outcome: Transitions.Outcome)
      requires Valid()
      modifies this
      ensures Valid()
      ensures !old(Inhibited()) ==>
                Transitions.Transition(Current(), outcome) == Transitions.Win7Inhibit(request, old(Current()), reply)
      ensures old(Inhibited()) ==>
                Transitions.Transition(Current(), outcome) == Transitions.Win7UnInhibit(request, old(Current()), reply)
    {
      if !Inhibited() {
        outcome := Inhibit(reply);
      } else {
        outcome := UnInhibit(reply);
      }
    }
  }
}
