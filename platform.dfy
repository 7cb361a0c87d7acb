/** The platform the inhibitors talk to, seen only through the calls they make.

    The session-bus power-management object and the native kernel32 power-request
    functions are foreign code: the model never computes their answers. Each call an
    inhibitor makes is recorded as an `Event`, together with the `Reply` the platform
    gave, and the replies are supplied by the caller of the model. */
module Platform {

  datatype Option<T> = None | Some(value: T)

  /** What the `inhibited` attribute holds while the machine is inhibited: the cookie
      the bus returned from its Inhibit call, or the Python value `True` that the native
      backend stores. (`inhibited` is `None` otherwise, modelled by `Option.None`.) */
  datatype Handle = Cookie(cookie: int) | Flag

  /** What one platform call did: it returned an integer (a cookie, or the native
      BOOL result), or it raised an exception into the calling Python code. */
  datatype Reply = Returns(value: int) | Throws

  /** The `_POWER_REQUEST_TYPE` enumeration of WinNT.h, as the native backend names it. */
  datatype PowerRequestType =
    | DisplayRequired
    | SystemRequired
    | AwayModeRequired
    | ExecutionRequired  // Windows 8 and later only
  {
    function Ordinal(): (n: nat)
      ensures n < 4
    {
      match this
      case DisplayRequired => 0
      case SystemRequired => 1
      case AwayModeRequired => 2
      case ExecutionRequired => 3
    }
  }

  /** The name the enumeration gives to an ordinal: the Python class unpacks
      `range(4)` into the four names in order. */
  function FromOrdinal(n: int): (r: Option<PowerRequestType>)
    ensures r.Some? <==> 0 <= n < 4
    ensures r.Some? ==> r.value.Ordinal() == n
  {
    if n == 0 then Some(DisplayRequired)
    else if n == 1 then Some(SystemRequired)
    else if n == 2 then Some(AwayModeRequired)
    else if n == 3 then Some(ExecutionRequired)
    else None
  }

  /** Every name of the enumeration comes back from its own ordinal. */
  lemma OrdinalRoundTrip(t: PowerRequestType)
    ensures FromOrdinal(t.Ordinal()) == Some(t)
  {
  }

  /** The two strings the bus backend passes to the remote Inhibit call. */
  const ApplicationName: string := "Espresso"
  const InhibitReason: string := "Inhibited by user"

  /** The well-known bus name and object path the bus backend binds to. */
  const PowerManagementService: string := "org.freedesktop.PowerManagement"
  const InhibitObjectPath: string := "/org/freedesktop/PowerManagement/Inhibit"

  /** A call into the platform, with its arguments. */
  datatype Call =
    | BusInhibit(application: string, reason: string)   // pm.Inhibit(application, reason)
    | BusUnInhibit(handle: Handle)                        // pm.UnInhibit(cookie)
    | PowerSetRequest(request: int, requestType: nat)     // kernel32.PowerSetRequest
    | PowerClearRequest(request: int, requestType: nat)   // kernel32.PowerClearRequest
  {
    /** Whether the call asks the platform for a stay-awake lease (rather than releasing one). */
    predicate IsAcquire() {
      BusInhibit? || PowerSetRequest?
    }
  }

  /** One entry of the call log: the call made and what the platform answered. */
  datatype Event = Event(call: Call, reply: Reply)

  /** The native power-request functions return a BOOL and signal failure with ZERO;
      any other value is success. */
  predicate NativeSucceeded(result: int) {
    result != 0
  }
}
