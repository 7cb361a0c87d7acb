# Espresso sleep inhibitor, modelled in Dafny

Espresso is a tray utility that keeps a computer awake while the user has it
activated. Its core is the sleep inhibitor: an object whose only state is the
`inhibited` attribute. That attribute is `None` while the machine is not inhibited.
Otherwise it holds a platform token. `Inhibit` and `UnInhibit` acquire and release a
stay-awake lease from the platform, and both are idempotent. Two backends exist:

- the session-bus backend calls `Inhibit` on the freedesktop power-management object
  and keeps the cookie it returns, then hands that cookie back to `UnInhibit`;
- the native backend sets and clears the system-required flag of a kernel32 power
  request. It stores `True`, and it treats a zero result as failure.

The project models `inhibitors.py` (the `SleepInhibitor` base class and both backends)
and its earlier copy `inhibitor.py` (the `Inhibitor` base class and its native backend).

Modules, one file each:

- `Platform` (platform.dfy): what the inhibitors exchange with the platform. It holds
  the handle (`Cookie(c)` or `Flag` for Python's `True`), the reply to a call
  (`Returns(int)` or `Throws`, a Python exception), the four calls, the
  `_POWER_REQUEST_TYPE` ordinals, and the zero-means-failure convention.
- `Lease` (lease.dfy): the meaning of a call log, computed from the platform's answers
  alone. `Holding` is the lease held after the log. `Disciplined` says that no acquire
  was made while a lease was held, and that every release hands back the held handle.
  `Acquires` and `Releases` count the successful calls.
- `Transitions` (transitions.dfy): each operation as a pure function from
  (`inhibited`, log) and the platform's reply to the next state and to how the Python
  call ended. The invariant `Consistent` ties `inhibited` to `Holding(log)`. This
  module also holds the lemmas: idempotence, the toggle case split, the handle round
  trip, failure leaving the state unchanged, and whole runs of calls.
- `Inhibitors` (inhibitors.dfy): the class `SleepInhibitor` of inhibitors.py. It has
  the field `inhibited`, a ghost call `log`, and methods with `modifies this`. Each
  method is proved to perform exactly its transition and to keep `Valid()`.
- `Inhibitor` (inhibitor.dfy): the class `Win7Inhibitor`, built
  the same way, with the base class's `Inhibited` and `Toggle` folded in.

The platform is an oracle. Each operation that may call it takes `reply`, the answer
the platform would give, and appends the call and the answer to the ghost log.
`PowerCreateRequest`'s result is a constructor parameter.

In place of a class hierarchy, the model uses one class tagged with its backend:
the base class and its two subclasses in inhibitors.py become one class with a
`const backend`, and the overridden
`Inhibit` and `UnInhibit` dispatch on that tag to `DBusInhibit`/`DBusUnInhibit` or
`Win7Inhibit`/`Win7UnInhibit`.

Three behaviours of the code matter for the contracts:

- A zero native result does not raise an error. The code prints a message and returns
  normally, leaving the state unchanged. The model's outcome is `Normal` there.
- A failing bus call is not caught. The exception propagates with the state untouched,
  and the model's outcome is `Raised`.
- `__del__` calls `UnInhibit` whatever the state. `UnInhibit` itself is the no-op when
  nothing is held. Python ignores an exception a finaliser raises.

## Model

| member | source | states |
|---|---|---|
| `Platform.FromOrdinal` | inhibitors.py:77-82 | the enumeration names exactly the ordinals 0 to 3, and each name gets back its own ordinal |
| `Platform.OrdinalRoundTrip` | inhibitor.py:53-58 | each of the four power-request names (Display 0, System 1, AwayMode 2, Execution 3) comes back from its ordinal |
| `Lease.EffectOf` | inhibitors.py:90-104 | only an acquire call that returned can grant a lease and only a release call that returned can end one; a raised call does nothing; a bus acquire grants the cookie it returned |
| `Lease.Balanced` | inhibitors.py:66-73 | in a disciplined log the successful acquires exceed the successful releases by one exactly while a lease is held, and equal them otherwise |
| `Lease.NeverTwoLeases` | inhibitors.py:90-104 | at every point of a disciplined log, successful acquires minus successful releases is 0 or 1: never two leases at once |
| `Lease.PrefixDisciplined` | inhibitors.py:66-73 | every prefix of a disciplined log is disciplined |
| `Lease.HoldingIsLastAcquire` | inhibitors.py:30 | a handle is held exactly when the most recent successful acquire returned it and no release has succeeded since (both directions) |
| `Transitions.Fresh` | inhibitors.py:29-30 | no contract of its own: the state of a new machine (`None`, empty log); `Transitions.FreshIsConsistent` states its properties |
| `Transitions.DBusInhibit` | inhibitors.py:66-68 | no contract of its own: the bus `Inhibit` transition; `Transitions.InhibitWhenInhibited`, `InhibitWhenIdle`, `Idempotent`, `DBusRoundTrip` and `InhibitConsistent` state its properties |
| `Transitions.DBusUnInhibit` | inhibitors.py:70-73 | no contract of its own: the bus `UnInhibit` transition; `Transitions.UnInhibitWhenIdle`, `UnInhibitWhenInhibited`, `Idempotent`, `DBusRoundTrip` and `UnInhibitConsistent` state its properties |
| `Transitions.Win7Inhibit` | inhibitors.py:90-96 | no contract of its own: the native `Inhibit` transition; `Transitions.InhibitWhenInhibited`, `InhibitWhenIdle`, `FailureLeavesStateUnchanged`, `OnlySystemRequired` and `InhibitConsistent` state its properties |
| `Transitions.Win7UnInhibit` | inhibitors.py:98-104 | no contract of its own: the native `UnInhibit` transition; `Transitions.UnInhibitWhenIdle`, `UnInhibitWhenInhibited`, `FailureLeavesStateUnchanged`, `OnlySystemRequired` and `UnInhibitConsistent` state its properties |
| `Transitions.Inhibit` | inhibitors.py:52-54 | no contract of its own: `Inhibit` dispatched to the backend; the lemmas on `DBusInhibit` and `Win7Inhibit` above are stated through it |
| `Transitions.UnInhibit` | inhibitors.py:56-58 | no contract of its own: `UnInhibit` dispatched to the backend; the lemmas on `DBusUnInhibit` and `Win7UnInhibit` above are stated through it |
| `Transitions.Toggle` | inhibitors.py:46-50 | no contract of its own: `Toggle`; `Transitions.ToggleMakesOneCall`, `ToggleTwice` and `RunConsistent` state its properties |
| `Transitions.InhibitWhenInhibited` | inhibitors.py:66-67 | `Inhibit` on an inhibited machine makes no platform call and changes nothing |
| `Transitions.UnInhibitWhenIdle` | inhibitors.py:70-71 | `UnInhibit` on a machine that is not inhibited makes no platform call and changes nothing |
| `Transitions.InhibitWhenIdle` | inhibitors.py:66-96 | otherwise `Inhibit` makes exactly one acquire call; the machine ends inhibited iff the platform granted it, holding the returned cookie or `True`; it raises iff the platform raised |
| `Transitions.UnInhibitWhenInhibited` | inhibitors.py:70-104 | otherwise `UnInhibit` makes exactly one release call with the held handle; a granted release clears `inhibited`, a refused one leaves it as it was; it raises iff the platform raised |
| `Transitions.FailureLeavesStateUnchanged` | inhibitors.py:90-104 | a platform answer that is not a grant (zero native result, exception) leaves `inhibited` unchanged for both operations |
| `Transitions.Idempotent` | inhibitors.py:66-73 | after an `Inhibit` that leaves the machine inhibited, a second `Inhibit` makes no call and changes nothing; likewise for `UnInhibit` |
| `Transitions.ToggleMakesOneCall` | inhibitors.py:46-50 | `Toggle` appends exactly one platform call, never two: an acquire exactly when the machine was not inhibited, with the given reply |
| `Transitions.ToggleTwice` | inhibitors.py:46-50 | two granted toggles bring `Inhibited` back to its value before them |
| `Transitions.DBusRoundTrip` | inhibitors.py:66-73 | `Inhibit(); UnInhibit()` logs one acquire and one release, the release carrying exactly the cookie the acquire returned; a release that returns restores the not-inhibited state |
| `Transitions.FreshIsConsistent` | inhibitors.py:29-30 | a new machine is not inhibited and is consistent with its empty log |
| `Transitions.InhibitConsistent` | inhibitors.py:66-96 | `Inhibit` keeps the invariant: `inhibited` is the lease the log says is held, the log is disciplined, and every call is one of this backend's |
| `Transitions.UnInhibitConsistent` | inhibitors.py:70-104 | `UnInhibit` keeps the same invariant |
| `Transitions.HeldHandleKind` | inhibitors.py:68-94 | while inhibited, the bus backend holds a cookie and the native backend holds `True` |
| `Transitions.OnlySystemRequired` | inhibitors.py:92-100 | the native backend only calls `PowerSetRequest`/`PowerClearRequest`, on its own request object, with the system-required ordinal |
| `Transitions.RunConsistent` | inhibitors.py:46-104 | every sequence of `Inhibit`, `UnInhibit` and `Toggle` calls keeps the invariant |
| `Transitions.RunFromFresh` | inhibitors.py:28-104 | after any sequence of calls on a new machine, `Inhibited` is true exactly when one successful acquire is left unmatched by a successful release |
| `Transitions.ScopedAcquisition` | inhibitors.py:35-40 | for a `with` block that was entered, whatever calls its body makes on the inhibitor: the invariant holds after leaving, leaving makes exactly one release call (with the handle then held) when a lease is held at the end of the body and none otherwise, and a granted release leaves the machine not inhibited |
| `Inhibitors.SleepInhibitor.DBusInhibitor` | inhibitors.py:61-64 | binds to the power-management object's bus name and path, and starts not inhibited with an empty log |
| `Inhibitors.SleepInhibitor.Win7Inhibitor` | inhibitors.py:84-88 | keeps the request object it was given, and starts not inhibited with an empty log |
| `Inhibitors.SleepInhibitor.Inhibited` | inhibitors.py:42-44 | reads only; true exactly when `inhibited` is not `None`, and (under the invariant) exactly when the platform's answers say a lease is held |
| `Inhibitors.SleepInhibitor.DBusInhibit` | inhibitors.py:66-68 | performs the bus `Inhibit` transition (one `Inhibit("Espresso", "Inhibited by user")` call unless inhibited, storing the returned cookie) and keeps the invariant |
| `Inhibitors.SleepInhibitor.DBusUnInhibit` | inhibitors.py:70-73 | performs the bus `UnInhibit` transition (one `UnInhibit(cookie)` call with the stored cookie if inhibited, then `None`) and keeps the invariant |
| `Inhibitors.SleepInhibitor.Win7Inhibit` | inhibitors.py:90-96 | performs the native `Inhibit` transition (one `PowerSetRequest(request, 1)` unless inhibited; non-zero stores `True`, zero leaves it) and keeps the invariant |
| `Inhibitors.SleepInhibitor.Win7UnInhibit` | inhibitors.py:98-104 | performs the native `UnInhibit` transition (one `PowerClearRequest(request, 1)` if inhibited; non-zero clears, zero leaves it) and keeps the invariant |
| `Inhibitors.SleepInhibitor.Inhibit` | inhibitors.py:52-54 | performs its backend's `Inhibit` transition |
| `Inhibitors.SleepInhibitor.UnInhibit` | inhibitors.py:56-58 | performs its backend's `UnInhibit` transition |
| `Inhibitors.SleepInhibitor.Toggle` | inhibitors.py:46-50 | performs the `Inhibit` transition when not inhibited before, the `UnInhibit` transition otherwise |
| `Inhibitors.SleepInhibitor.Enter` | inhibitors.py:35-37 | performs the `Inhibit` transition and returns this same object |
| `Inhibitors.SleepInhibitor.Exit` | inhibitors.py:39-40 | performs the `UnInhibit` transition whatever the exception arguments, and never suppresses the exception |
| `Inhibitors.SleepInhibitor.Finalize` | inhibitors.py:32-33 | performs the `UnInhibit` transition, with no outcome reaching a caller |
| `Inhibitor.Win7Inhibitor.constructor` | inhibitor.py:60-64 | keeps the request object, and starts with `inhibited` `None` and an empty log |
| `Inhibitor.Win7Inhibitor.Inhibited` | inhibitor.py:18-20 | reads only; true exactly when `inhibited` is not `None`, and (under the invariant) exactly when the flag is held |
| `Inhibitor.Win7Inhibitor.Inhibit` | inhibitor.py:66-72 | performs the native `Inhibit` transition, the same as the newer backend's, and keeps the invariant |
| `Inhibitor.Win7Inhibitor.UnInhibit` | inhibitor.py:74-80 | performs the native `UnInhibit` transition and keeps the invariant |
| `Inhibitor.Win7Inhibitor.Toggle` | inhibitor.py:22-26 | performs the `Inhibit` transition when not inhibited before, the `UnInhibit` transition otherwise |

## Left out

- espresso.py (the Qt tray icon, its icons, tooltip, signals and message box) is not part of this model. It also calls the bus directly rather than through an inhibitor.
- The real bus binding (`dbus.SessionBus().get_object(...)`) and the kernel32 functions are foreign code. They are oracles: their answers arrive as `reply` parameters, and `PowerCreateRequest`'s result arrives as a constructor parameter.
- A failing construction (no session bus, no `dbus` or `ctypes` module) is not modelled, because it happens inside foreign imports and calls.
- The module-global `ctypes` import is not modelled. It is an import side effect only.
- `DBusInhibitor` in inhibitor.py is not modelled. Its methods test a bare name `Inhibited` that does not exist, so every call raises `NameError`.
- The failure messages printed with `print` are side output and are not modelled. The model records only that the call returned normally.
- When the garbage collector runs `__del__` is not modelled; `Finalize` models only what `__del__` does.
- A backend-selection factory, an auto-release timer, `Inhibit(timeout)` and locking do not exist in this code, and are not modelled.
- Python's integers are unbounded, and the code only compares results with zero. So cookies and native results are unbounded `int`s, and no 32-bit width is modelled.
- `Transitions.RunConsistent` and `Transitions.RunFromFresh` cover runs of `Inhibit`, `UnInhibit` and `Toggle`. `Enter`, `Exit` and `Finalize` perform the same transitions as `Inhibit` and `UnInhibit`, so they add nothing to a run.
