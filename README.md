# PACrunner V8 driver, modelled in Dafny

PACrunner is a proxy-configuration daemon: it answers "which proxy for this URL?" by
running the Proxy Auto-Config (PAC) script of the current proxy configuration. Its V8
driver (`pacrunner/plugins/v8.cc`) keeps four module-level slots: the current proxy, a
persistent V8 context, the persistent `FindProxyForURL` function inside it, and the id
of an idle source that drives V8's incremental garbage collection. It also installs two
native functions in every script context, `myIpAddress()` and `dnsResolve(host)`.

This project models:

- **Host values** (`pacrunner.dfy`, module `Pacrunner`): the proxy as the two fields the
  driver reads (interface, script; either may be NULL). It also defines `CString`, the text
  a C function sees when handed a V8 `Utf8Value`, which ends at the first NUL.
- **The hostname guard** (`hostname.dfy`, module `Hostname`): glib's `g_strsplit_set` over
  the driver's delimiter set, and the "more than one piece" test. The guard rejects a name
  exactly when it contains a delimiter. The empty string gives no pieces. The split
  removes exactly the delimiters: no other character is lost or changed. `/` and `.` are
  not delimiters, so `example.com/x` passes.
- **The native bindings** (`bindings.dfy`, module `Bindings`): `myIpAddress` checks three
  things in order, and `dnsResolve` checks its arity. The interface lookup (`getaddr`) and
  host resolution (`resolve`) are oracle functions. The guard of `dnsResolve` raises its
  exception without returning it, and resolution goes ahead either way. The model keeps
  this as the source has it: `DnsResolution.guardThrew` records the raised exception, and
  the returned value depends only on the resolver.
- **The driver state machine** (`driver.dfy`, module `V8Driver`): class `Engine` holds the
  four slots. Its methods are `SetProxy`, `CreateObject`, `DestroyObject`, `Execute`,
  `DispatchGc` (the main loop running `v8_gc`) and `Exit`. Every answer V8 gives is a
  parameter: the five steps of an activation, the outcome of the entry call, and each
  idle notification. A persistent handle is `Empty`, `Live` or `Disposed`. `Dispose()`
  without `Clear()` leaves a handle non-empty. The invariant `Engine.Valid` says:
  - the entry-function handle is never left disposed but uncleared;
  - an entry function is alive exactly when its context is alive;
  - with no current proxy both handles are `Empty`;
  - the ghost counters of the V8 heap count exactly the live handles, so at most one
    context/function pair is alive;
  - with `gc_source` 0 the main loop holds no idle source, and otherwise none except the
    one `gc_source` names;
  - `gc_source` is never above the last id the main loop handed out.
- **Client scenarios** (`scenarios.dfy`, module `DriverScenarios`): the documented
  behaviours, derived from the contracts alone.

Two quirks of the source are kept, not fixed:

- The failure paths of `create_object` dispose `jsctx` without clearing it. The next teardown
  disposes it a second time; the ghost counter `staleDisposals` records each such call.
- `v8_gc` never resets `gc_source`. Once the idle source reports no work left,
  `gc_source` still holds its id, so later activations and executions schedule nothing.

## Model

| member | source | states |
|---|---|---|
| `Pacrunner.CString` | pacrunner/plugins/v8.cc:125 | the C view of a V8 string is its longest NUL-free prefix |
| `Hostname.Pieces` | pacrunner/plugins/v8.cc:134 | splitting a non-empty string gives one piece more than it has delimiters, and no piece contains a delimiter |
| `Hostname.SplitSet` | pacrunner/plugins/v8.cc:134 | `g_strsplit_set` with no limit: no pieces for the empty string, delimiter count + 1 otherwise |
| `Hostname.DelimiterCountPositive` | pacrunner/plugins/v8.cc:134-136 | the delimiter count is positive exactly when some character is a delimiter |
| `Hostname.BadHostnameIff` | pacrunner/plugins/v8.cc:134-139 | the guard `Hostname.IsBadHostname` (more than one piece, the `length > 1` test) declares a name bad exactly when it contains a delimiter character |
| `Hostname.PiecesConcat` | pacrunner/plugins/v8.cc:134 | putting the pieces back together gives the input with its delimiters removed |
| `Hostname.SplitWithoutDelimiter` | pacrunner/plugins/v8.cc:134-139 | a non-empty name without delimiters is a single piece, itself |
| `Hostname.UrlRejected` | pacrunner/plugins/v8.cc:134-139 | a full URL (`http://example.com/x?y=1`) is rejected |
| `Hostname.HostnameAccepted` | pacrunner/plugins/v8.cc:134-139 | a bare host name (`example.com`) passes |
| `Hostname.PathAccepted` | pacrunner/plugins/v8.cc:134-139 | a host name followed by a path passes, since `/` is not in the set |
| `Bindings.MyIpAddress` | pacrunner/plugins/v8.cc:107-119 | throws "No current proxy", else "Error fetching interface", else "Error fetching IP address"; returns the looked-up address exactly when all three guards pass |
| `Bindings.MyIpAddressIgnoresScript` | pacrunner/plugins/v8.cc:110-114 | the result depends on the proxy's interface, not on its script |
| `Bindings.DnsResolve` | pacrunner/plugins/v8.cc:128-150 | wrong arity throws "Bad parameters" and raises nothing else; with one argument the guard raises exactly when its C text contains a delimiter, and the return value is the resolver's address or "Failed to resolve" |
| `Bindings.GuardDoesNotShortCircuit` | pacrunner/plugins/v8.cc:139-146 | two arguments the resolver treats alike give the same returned value, whatever the guard says of them |
| `Bindings.RejectedUrlStillResolved` | pacrunner/plugins/v8.cc:134-150 | a full URL trips the guard and still returns the resolver's address |
| `Bindings.UnresolvableHostname` | pacrunner/plugins/v8.cc:145-146 | a passing host name the resolver cannot resolve throws "Failed to resolve" |
| `V8Driver.CreateStage` | pacrunner/plugins/v8.cc:155-217 | activation succeeds exactly when a proxy with a script exists and the library compiles and runs, the PAC script compiles and runs, and `FindProxyForURL` is a function; a context is made and aborted exactly when a script exists and some later step fails |
| `V8Driver.EntryResult` | pacrunner/plugins/v8.cc:275-289 | an answer exists exactly when the call returned a string; it is that string's NUL-free prefix |
| `V8Driver.Engine.AtMostOneLivePair` | pacrunner/plugins/v8.cc:44-47 | under the invariant at most one context and one function are alive, slots passing the execute test refer to live objects, and at most one idle source is pending |
| `V8Driver.Engine.constructor` | pacrunner/plugins/v8.cc:44-47 | the initial slots: no proxy, empty handles, no idle source |
| `V8Driver.Engine.IdleAdd` | pacrunner/plugins/v8.cc:248 | `g_idle_add` adds one idle source with a fresh positive id |
| `V8Driver.Engine.DisposeContext` | pacrunner/plugins/v8.cc:182 | `Dispose()` leaves the handle non-empty; it releases a live context and records a second disposal |
| `V8Driver.Engine.DestroyObject` | pacrunner/plugins/v8.cc:221-231 | both handles end empty, the invariant is kept, and with nothing set nothing changes (idempotent) |
| `V8Driver.Engine.CreateObject` | pacrunner/plugins/v8.cc:153-219 | from empty slots: a live pair only on full success, an uncleared disposed context and no function after a failed step, nothing without proxy or script |
| `V8Driver.Engine.SetProxy` | pacrunner/plugins/v8.cc:233-251 | the new proxy is current; the old pair is torn down before the new one is built, so the pair follows `CreateStage`; an idle source is added only when `gc_source` is 0; status 0 |
| `V8Driver.Engine.Execute` | pacrunner/plugins/v8.cc:254-295 | no answer unless both handles are set (the head test at line 260, `V8Driver.Engine.Ready`) and the entry call returns a string; then its C copy; only that success schedules an idle source, and only when none is recorded |
| `V8Driver.Engine.DispatchGc` | pacrunner/plugins/v8.cc:49-53 | the source stays scheduled exactly when idle notification reports work left; `gc_source` is not written |
| `V8Driver.Engine.Exit` | pacrunner/plugins/v8.cc:311-325 | shutdown leaves no proxy, empty handles, `gc_source` 0 and no pending idle source, after draining until idle notification reports done; a context left disposed by a failed activation is disposed a second time, and when `gc_source` was 0 an idle source is added and removed again |
| `V8Driver.DrainIdle` | pacrunner/plugins/v8.cc:323-324 | the drain loop stops at the first idle notification that reports done |
| `DriverScenarios.SoftFailureOutsideActivation` | pacrunner/plugins/v8.cc:239-295 | execute gives nothing before activation and after deactivation, and "DIRECT" while the one-line PAC script is active |
| `DriverScenarios.ThrowThenRecover` | pacrunner/plugins/v8.cc:274-294 | a throwing call gives nothing and the next good call answers |
| `DriverScenarios.ReplaceAfterFailedActivation` | pacrunner/plugins/v8.cc:193-198 | a failed PAC compile leaves a disposed, uncleared context; the next activation builds one live pair |
| `DriverScenarios.GcNotRenewed` | pacrunner/plugins/v8.cc:49-53 | after the idle source finishes, `gc_source` keeps its id and a successful execute adds no source |

## Left out

- V8 itself (compiling, running, calling, `HandleScope`, `TryCatch`, `Utf8Value` conversion and UTF-8 encoding, `Persistent` storage) is a foreign library. Each answer it gives is a parameter. `Context::New` is taken to succeed.
- What V8 does with an exception raised by a native function that then returns normally (the `dnsResolve` guard) is engine behaviour. The model records the raised exception next to the returned value and does not decide which one the script sees.
- `getaddr` (socket, `SIOCGIFADDR` ioctl, `inet_ntoa`) and `resolve` (`getaddrinfo`, `getnameinfo`) are operating-system I/O. They are oracle functions from a name to an optional address. This includes `getaddr`'s truncation of the interface name to the kernel's interface-name size.
- `v8::Locker` and concurrency: every operation is one atomic step.
- The glib main loop is reduced to the set of idle sources the driver added and the last id handed out. `g_source_remove` on a source that already finished (possible because of the `gc_source` quirk) is modelled as removing nothing; glib's diagnostic for it is not modelled.
- Driver registration (`v8_init`, `pacrunner_js_driver_register`/`unregister`, the driver table) and `pacrunner/src/plugin.h` are registration boilerplate.
- Logging (`DBG`, `printf`) and the line number in the execute error message are diagnostics only.
- V8Driver.Engine.Exit: assumes that the shutdown drain ends, that is, that one of V8's `IdleNotification()` answers reports done. That is V8's behaviour; the source's loop has no bound, and if V8 never reports done, `v8_exit` never returns.
- V8Driver.DrainIdle: assumes, the same way, that some `IdleNotification()` answer reports done. Otherwise the source's `while (!IdleNotification());` spins forever, and no result exists.
- Bindings.DnsResolve: arguments are taken after V8's string conversion; a conversion that fails (a NULL `Utf8Value` buffer) is not modelled.
