# httpdshutdown in Dafny

A model of the `Watcher` of the Go package `httpdshutdown`. The package coordinates the graceful shutdown of an HTTP daemon. The watcher does four things:

- It counts live connections in a `sync.WaitGroup`, driven by the states the server reports.
- When asked to stop, it races "the counter reached zero" against a grace-period timer.
- It runs the registered shutdown hooks exactly once, whichever side wins the race.
- It maps operating-system signals to a stop, a panic or nothing, and sends the process exit codes.

Two modules:

- `ConnAccounting` (`conn_accounting.dfy`): the `http.ConnState` values and the wait-group counter. The counter is a fold (`Counter`) over a stream of reported states. The `Admissible` predicate is the caller contract that `Done()` never meets a zero counter. The lemmas prove a closed form for the counter and characterise `Admissible`.
- `HttpdShutdown` (`httpdshutdown.dfy`): the `Watcher` class, plus one method per Go method of the watcher.
  - Every Go method has a pointer receiver that may be nil. So each one is a module-level method whose first parameter is a `Watcher?`, and its nil path is modelled: `RunHooks` and `OnStop` return an error, while `RecordConnState` and `SigHandle` panic.
  - The effects that matter are returned as a trace: which hook was called and what was logged.
  - The winner of the drain-or-timer `select` is an input (`Winner`). `Drained` is only admissible while the counter is zero.
  - `RunHooks`, `OnStop` and `SigHandle` are loops or straight-line code, each proved against a specification function (`HookTrace`, `StopTrace`, `Handle`). The properties the package promises are proved about those functions.

The counter can reach zero during the grace window because the server reports closed or hijacked connections while `OnStop` waits. `OnStop` does nothing observable until the race is decided. Those reports are therefore modelled as `RecordConnState` calls (`ReportAll`) made before `OnStop`, and `GraceWindowScenario` shows the two-connection case. `SigHandle` likewise takes one batch of reports per signal and applies it before that signal is handled.

`BadTimeoutAndNilScenario`, `ValidScenario` and `StopScenario` replay the package's unit tests `TestBadTimeout`, `TestNil`, `TestValid` and `TestStop` on the model. Where those tests expect `OnStop` to return nil, the scenario chooses `Drained` as the winner itself. The model allows that winner at counter zero but does not force it. `GraceWindowScenario`, `TimedOutSignalScenario` and `DrainedSignalScenario` are further scenarios of the model, not replays of tests; no test of the package calls `SigHandle`.

The package's tests also call `Accepting` and `IsAccepting`. `httpdshutdown.go` defines neither. The model follows `httpdshutdown.go` and has no accept flag.

## Model

| member | source | states |
|---|---|---|
| `HttpdShutdown.Watcher.constructor` | httpdshutdown.go:93-97 | a new watcher holds the given timeout, a zero connection counter and exactly the given hooks in order |
| `HttpdShutdown.NewWatcher` | httpdshutdown.go:89-99 | fails exactly when the timeout is negative (zero is accepted), with the "timeout must be a positive number" error and no watcher; otherwise returns a fresh watcher with the timeout stored, counter 0 and hooks equal to the argument sequence |
| `HttpdShutdown.RecordConnState` | httpdshutdown.go:102-114 | a nil receiver panics; `StateNew` adds exactly one to the counter, `StateClosed` and `StateHijacked` subtract exactly one, every other state leaves it unchanged; nothing else changes; a release on a zero counter is excluded as the wait group's caller contract |
| `HttpdShutdown.ReportAll` | httpdshutdown_test.go:111-115 | after the server reports a stream of states one `RecordConnState` call each, the counter is its old value plus the number of `StateNew` minus the number of `StateClosed` and `StateHijacked` |
| `ConnAccounting.CounterIsNet` | httpdshutdown.go:108-113 | for any admissible interleaving, the counter after the events equals its start plus #New minus #(Closed + Hijacked) |
| `ConnAccounting.AdmissibleIff` | httpdshutdown.go:110-112 | a stream is admissible (no `Done()` on a zero counter) if and only if every Closed or Hijacked event arrives while the opened connections so far outnumber the released ones |
| `ConnAccounting.NeverNegative` | httpdshutdown.go:82 | along an admissible stream every prefix is admissible and the counter after it, start plus net opened, is never negative |
| `HttpdShutdown.HookTraceCalls` | httpdshutdown.go:121-122 | running the hooks calls hook 0, 1, ..., n-1, each exactly once and in registration order |
| `HttpdShutdown.HookTraceLogs` | httpdshutdown.go:123-125 | the log receives one "shutdown hook err" line per failing hook, in registration order, and nothing else |
| `HttpdShutdown.RunHooks` | httpdshutdown.go:117-128 | a nil receiver gets the "RunHooks: receiver is nil" error and runs no hook; otherwise the result is always nil, every hook is called once in order whether or not earlier ones failed, and each failure is logged |
| `HttpdShutdown.OnStop` | httpdshutdown.go:133-152 | a nil receiver gets the "OnStop: receiver is nil" error and runs no hook; otherwise the drain may win only at counter zero; the result is nil exactly when the drain won and the "OnStop: shutdown timed out." error when the timer won; either way every hook runs exactly once, in order, after the race's log line |
| `HttpdShutdown.StopEffectsCalls` | httpdshutdown.go:162-172 | handling one SIGTERM, SIGQUIT or SIGHUP calls every hook exactly once, in order, on both branches of the race |
| `HttpdShutdown.HandlePanicsOnInterrupt` | httpdshutdown.go:173-176 | the signal handler panics with "panic exit" exactly when a SIGINT arrives; otherwise it returns when the signal stream ends |
| `HttpdShutdown.HandleCalls` | httpdshutdown.go:161-181 | the hooks run once more, in order, for every stop signal before the first SIGINT, and never otherwise; ignored signals call nothing |
| `HttpdShutdown.HandleCodes` | httpdshutdown.go:166-172 | one exit code 0 is sent per stop signal handled, one exit code 1 per stop whose race the timer won, and no other code |
| `HttpdShutdown.LastCodeIsZero` | httpdshutdown.go:166-172 | because no `return` follows the send of 1, the last exit code sent is always 0, even after a timed-out stop |
| `HttpdShutdown.FirstCodeReflectsFirstStop` | httpdshutdown.go:169-172 | the first exit code sent, the one a caller that exits on the first code uses, is 1 exactly when the first stop signal's race was lost to the timer |
| `HttpdShutdown.HandleStop` | httpdshutdown.go:162-172 | one SIGTERM, SIGQUIT or SIGHUP logs the catch, runs `OnStop`, and sends [0] after a drain or [1, 0] after a timeout, logging the error and the failure before the final "shut down gracefully" line |
| `HttpdShutdown.SignalLoop` | httpdshutdown.go:161-181 | the receive loop's exit, codes and effects are those of `Handle` for the signals in order; the connection counter ends at `CountAfter`, each batch of reports applied before its signal |
| `HttpdShutdown.CountAfterIsNet` | httpdshutdown.go:108-113 | while the handler runs, the counter it leaves is its start plus #New minus #(Closed + Hijacked) over every batch reported up to the first SIGINT, however the batches fall between the signals |
| `HttpdShutdown.SigHandle` | httpdshutdown.go:156-182 | a nil receiver panics with "SigHandler: Watcher is nil"; otherwise the handler's exit, codes and effects are those of `Handle`: SIGTERM, SIGQUIT and SIGHUP call `OnStop` and send [0] on success or [1, 0] on timeout, SIGINT panics and ends the loop, other signals do nothing and the loop goes on; the counter ends at its start plus the net of the reports seen; the panic happens exactly when SIGINT arrives, the hooks run once per stop before it, and the code counts and final 0 hold as in `HandleCodes` and `LastCodeIsZero` |

## Left out

- Concurrency and time: the goroutine that waits on the wait group, the `select` over `time.After`, and the length of the grace period are not modelled. The race's winner is an input instead.
- OnStop: the timer is allowed to win even when the counter is already zero and the timeout is positive. In practice the drain wins there. Which side wins depends on timing that the model does not have.
- SigHandle: connection reports are grouped into one batch per signal, applied before that signal's race is decided. A report that arrives in the middle of a race's wait belongs to the batch of that race, since `OnStop` does nothing observable before the race ends.
- RecordConnState: a `Done()` that would take the wait group below zero makes Go's `sync.WaitGroup` panic. Here that is a precondition instead.
- Nil hooks and zero-value watchers: a nil `ShutdownHook` passed to `NewWatcher` makes `RunHooks` panic when it calls it (httpdshutdown.go:122). A `Watcher` built without `NewWatcher` has a nil `connsWG`, so `RecordConnState` panics on it for `StateNew`, `StateClosed` and `StateHijacked` (httpdshutdown.go:110, 112) and `OnStop`'s waiting goroutine panics (httpdshutdown.go:139). Here a hook is always one of its two results, and a watcher is only built by `NewWatcher` or the class constructor, so neither panic can occur.
- Hooks are abstracted to the result they return (`HookOk` or `HookErr`). A hook returns the same result on every call, and its own side effects are outside the model.
- `log.Printf` output is a trace of `LogLine` values, not formatted text.
- `os.Signal` delivery, `signal.Notify` and `os.Exit` are not modelled. The signal channel is a finite sequence, so the loop ends when the sequence does. The exit-code channel is an output list, so the blocking of a full buffered channel is not modelled.
- Signals are Linux signal numbers.
- `timeoutMS` is an unbounded integer. Converting it to a `time.Duration` and its possible overflow are part of the timing that is left out.
- The accept flag (`Accepting`, `IsAccepting`) is not part of this model, because httpdshutdown.go does not define it.
- The example programs (doc.go, example/example.go) are not modelled: they only wire an `http.Server` and a signal goroutine to the watcher.
- The HTTP test-server tests (`TestHttpDaemonTimeout`, `TestHttpDaemonNormalExit`) are not modelled: they depend on real servers, sleeps and goroutines.
