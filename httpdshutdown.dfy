/**
 * The graceful-shutdown watcher of an http daemon: it counts live
 * connections, races their draining against a grace period when asked to
 * stop, runs the registered shutdown hooks exactly once either way, and maps
 * signals to a stop, a panic, or nothing.
 *
 * Every Go method of the watcher has a pointer receiver that may be nil, so
 * each is modelled as a method whose first parameter is a `Watcher?`.
 * Calls to hooks and `log.Printf` lines are returned as a trace of effects;
 * the winner of the drain-or-timer race is an input.
 */
module HttpdShutdown {
  import opened ConnAccounting

  datatype Option<T> = None | Some(value: T)

  /** An error value, as `errors.New` makes one. */
  datatype Error = Error(message: string)

  const NegativeTimeoutMessage := "timeout must be a positive number"
  const RecordNilMessage := "RecordConnState: receiver is nil"
  const RunHooksNilMessage := "RunHooks: receiver is nil"
  const OnStopNilMessage := "OnStop: receiver is nil"
  const TimedOutMessage := "OnStop: shutdown timed out."
  const SigHandleNilMessage := "SigHandler: Watcher is nil"
  const PanicExitMessage := "panic exit"

  /** How a call ended: it returned normally, or it panicked with a message. */
  datatype Exit = Returned | Panicked(message: string)

  /** A user-supplied shutdown hook, abstracted to the result its call returns. */
  datatype Hook = HookOk | HookErr(message: string)

  /** Signals, by their Linux numbers as `syscall` defines them. */
  type Signal = nat
  const SIGHUP: Signal := 1
  const SIGINT: Signal := 2
  const SIGQUIT: Signal := 3
  const SIGTERM: Signal := 15

  /** The lines the watcher writes with `log.Printf`. */
  datatype LogLine =
    | HookFailed(message: string)       // a hook returned an error
    | ConnsCompleted                    // OnStop: the drain won; hooks follow
    | ShutdownTimedOut                  // OnStop: the timer won; hooks follow
    | CaughtStop(sig: Signal)           // SigHandle: a terminating signal arrived
    | StopFailed(message: string)       // SigHandle: OnStop returned this error
    | FailedGracefully                  // SigHandle: the graceful shutdown failed
    | ShutDownGracefully                // SigHandle: reported after every stop, failed or not
    | CaughtPanic(sig: Signal)          // SigHandle: SIGINT arrived; a panic follows

  /** An observable effect: the hook at an index was called, or a line was logged. */
  datatype Effect = Called(hook: nat) | Logged(line: LogLine)

  /** Which of the two `select` cases of OnStop fired first. */
  datatype Winner = Drained | TimerFired

  class Watcher {
    /** The counter of the `sync.WaitGroup` that tracks live connections. */
    var connsWG: nat
    /** Hooks to run when the daemon is done or timed out; never changed after construction. */
    const shutdownHooks: seq<Hook>
    /** The grace period for shutdown, in milliseconds. */
    const timeoutMS: int

    constructor (timeoutMS: int, hooks: seq<Hook>)
      ensures this.timeoutMS == timeoutMS && shutdownHooks == hooks && connsWG == 0
    {
      this.timeoutMS := timeoutMS;
      shutdownHooks := hooks;
      connsWG := 0;
    }
  }

  /** Builds a watcher; a negative timeout is refused, zero is accepted. */
  method NewWatcher(timeoutMS: int, hooks: seq<Hook>) returns (w: Watcher?, err: Option<Error>)
    ensures err.Some? <==> timeoutMS < 0
    ensures err.Some? ==> w == null && err.value == Error(NegativeTimeoutMessage)
    ensures err.None? ==> w != null && fresh(w)
    ensures err.None? ==> w.timeoutMS == timeoutMS && w.connsWG == 0 && w.shutdownHooks == hooks
  {
    if timeoutMS < 0 {
      return null, Some(Error(NegativeTimeoutMessage));
    }
    w := new Watcher(timeoutMS, hooks);
    err := None;
  }

  /**
   * Counts opened and closed connections. A nil receiver panics; a release
   * on a zero counter would panic inside the wait group, which callers must
   * not cause.
   */
  method RecordConnState(w: Watcher?, newState: ConnState) returns (exit: Exit)
    requires w != null ==> CanApply(w.connsWG, newState)
    modifies w
    ensures w == null ==> exit == Panicked(RecordNilMessage)
    ensures w != null ==> exit == Returned
    ensures w != null && Opens(newState) ==> w.connsWG == old(w.connsWG) + 1
    ensures w != null && Releases(newState) ==> w.connsWG == old(w.connsWG) - 1
    ensures w != null && !Opens(newState) && !Releases(newState) ==> w.connsWG == old(w.connsWG)
    ensures w != null ==> w.connsWG == Apply(old(w.connsWG), newState)
  {
    if w == null {
      return Panicked(RecordNilMessage);
    }
    match newState {
      case StateNew =>
        w.connsWG := w.connsWG + 1;
      case StateClosed =>
        w.connsWG := w.connsWG - 1;
      case StateHijacked =>
        w.connsWG := w.connsWG - 1;
      case _ =>
    }
    exit := Returned;
  }

  /**
   * The server's side of the contract: it reports every transition it sees,
   * one RecordConnState call each.
   */
  method ReportAll(w: Watcher, events: seq<ConnState>)
    requires Admissible(w.connsWG, events)
    modifies w
    ensures w.connsWG == Counter(old(w.connsWG), events)
    ensures w.connsWG == old(w.connsWG) + Net(events)
  {
    CounterIsNet(w.connsWG, events);
    for i := 0 to |events|
      invariant Admissible(w.connsWG, events[i..])
      invariant Counter(w.connsWG, events[i..]) == Counter(old(w.connsWG), events)
    {
      assert events[i..][0] == events[i] && events[i..][1..] == events[i + 1..];
      var _ := RecordConnState(w, events[i]);
    }
  }

  /** The effects of calling the hook at index `i`: the call, then its failure logged. */
  function HookEffects(i: nat, h: Hook): seq<Effect> {
    [Called(i)] + (if h.HookErr? then [Logged(HookFailed(h.message))] else [])
  }

  /** The effects of running `hooks` one after the other, in order. */
  function HookTrace(hooks: seq<Hook>): seq<Effect>
    decreases |hooks|
  {
    if hooks == [] then []
    else HookTrace(hooks[..|hooks| - 1]) + HookEffects(|hooks| - 1, hooks[|hooks| - 1])
  }

  /** The indices of the hooks called in a trace, in order. */
  function Calls(trace: seq<Effect>): seq<nat>
    decreases |trace|
  {
    if trace == [] then []
    else (if trace[0].Called? then [trace[0].hook] else []) + Calls(trace[1..])
  }

  /** The lines logged in a trace, in order. */
  function Logs(trace: seq<Effect>): seq<LogLine>
    decreases |trace|
  {
    if trace == [] then []
    else (if trace[0].Logged? then [trace[0].line] else []) + Logs(trace[1..])
  }

  /** 0, 1, ..., n - 1. */
  function Indices(n: nat): seq<nat> {
    seq(n, i => i)
  }

  /** One failure line per failing hook, in registration order. */
  function Failures(hooks: seq<Hook>): seq<LogLine>
    decreases |hooks|
  {
    if hooks == [] then []
    else (if hooks[0].HookErr? then [HookFailed(hooks[0].message)] else []) + Failures(hooks[1..])
  }

  lemma {:induction false} CallsAppend(a: seq<Effect>, b: seq<Effect>)
    ensures Calls(a + b) == Calls(a) + Calls(b)
    decreases |a|
  {
    if a == [] {
      assert a + b == b;
    } else {
      assert (a + b)[0] == a[0] && (a + b)[1..] == a[1..] + b;
      CallsAppend(a[1..], b);
    }
  }

  lemma {:induction false} LogsAppend(a: seq<Effect>, b: seq<Effect>)
    ensures Logs(a + b) == Logs(a) + Logs(b)
    decreases |a|
  {
    if a == [] {
      assert a + b == b;
    } else {
      assert (a + b)[0] == a[0] && (a + b)[1..] == a[1..] + b;
      LogsAppend(a[1..], b);
    }
  }

  lemma {:induction false} FailuresAppend(a: seq<Hook>, b: seq<Hook>)
    ensures Failures(a + b) == Failures(a) + Failures(b)
    decreases |a|
  {
    if a == [] {
      assert a + b == b;
    } else {
      assert (a + b)[0] == a[0] && (a + b)[1..] == a[1..] + b;
      FailuresAppend(a[1..], b);
    }
  }

  /** Running the hooks calls every one of them exactly once, in registration order. */
  lemma {:induction false} HookTraceCalls(hooks: seq<Hook>)
    ensures Calls(HookTrace(hooks)) == Indices(|hooks|)
    decreases |hooks|
  {
    if hooks != [] {
      var n := |hooks| - 1;
      HookTraceCalls(hooks[..n]);
      CallsAppend(HookTrace(hooks[..n]), HookEffects(n, hooks[n]));
      var effects := HookEffects(n, hooks[n]);
      assert effects[0] == Called(n);
      assert effects[1..] == [] || effects[1..] == [Logged(HookFailed(hooks[n].message))];
      assert Calls(effects[1..]) == [];
      assert Calls(effects) == [n];
    }
  }

  /** A failing hook is logged, every failure once and in order, and nothing else is logged. */
  lemma {:induction false} HookTraceLogs(hooks: seq<Hook>)
    ensures Logs(HookTrace(hooks)) == Failures(hooks)
    decreases |hooks|
  {
    if hooks != [] {
      var n := |hooks| - 1;
      HookTraceLogs(hooks[..n]);
      LogsAppend(HookTrace(hooks[..n]), HookEffects(n, hooks[n]));
      assert hooks == hooks[..n] + [hooks[n]];
      FailuresAppend(hooks[..n], [hooks[n]]);
      var effects := HookEffects(n, hooks[n]);
      assert [hooks[n]][1..] == [];
      assert effects[1..] == [] || effects[1..] == [Logged(HookFailed(hooks[n].message))];
      assert Logs(effects[1..]) == Failures([hooks[n]]);
      assert Logs(effects) == Failures([hooks[n]]);
    }
  }

  /** Runs every registered hook in turn; a failure is logged and does not stop the rest. */
  method RunHooks(w: Watcher?) returns (err: Option<Error>, trace: seq<Effect>)
    ensures w == null ==> err == Some(Error(RunHooksNilMessage)) && trace == []
    ensures w != null ==> err == None
    ensures w != null ==> Calls(trace) == Indices(|w.shutdownHooks|)
    ensures w != null ==> Logs(trace) == Failures(w.shutdownHooks)
    ensures w != null ==> trace == HookTrace(w.shutdownHooks)
  {
    if w == null {
      return Some(Error(RunHooksNilMessage)), [];
    }
    var hooks := w.shutdownHooks;
    trace := [];
    for i := 0 to |hooks|
      invariant trace == HookTrace(hooks[..i])
    {
      var result := hooks[i];
      trace := trace + [Called(i)];
      if result.HookErr? {
        trace := trace + [Logged(HookFailed(result.message))];
      }
      assert hooks[..i + 1][..i] == hooks[..i];
    }
    assert hooks[..|hooks|] == hooks;
    HookTraceCalls(hooks);
    HookTraceLogs(hooks);
    err := None;
  }

  /** The effects of OnStop once the race is decided: a log line, then the hooks. */
  function StopTrace(hooks: seq<Hook>, winner: Winner): seq<Effect> {
    [Logged(if winner == Drained then ConnsCompleted else ShutdownTimedOut)] + HookTrace(hooks)
  }

  /**
   * Waits for the live connections to drain or for the grace period to pass,
   * whichever comes first, then runs the hooks once. The drain can only win
   * when no connection is live; connections the server closes during the
   * grace window are reported with RecordConnState before this call, since
   * OnStop does nothing observable until the race is decided.
   */
  method OnStop(w: Watcher?, winner: Winner) returns (err: Option<Error>, trace: seq<Effect>)
    requires w != null && winner == Drained ==> w.connsWG == 0
    ensures w == null ==> err == Some(Error(OnStopNilMessage)) && trace == []
    ensures w != null ==> (err.None? <==> winner == Drained)
    ensures w != null && winner == TimerFired ==> err == Some(Error(TimedOutMessage))
    ensures w != null ==> Calls(trace) == Indices(|w.shutdownHooks|)
    ensures w != null ==> trace == StopTrace(w.shutdownHooks, winner)
  {
    if w == null {
      return Some(Error(OnStopNilMessage)), [];
    }
    var hooksTrace;
    match winner {
      case Drained =>
        trace := [Logged(ConnsCompleted)];
        var _, t := RunHooks(w);
        hooksTrace := t;
        err := None;
      case TimerFired =>
        trace := [Logged(ShutdownTimedOut)];
        var _, t := RunHooks(w);
        hooksTrace := t;
        err := Some(Error(TimedOutMessage));
    }
    CallsAppend(trace, hooksTrace);
    trace := trace + hooksTrace;
  }

  /** What SigHandle does with one signal. */
  datatype SigAction = Stop | Interrupt | Ignore

  function Action(sig: Signal): SigAction {
    if sig == SIGTERM || sig == SIGQUIT || sig == SIGHUP then Stop
    else if sig == SIGINT then Interrupt
    else Ignore
  }

  /** The exit codes sent for one stop: 0 after a drain; 1 and then 0 after a timeout. */
  function StopCodes(winner: Winner): seq<int> {
    if winner == Drained then [0] else [1, 0]
  }

  /** The effects of handling one stop signal. */
  function StopEffects(sig: Signal, hooks: seq<Hook>, winner: Winner): seq<Effect> {
    [Logged(CaughtStop(sig))] + StopTrace(hooks, winner)
    + (if winner == TimerFired then [Logged(StopFailed(TimedOutMessage)), Logged(FailedGracefully)] else [])
    + [Logged(ShutDownGracefully)]
  }

  /** How a run of the signal handler ended, the exit codes it sent and its effects. */
  datatype Handled = Handled(exit: Exit, codes: seq<int>, trace: seq<Effect>)

  function Prepend(codes: seq<int>, trace: seq<Effect>, h: Handled): Handled {
    Handled(h.exit, codes + h.codes, trace + h.trace)
  }

  /** The signal handler over a finite signal stream, `winners[i]` deciding the race for `sigs[i]`. */
  function Handle(hooks: seq<Hook>, sigs: seq<Signal>, winners: seq<Winner>): Handled
    requires |winners| == |sigs|
    decreases |sigs|
  {
    if sigs == [] then Handled(Returned, [], [])
    else match Action(sigs[0])
      case Stop =>
        Prepend(StopCodes(winners[0]), StopEffects(sigs[0], hooks, winners[0]),
                Handle(hooks, sigs[1..], winners[1..]))
      case Interrupt =>
        Handled(Panicked(PanicExitMessage), [], [Logged(CaughtPanic(sigs[0]))])
      case Ignore =>
        Handle(hooks, sigs[1..], winners[1..])
  }

  /**
   * The server reports `reports[i]` after the previous signal is handled and
   * before the race for `sigs[i]` is decided. Every batch must be admissible
   * from the counter it meets, and a drain can win a race only when the
   * counter is then zero. After a SIGINT nothing more is handled.
   */
  predicate RacesAdmissible(conns: nat, sigs: seq<Signal>, reports: seq<seq<ConnState>>, winners: seq<Winner>)
    requires |reports| == |sigs| && |winners| == |sigs|
    decreases |sigs|
  {
    sigs == [] ||
    (Admissible(conns, reports[0]) &&
     (Action(sigs[0]) == Stop && winners[0] == Drained ==> Counter(conns, reports[0]) == 0) &&
     (Action(sigs[0]) != Interrupt ==> RacesAdmissible(Counter(conns, reports[0]), sigs[1..], reports[1..], winners[1..])))
  }

  /** The connection counter when the signal handler stops handling signals. */
  function CountAfter(conns: nat, sigs: seq<Signal>, reports: seq<seq<ConnState>>, winners: seq<Winner>): nat
    requires |reports| == |sigs| && |winners| == |sigs|
    requires RacesAdmissible(conns, sigs, reports, winners)
    decreases |sigs|
  {
    if sigs == [] then conns
    else if Action(sigs[0]) == Interrupt then Counter(conns, reports[0])
    else CountAfter(Counter(conns, reports[0]), sigs[1..], reports[1..], winners[1..])
  }

  /** The connection states reported up to and including the first SIGINT. */
  function Reported(sigs: seq<Signal>, reports: seq<seq<ConnState>>): seq<ConnState>
    requires |reports| == |sigs|
    decreases |sigs|
  {
    if sigs == [] then []
    else if Action(sigs[0]) == Interrupt then reports[0]
    else reports[0] + Reported(sigs[1..], reports[1..])
  }

  /**
   * However the reports fall between the signals, the counter the handler
   * leaves is its start plus #New minus #(Closed + Hijacked) of all reports
   * it saw.
   */
  lemma {:induction false} CountAfterIsNet(conns: nat, sigs: seq<Signal>, reports: seq<seq<ConnState>>, winners: seq<Winner>)
    requires |reports| == |sigs| && |winners| == |sigs|
    requires RacesAdmissible(conns, sigs, reports, winners)
    ensures CountAfter(conns, sigs, reports, winners) == conns + Net(Reported(sigs, reports))
    decreases |sigs|
  {
    if sigs != [] {
      CounterIsNet(conns, reports[0]);
      if Action(sigs[0]) != Interrupt {
        CountAfterIsNet(Counter(conns, reports[0]), sigs[1..], reports[1..], winners[1..]);
        NetAppend(reports[0], Reported(sigs[1..], reports[1..]));
      }
    }
  }

  /**
   * Handles the signals in order until the stream ends: a terminating signal
   * stops the daemon and sends exit codes, SIGINT panics, anything else is
   * ignored. The connection states in `reports[i]` reach RecordConnState
   * before signal `i` is handled.
   */
  method SigHandle(w: Watcher?, sigs: seq<Signal>, reports: seq<seq<ConnState>>, winners: seq<Winner>)
    returns (exit: Exit, codes: seq<int>, trace: seq<Effect>)
    requires |reports| == |sigs| && |winners| == |sigs|
    requires w != null ==> RacesAdmissible(w.connsWG, sigs, reports, winners)
    modifies w
    ensures w == null ==> exit == Panicked(SigHandleNilMessage) && codes == [] && trace == []
    ensures w != null ==> Handled(exit, codes, trace) == Handle(w.shutdownHooks, sigs, winners)
    ensures w != null ==> w.connsWG == CountAfter(old(w.connsWG), sigs, reports, winners)
    ensures w != null ==> w.connsWG == old(w.connsWG) + Net(Reported(sigs, reports))
    ensures w != null ==> (exit.Panicked? <==> SIGINT in sigs)
    ensures w != null ==> Calls(trace) == Repeat(Indices(|w.shutdownHooks|), StopsBeforeInterrupt(sigs))
    ensures w != null ==> multiset(codes)[0] == StopsBeforeInterrupt(sigs)
    ensures w != null ==> multiset(codes)[1] == TimeoutsBeforeInterrupt(sigs, winners)
    ensures w != null ==> |codes| == StopsBeforeInterrupt(sigs) + TimeoutsBeforeInterrupt(sigs, winners)
    ensures w != null && codes != [] ==> codes[|codes| - 1] == 0
  {
    if w == null {
      return Panicked(SigHandleNilMessage), [], [];
    }
    ghost var conns := w.connsWG;
    exit, codes, trace := SignalLoop(w, sigs, reports, winners);
    CountAfterIsNet(conns, sigs, reports, winners);
    HandleSummary(w.shutdownHooks, sigs, winners, Handled(exit, codes, trace));
  }

  /** The receive loop of SigHandle on a non-nil watcher. */
  method SignalLoop(w: Watcher, sigs: seq<Signal>, reports: seq<seq<ConnState>>, winners: seq<Winner>)
    returns (exit: Exit, codes: seq<int>, trace: seq<Effect>)
    requires |reports| == |sigs| && |winners| == |sigs|
    requires RacesAdmissible(w.connsWG, sigs, reports, winners)
    modifies w
    ensures Handled(exit, codes, trace) == Handle(w.shutdownHooks, sigs, winners)
    ensures w.connsWG == CountAfter(old(w.connsWG), sigs, reports, winners)
  {
    ghost var hooks := w.shutdownHooks;
    ghost var final := CountAfter(w.connsWG, sigs, reports, winners);
    exit, codes, trace := Returned, [], [];
    var i := 0;
    while i < |sigs|
      invariant 0 <= i <= |sigs|
      invariant Handle(hooks, sigs, winners) == Prepend(codes, trace, Handle(hooks, sigs[i..], winners[i..]))
      invariant RacesAdmissible(w.connsWG, sigs[i..], reports[i..], winners[i..])
      invariant CountAfter(w.connsWG, sigs[i..], reports[i..], winners[i..]) == final
    {
      var sig := sigs[i];
      HandleStep(hooks, sigs, winners, i);
      RacesStep(w.connsWG, sigs, reports, winners, i);
      ReportAll(w, reports[i]);
      match Action(sig) {
        case Stop =>
          var sent, logged := HandleStop(w, sig, winners[i]);
          PrependTwice(codes, trace, sent, logged, Handle(hooks, sigs[i + 1..], winners[i + 1..]));
          codes, trace := codes + sent, trace + logged;
        case Interrupt =>
          trace := trace + [Logged(CaughtPanic(sig))];
          exit := Panicked(PanicExitMessage);
          break;
        case Ignore =>
      }
      i := i + 1;
    }
  }

  /** The handler's response to one SIGTERM, SIGQUIT or SIGHUP: stop, and send the exit codes. */
  method HandleStop(w: Watcher, sig: Signal, winner: Winner) returns (sent: seq<int>, logged: seq<Effect>)
    requires winner == Drained ==> w.connsWG == 0
    ensures sent == StopCodes(winner)
    ensures logged == StopEffects(sig, w.shutdownHooks, winner)
  {
    sent, logged := [], [Logged(CaughtStop(sig))];
    var stopErr, stopTrace := OnStop(w, winner);
    logged := logged + stopTrace;
    if stopErr.Some? {
      logged := logged + [Logged(StopFailed(stopErr.value.message)), Logged(FailedGracefully)];
      sent := sent + [1];
    }
    logged := logged + [Logged(ShutDownGracefully)];
    sent := sent + [0];
  }

  /** One step of the handler's connection accounting: the batch reported before signal `i`. */
  lemma RacesStep(conns: nat, sigs: seq<Signal>, reports: seq<seq<ConnState>>, winners: seq<Winner>, i: nat)
    requires |reports| == |sigs| && |winners| == |sigs| && i < |sigs|
    requires RacesAdmissible(conns, sigs[i..], reports[i..], winners[i..])
    ensures Admissible(conns, reports[i])
    ensures Action(sigs[i]) == Stop && winners[i] == Drained ==> Counter(conns, reports[i]) == 0
    ensures Action(sigs[i]) != Interrupt ==>
      RacesAdmissible(Counter(conns, reports[i]), sigs[i + 1..], reports[i + 1..], winners[i + 1..]) &&
      CountAfter(conns, sigs[i..], reports[i..], winners[i..]) ==
        CountAfter(Counter(conns, reports[i]), sigs[i + 1..], reports[i + 1..], winners[i + 1..])
    ensures Action(sigs[i]) == Interrupt ==> CountAfter(conns, sigs[i..], reports[i..], winners[i..]) == Counter(conns, reports[i])
  {
    assert sigs[i..][1..] == sigs[i + 1..] && reports[i..][1..] == reports[i + 1..] && winners[i..][1..] == winners[i + 1..];
  }

  lemma PrependTwice(codes: seq<int>, trace: seq<Effect>, codes': seq<int>, trace': seq<Effect>, h: Handled)
    ensures Prepend(codes, trace, Prepend(codes', trace', h)) == Prepend(codes + codes', trace + trace', h)
  {
  }

  /** One step of the handler: what the signal at index `i` adds before the rest are handled. */
  lemma HandleStep(hooks: seq<Hook>, sigs: seq<Signal>, winners: seq<Winner>, i: nat)
    requires |winners| == |sigs| && i < |sigs|
    ensures Action(sigs[i]) == Stop ==>
      Handle(hooks, sigs[i..], winners[i..]) ==
        Prepend(StopCodes(winners[i]), StopEffects(sigs[i], hooks, winners[i]), Handle(hooks, sigs[i + 1..], winners[i + 1..]))
    ensures Action(sigs[i]) == Interrupt ==>
      Handle(hooks, sigs[i..], winners[i..]) == Handled(Panicked(PanicExitMessage), [], [Logged(CaughtPanic(sigs[i]))])
    ensures Action(sigs[i]) == Ignore ==>
      Handle(hooks, sigs[i..], winners[i..]) == Handle(hooks, sigs[i + 1..], winners[i + 1..])
  {
  }

  /** The number of stop signals the handler sees before a SIGINT, if any, ends it. */
  function StopsBeforeInterrupt(sigs: seq<Signal>): nat
    decreases |sigs|
  {
    if sigs == [] then 0
    else match Action(sigs[0])
      case Stop => 1 + StopsBeforeInterrupt(sigs[1..])
      case Interrupt => 0
      case Ignore => StopsBeforeInterrupt(sigs[1..])
  }

  /** The number of those stops whose race the timer won. */
  function TimeoutsBeforeInterrupt(sigs: seq<Signal>, winners: seq<Winner>): nat
    requires |winners| == |sigs|
    decreases |sigs|
  {
    if sigs == [] then 0
    else match Action(sigs[0])
      case Stop => (if winners[0] == TimerFired then 1 else 0) + TimeoutsBeforeInterrupt(sigs[1..], winners[1..])
      case Interrupt => 0
      case Ignore => TimeoutsBeforeInterrupt(sigs[1..], winners[1..])
  }

  /** `s` repeated `k` times. */
  function Repeat<T>(s: seq<T>, k: nat): seq<T>
    decreases k
  {
    if k == 0 then [] else s + Repeat(s, k - 1)
  }

  /** A trace of log lines alone calls no hook. */
  lemma {:induction false} NoCalls(trace: seq<Effect>)
    requires forall i :: 0 <= i < |trace| ==> trace[i].Logged?
    ensures Calls(trace) == []
    decreases |trace|
  {
    if trace != [] {
      NoCalls(trace[1..]);
    }
  }

  /** Handling one stop signal calls each hook once, in order. */
  lemma StopEffectsCalls(sig: Signal, hooks: seq<Hook>, winner: Winner)
    ensures Calls(StopEffects(sig, hooks, winner)) == Indices(|hooks|)
  {
    var tail := if winner == TimerFired then [Logged(StopFailed(TimedOutMessage)), Logged(FailedGracefully)] else [];
    var head := [Logged(CaughtStop(sig))] + [Logged(if winner == Drained then ConnsCompleted else ShutdownTimedOut)];
    var rest := tail + [Logged(ShutDownGracefully)];
    assert StopEffects(sig, hooks, winner) == head + HookTrace(hooks) + rest;
    CallsAppend(head + HookTrace(hooks), rest);
    CallsAppend(head, HookTrace(hooks));
    HookTraceCalls(hooks);
    NoCalls(head);
    NoCalls(rest);
  }

  /** The handler panics exactly when a SIGINT arrives, and otherwise returns when the stream ends. */
  lemma {:induction false} HandlePanicsOnInterrupt(hooks: seq<Hook>, sigs: seq<Signal>, winners: seq<Winner>)
    requires |winners| == |sigs|
    ensures Handle(hooks, sigs, winners).exit.Panicked? <==> SIGINT in sigs
    ensures Handle(hooks, sigs, winners).exit in {Returned, Panicked(PanicExitMessage)}
    decreases |sigs|
  {
    if sigs != [] {
      HandlePanicsOnInterrupt(hooks, sigs[1..], winners[1..]);
      assert sigs == [sigs[0]] + sigs[1..];
    }
  }

  /** Every stop signal before a SIGINT runs all the hooks once more, in order; nothing else calls them. */
  lemma {:induction false} HandleCalls(hooks: seq<Hook>, sigs: seq<Signal>, winners: seq<Winner>)
    requires |winners| == |sigs|
    ensures Calls(Handle(hooks, sigs, winners).trace) == Repeat(Indices(|hooks|), StopsBeforeInterrupt(sigs))
    decreases |sigs|
  {
    if sigs != [] {
      var sig := sigs[0];
      match Action(sig)
      case Stop =>
        HandleCalls(hooks, sigs[1..], winners[1..]);
        CallsAppend(StopEffects(sig, hooks, winners[0]), Handle(hooks, sigs[1..], winners[1..]).trace);
        StopEffectsCalls(sig, hooks, winners[0]);
      case Interrupt =>
        assert Calls([Logged(CaughtPanic(sig))]) == [] by {
          assert [Logged(CaughtPanic(sig))][1..] == [];
        }
      case Ignore =>
        HandleCalls(hooks, sigs[1..], winners[1..]);
    }
  }

  /** The exit codes: a 0 for every stop signal handled, a 1 for every stop that timed out, and no other code. */
  lemma {:induction false} HandleCodes(hooks: seq<Hook>, sigs: seq<Signal>, winners: seq<Winner>)
    requires |winners| == |sigs|
    ensures multiset(Handle(hooks, sigs, winners).codes)[0] == StopsBeforeInterrupt(sigs)
    ensures multiset(Handle(hooks, sigs, winners).codes)[1] == TimeoutsBeforeInterrupt(sigs, winners)
    ensures |Handle(hooks, sigs, winners).codes| == StopsBeforeInterrupt(sigs) + TimeoutsBeforeInterrupt(sigs, winners)
    decreases |sigs|
  {
    if sigs != [] {
      var tl := Handle(hooks, sigs[1..], winners[1..]).codes;
      HandleCodes(hooks, sigs[1..], winners[1..]);
      if Action(sigs[0]) == Stop {
        var head := StopCodes(winners[0]);
        assert Handle(hooks, sigs, winners).codes == head + tl;
        assert multiset(head + tl) == multiset(head) + multiset(tl);
      }
    }
  }

  /**
   * With no return after a failed stop sends 1, the handler always goes on to
   * send 0: the last exit code sent is 0 whatever the outcome of the races.
   */
  lemma {:induction false} LastCodeIsZero(hooks: seq<Hook>, sigs: seq<Signal>, winners: seq<Winner>)
    requires |winners| == |sigs|
    ensures var codes := Handle(hooks, sigs, winners).codes; codes != [] ==> codes[|codes| - 1] == 0
    decreases |sigs|
  {
    if sigs != [] && Action(sigs[0]) != Interrupt {
      LastCodeIsZero(hooks, sigs[1..], winners[1..]);
    }
  }

  /** What a run of the signal handler is known to do, gathered for its callers. */
  lemma HandleSummary(hooks: seq<Hook>, sigs: seq<Signal>, winners: seq<Winner>, h: Handled)
    requires |winners| == |sigs| && h == Handle(hooks, sigs, winners)
    ensures h.exit.Panicked? <==> SIGINT in sigs
    ensures Calls(h.trace) == Repeat(Indices(|hooks|), StopsBeforeInterrupt(sigs))
    ensures multiset(h.codes)[0] == StopsBeforeInterrupt(sigs)
    ensures multiset(h.codes)[1] == TimeoutsBeforeInterrupt(sigs, winners)
    ensures |h.codes| == StopsBeforeInterrupt(sigs) + TimeoutsBeforeInterrupt(sigs, winners)
    ensures h.codes != [] ==> h.codes[|h.codes| - 1] == 0
  {
    HandlePanicsOnInterrupt(hooks, sigs, winners);
    HandleCalls(hooks, sigs, winners);
    HandleCodes(hooks, sigs, winners);
    LastCodeIsZero(hooks, sigs, winners);
  }

  /** The index of the first signal that stops the daemon, when one comes before any SIGINT. */
  function FirstStop(sigs: seq<Signal>): (k: nat)
    requires StopsBeforeInterrupt(sigs) > 0
    ensures k < |sigs| && Action(sigs[k]) == Stop
    ensures forall j :: 0 <= j < k ==> Action(sigs[j]) == Ignore
    decreases |sigs|
  {
    if Action(sigs[0]) == Stop then 0 else 1 + FirstStop(sigs[1..])
  }

  /**
   * The first exit code sent, the one a caller exiting on the first code uses,
   * is 1 exactly when the first stop timed out.
   */
  lemma {:induction false} FirstCodeReflectsFirstStop(hooks: seq<Hook>, sigs: seq<Signal>, winners: seq<Winner>)
    requires |winners| == |sigs|
    requires StopsBeforeInterrupt(sigs) > 0
    ensures Handle(hooks, sigs, winners).codes != []
    ensures Handle(hooks, sigs, winners).codes[0] == (if winners[FirstStop(sigs)] == TimerFired then 1 else 0)
    decreases |sigs|
  {
    if Action(sigs[0]) != Stop {
      FirstCodeReflectsFirstStop(hooks, sigs[1..], winners[1..]);
    }
  }


  /** A negative timeout is refused; a nil watcher cannot stop. */
  method BadTimeoutAndNilScenario() {
    var bad, badErr := NewWatcher(-1, []);
    assert bad == null && badErr == Some(Error(NegativeTimeoutMessage));
    var nilErr, nilTrace := OnStop(null, Drained);
    assert nilErr == Some(Error(OnStopNilMessage)) && nilTrace == [];
  }

  /** A watcher with no connection may stop with a drain. */
  method ValidScenario() {
    var w, wErr := NewWatcher(3000, []);
    var err, trace := OnStop(w, Drained);
    assert err == None;
  }

  /** An unclosed connection forces a timeout; once it is closed or hijacked, a drain is possible. */
  method StopScenario() {
    var w, wErr := NewWatcher(3000, [HookOk]);
    var exit := RecordConnState(w, StateNew);
    assert w.connsWG == 1;
    var err, trace := OnStop(w, TimerFired);
    assert err == Some(Error(TimedOutMessage)) && Calls(trace) == [0];

    exit := RecordConnState(w, StateClosed);
    err, trace := OnStop(w, Drained);
    assert err == None && Calls(trace) == [0];

    exit := RecordConnState(w, StateNew);
    exit := RecordConnState(w, StateHijacked);
    err, trace := OnStop(w, Drained);
    assert err == None;
  }

  /** Two connections open; during the grace window one closes and one is taken over. */
  method GraceWindowScenario() {
    var w, wErr := NewWatcher(3000, [HookOk]);
    var exit := RecordConnState(w, StateNew);
    exit := RecordConnState(w, StateNew);
    ReportAll(w, [StateClosed, StateHijacked]);
    var err, trace := OnStop(w, Drained);
    assert err == None;
  }

  /** A SIGTERM whose stop times out sends 1 and then 0. */
  method TimedOutSignalScenario() {
    var w, wErr := NewWatcher(3000, [HookOk]);
    var exit := RecordConnState(w, StateNew);
    var handled, codes, effects := SigHandle(w, [SIGTERM], [[]], [TimerFired]);
    assert handled == Returned && codes == [1, 0];
  }

  /** The open connection is closed before the SIGTERM's race is decided, so that stop drains and sends only 0. */
  method DrainedSignalScenario() {
    var w, wErr := NewWatcher(3000, [HookOk]);
    var exit := RecordConnState(w, StateNew);
    assert Counter(1, [StateClosed]) == 0;
    var handled, codes, effects := SigHandle(w, [SIGTERM], [[StateClosed]], [Drained]);
    assert handled == Returned && codes == [0] && w.connsWG == 0;
  }
}
