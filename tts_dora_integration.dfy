/**
 * The dataflow supervisor of the TTS application
 * (apps/mofa-tts/src/dora_integration.rs).
 *
 * The UI thread talks to a background worker through a bounded command
 * queue (capacity 100) and an event queue; the worker owns the dispatcher
 * of the running dataflow. Each iteration of the worker loop checks the
 * stop signal, drains every queued command (start, stop, send a prompt with
 * up to twenty attempts) and then runs a health check that is skipped for
 * ten seconds after a start and otherwise runs at most every two seconds.
 *
 * The threads are serialised: every method below is one atomic step, the
 * clock is an integer number of milliseconds read once per iteration, and
 * the results of the foreign calls (controller creation, dispatcher start,
 * status query, bridge send) are parameters.
 */
module TtsDoraIntegration {
  import opened Wrappers

  const CommandCapacity: nat := 100
  const SendRetries: nat := 20
  const StatusCheckIntervalMs: int := 2000
  const StartupGracePeriodMs: int := 10000
  const TtsPromptBridge: string := "mofa-prompt-input-tts"
  const GenericPromptBridge: string := "mofa-prompt-input"
  const PromptOutput: string := "prompt"

  /** Commands from the UI to the worker. */
  datatype DoraCommand =
    | StartDataflow(dataflowPath: string, envVars: map<string, string>)
    | StopDataflow
    | SendPrompt(message: string)

  /** Events from the worker to the UI. */
  datatype DoraEvent = DataflowStarted(dataflowId: string) | DataflowStopped | Error(message: string)

  /** The dispatcher the worker owns: the id its start returned and the bridges it exposes by name. */
  datatype Dispatcher = Dispatcher(dataflowId: string, bridges: set<string>)

  /** What creating the controller and starting the dispatcher gave. */
  datatype StartOutcome =
    | ControllerFailed(error: string)
    | StartFailed(error: string)
    | Started(dataflowId: string, bridges: set<string>)

  /** What one `bridge.send` call gave. */
  datatype SendResult = Sent | SendFailed(error: string)

  /** What the controller's status query gave. */
  datatype StatusOutcome = Status(isRunning: bool) | StatusFailed(error: string)

  /**
   * The foreign results one command meets: the start outcome (read by a
   * start command) and the result of each send attempt, numbered from 1
   * (read by a prompt command).
   */
  datatype CommandOutcome = CommandOutcome(start: StartOutcome, send: nat -> SendResult)

  /** A message a bridge accepted. */
  datatype Delivery = Delivery(bridge: string, output: string, text: string)

  /**
   * The worker's view: the shared running flag, the dispatcher, the start
   * time, the time of the last status check, the event queue, and two logs
   * of foreign calls (dispatchers whose `stop` was called, messages sent).
   */
  datatype Worker = Worker(running: bool, dispatcher: Option<Dispatcher>, startTime: Option<int>,
                           lastStatusCheck: int, events: seq<DoraEvent>,
                           stopCalls: seq<Dispatcher>, deliveries: seq<Delivery>)

  /** The worker as it starts: no dataflow, nothing sent. */
  function InitialWorker(now: int): Worker
  {
    Worker(false, None, None, now, [], [], [])
  }

  /**
   * What the code keeps while the worker runs: the running flag is set
   * exactly when a start time is recorded, and only while a dispatcher is
   * held. (A dispatcher can be held while the flag is clear.)
   */
  ghost predicate WorkerInv(w: Worker)
  {
    (w.running <==> w.startTime.Some?) && (w.running ==> w.dispatcher.Some?)
  }

  // ---------------------------------------------------------------- retry

  /** The retried send from attempt `attempt` on: the first success, or the last attempt's result. */
  function RetryFrom(send: nat -> SendResult, attempt: nat): SendResult
    requires 1 <= attempt <= SendRetries
    decreases SendRetries - attempt
  {
    if send(attempt).Sent? || attempt == SendRetries then send(attempt)
    else RetryFrom(send, attempt + 1)
  }

  /** The result of the retry closure: attempts 1 to 20. */
  function RetryResult(send: nat -> SendResult): (r: SendResult)
    ensures r.Sent? <==> exists k :: 1 <= k <= SendRetries && send(k).Sent?
    ensures r.SendFailed? ==> r == send(SendRetries)
  {
    RetryResultSpec(send, 1);
    RetryFrom(send, 1)
  }

  /**
   * The retry succeeds exactly when one of the twenty attempts succeeds,
   * and otherwise reports the twentieth attempt's error.
   */
  lemma {:induction false} RetryResultSpec(send: nat -> SendResult, attempt: nat)
    requires 1 <= attempt <= SendRetries
    ensures RetryFrom(send, attempt).Sent? <==> exists k :: attempt <= k <= SendRetries && send(k).Sent?
    ensures RetryFrom(send, attempt).SendFailed? ==> RetryFrom(send, attempt) == send(SendRetries)
    decreases SendRetries - attempt
  {
    if !send(attempt).Sent? && attempt < SendRetries {
      RetryResultSpec(send, attempt + 1);
      assert forall k :: attempt <= k <= SendRetries && send(k).Sent? ==> attempt + 1 <= k;
    }
  }

  /**
   * The `send_with_retry` closure: calls the bridge up to twenty times and
   * returns at the first success, or with the error of the twentieth call.
   */
  method SendWithRetry(send: nat -> SendResult) returns (r: SendResult, attempts: nat)
    ensures 1 <= attempts <= SendRetries
    ensures forall k :: 1 <= k < attempts ==> send(k).SendFailed?
    ensures r == send(attempts)
    ensures r.Sent? || attempts == SendRetries
    ensures r == RetryResult(send)
  {
    var attempt := 1;
    while attempt <= SendRetries
      invariant 1 <= attempt <= SendRetries
      invariant forall k :: 1 <= k < attempt ==> send(k).SendFailed?
      invariant RetryFrom(send, attempt) == RetryResult(send)
    {
      var result := send(attempt);
      if result.Sent? {
        return Sent, attempt;
      }
      if attempt == SendRetries {
        return result, attempt;
      }
      attempt := attempt + 1;
    }
    r, attempts := SendFailed("retry exhausted"), SendRetries;
  }

  // ------------------------------------------------------------ commands

  /** The bridge a prompt goes to: the TTS-specific one if present, else the generic one. */
  function PromptBridge(d: Dispatcher): (b: Option<string>)
    ensures b.Some? ==> b.value in d.bridges
    ensures b.None? <==> TtsPromptBridge !in d.bridges && GenericPromptBridge !in d.bridges
    ensures TtsPromptBridge in d.bridges ==> b == Some(TtsPromptBridge)
    ensures TtsPromptBridge !in d.bridges && GenericPromptBridge in d.bridges ==> b == Some(GenericPromptBridge)
  {
    if TtsPromptBridge in d.bridges then Some(TtsPromptBridge)
    else if GenericPromptBridge in d.bridges then Some(GenericPromptBridge)
    else None
  }

  /** The events one command emits. */
  function CommandEvents(cmd: DoraCommand, o: CommandOutcome): seq<DoraEvent>
  {
    match cmd
    case StartDataflow(_, _) =>
      (match o.start
       case ControllerFailed(e) => [Error("Failed to create controller: " + e)]
       case StartFailed(e) => [Error("Failed to start dataflow: " + e)]
       case Started(id, _) => [DataflowStarted(id)])
    case StopDataflow => [DataflowStopped]
    case SendPrompt(_) => []
  }

  /** The worker processing one command at time `now`. */
  function ApplyCommand(w: Worker, cmd: DoraCommand, o: CommandOutcome, now: int): (r: Worker)
    ensures r.events == w.events + CommandEvents(cmd, o) && r.lastStatusCheck == w.lastStatusCheck
    ensures r.deliveries == w.deliveries || (cmd.SendPrompt? && |r.deliveries| == |w.deliveries| + 1)
  {
    match cmd
    case StartDataflow(_, _) =>
      (match o.start
       case Started(id, bridges) =>
         w.(running := true, startTime := Some(now), events := w.events + CommandEvents(cmd, o),
            dispatcher := Some(Dispatcher(id, bridges)))
       case _ => w.(events := w.events + CommandEvents(cmd, o)))
    case StopDataflow =>
      w.(dispatcher := None, running := false, startTime := None,
         events := w.events + CommandEvents(cmd, o),
         stopCalls := if w.dispatcher.Some? then w.stopCalls + [w.dispatcher.value] else w.stopCalls)
    case SendPrompt(message) =>
      if w.dispatcher.None? then w
      else
        match PromptBridge(w.dispatcher.value)
        case None => w
        case Some(b) =>
          if RetryResult(o.send).Sent? then w.(deliveries := w.deliveries + [Delivery(b, PromptOutput, message)])
          else w
  }

  /** The worker processing `cmds` in order; the i-th command meets `oracle(i)`. */
  function ApplyAll(w: Worker, cmds: seq<DoraCommand>, oracle: nat -> CommandOutcome, now: int): Worker
    decreases |cmds|
  {
    if cmds == [] then w
    else
      var n := |cmds| - 1;
      ApplyCommand(ApplyAll(w, cmds[..n], oracle, now), cmds[n], oracle(n), now)
  }

  /** The events processing `cmds` emits, in order. */
  function DrainEvents(cmds: seq<DoraCommand>, oracle: nat -> CommandOutcome): seq<DoraEvent>
    decreases |cmds|
  {
    if cmds == [] then []
    else
      var n := |cmds| - 1;
      DrainEvents(cmds[..n], oracle) + CommandEvents(cmds[n], oracle(n))
  }

  /** Start and stop commands, the only ones that emit an event. */
  function LifecycleCount(cmds: seq<DoraCommand>): nat
  {
    if cmds == [] then 0
    else (if cmds[0].SendPrompt? then 0 else 1) + LifecycleCount(cmds[1..])
  }

  // --------------------------------------------------------- health check

  /** Inside the ten seconds after a successful start. */
  predicate InGracePeriod(w: Worker, now: int)
  {
    w.startTime.Some? && now - w.startTime.value < StartupGracePeriodMs
  }

  /** The periodic status check at time `now`. */
  function HealthCheck(w: Worker, now: int, status: StatusOutcome): (r: Worker)
    ensures r.dispatcher == w.dispatcher && r.stopCalls == w.stopCalls && r.deliveries == w.deliveries
    ensures r.running ==> w.running
    ensures r.events == w.events || (w.running && !r.running && r.events == w.events + [DataflowStopped])
  {
    if InGracePeriod(w, now) || now - w.lastStatusCheck < StatusCheckIntervalMs then w
    else if w.dispatcher.None? then w.(lastStatusCheck := now)
    else
      match status
      case StatusFailed(_) => w.(lastStatusCheck := now)
      case Status(isRunning) =>
        if w.running && !isRunning then
          w.(lastStatusCheck := now, running := false, startTime := None,
             events := w.events + [DataflowStopped])
        else w.(lastStatusCheck := now)
  }

  /** Leaving the loop: the dispatcher still held is stopped; the running flag is left as it is. */
  function Shutdown(w: Worker): (r: Worker)
    ensures r.dispatcher.None? && r.running == w.running && r.events == w.events && r.deliveries == w.deliveries
    ensures w.dispatcher.Some? ==> r.stopCalls == w.stopCalls + [w.dispatcher.value]
    ensures w.dispatcher.None? ==> r.stopCalls == w.stopCalls
  {
    w.(dispatcher := None,
       stopCalls := if w.dispatcher.Some? then w.stopCalls + [w.dispatcher.value] else w.stopCalls)
  }

  // -------------------------------------------------------------- lemmas

  /**
   * A start whose controller and dispatcher come up sets the flag, records
   * the start time, emits `DataflowStarted` and holds the new dispatcher in
   * place of any previous one; a failed start emits one error with the
   * source's prefix and changes nothing else.
   */
  lemma StartEffect(w: Worker, path: string, env: map<string, string>, o: CommandOutcome, now: int)
    ensures var w' := ApplyCommand(w, StartDataflow(path, env), o, now);
      match o.start
      case Started(id, bridges) =>
        w'.running && w'.startTime == Some(now) && w'.dispatcher == Some(Dispatcher(id, bridges))
        && w'.events == w.events + [DataflowStarted(id)] && w'.stopCalls == w.stopCalls
      case ControllerFailed(e) => w' == w.(events := w.events + [Error("Failed to create controller: " + e)])
      case StartFailed(e) => w' == w.(events := w.events + [Error("Failed to start dataflow: " + e)])
  {
  }

  /**
   * A stop clears the dispatcher, the flag and the start time and emits
   * `DataflowStopped`, whether or not a dispatcher was held; `stop` is
   * called on the dispatcher that was held, if any.
   */
  lemma StopEffect(w: Worker, o: CommandOutcome, now: int)
    ensures var w' := ApplyCommand(w, StopDataflow, o, now);
      && !w'.running && w'.dispatcher.None? && w'.startTime.None?
      && w'.events == w.events + [DataflowStopped]
      && w'.stopCalls == (if w.dispatcher.Some? then w.stopCalls + [w.dispatcher.value] else w.stopCalls)
  {
  }

  /**
   * A prompt emits nothing and touches neither the flag nor the
   * dispatcher; it is delivered once, to the preferred bridge, exactly when
   * a dispatcher with a prompt bridge is held and one of the twenty
   * attempts succeeds.
   */
  lemma SendPromptEffect(w: Worker, message: string, o: CommandOutcome, now: int)
    ensures var w' := ApplyCommand(w, SendPrompt(message), o, now);
      && w'.events == w.events && w'.running == w.running && w'.dispatcher == w.dispatcher
      && w'.startTime == w.startTime && w'.stopCalls == w.stopCalls
      && (if w.dispatcher.Some? && PromptBridge(w.dispatcher.value).Some?
             && exists k :: 1 <= k <= SendRetries && o.send(k).Sent?
          then w'.deliveries == w.deliveries + [Delivery(PromptBridge(w.dispatcher.value).value, PromptOutput, message)]
          else w'.deliveries == w.deliveries)
  {
    RetryResultSpec(o.send, 1);
  }

  /** Every command keeps the worker invariant. */
  lemma ApplyCommandKeepsInv(w: Worker, cmd: DoraCommand, o: CommandOutcome, now: int)
    requires WorkerInv(w)
    ensures WorkerInv(ApplyCommand(w, cmd, o, now))
  {
  }

  /** Processing commands emits exactly the commands' own events, in command order (FIFO). */
  lemma {:induction false} ApplyAllEvents(w: Worker, cmds: seq<DoraCommand>, oracle: nat -> CommandOutcome, now: int)
    ensures ApplyAll(w, cmds, oracle, now).events == w.events + DrainEvents(cmds, oracle)
    decreases |cmds|
  {
    if cmds != [] {
      var n := |cmds| - 1;
      ApplyAllEvents(w, cmds[..n], oracle, now);
    }
  }

  /** Each start or stop emits exactly one event and each prompt none. */
  lemma {:induction false} DrainEventCount(cmds: seq<DoraCommand>, oracle: nat -> CommandOutcome)
    ensures |DrainEvents(cmds, oracle)| == LifecycleCount(cmds)
    decreases |cmds|
  {
    if cmds != [] {
      var n := |cmds| - 1;
      DrainEventCount(cmds[..n], oracle);
      LifecycleCountSnoc(cmds[..n], cmds[n]);
      assert cmds[..n] + [cmds[n]] == cmds;
    }
  }

  lemma {:induction false} LifecycleCountSnoc(cmds: seq<DoraCommand>, c: DoraCommand)
    ensures LifecycleCount(cmds + [c]) == LifecycleCount(cmds) + (if c.SendPrompt? then 0 else 1)
    decreases |cmds|
  {
    if cmds != [] {
      assert (cmds + [c])[1..] == cmds[1..] + [c];
      LifecycleCountSnoc(cmds[1..], c);
    }
  }

  /** Draining any sequence of commands keeps the worker invariant. */
  lemma {:induction false} ApplyAllKeepsInv(w: Worker, cmds: seq<DoraCommand>, oracle: nat -> CommandOutcome, now: int)
    requires WorkerInv(w)
    ensures WorkerInv(ApplyAll(w, cmds, oracle, now))
    decreases |cmds|
  {
    if cmds != [] {
      var n := |cmds| - 1;
      ApplyAllKeepsInv(w, cmds[..n], oracle, now);
      ApplyCommandKeepsInv(ApplyAll(w, cmds[..n], oracle, now), cmds[n], oracle(n), now);
    }
  }

  /**
   * The last stop or successful start of a drain decides the running flag:
   * prompts and failed starts after it change nothing.
   */
  lemma {:induction false} LastLifecycleCommandDecides(w: Worker, cmds: seq<DoraCommand>, oracle: nat -> CommandOutcome,
                                                      now: int, j: nat)
    requires j < |cmds|
    requires cmds[j].StopDataflow? || (cmds[j].StartDataflow? && oracle(j).start.Started?)
    requires forall k :: j < k < |cmds| ==> cmds[k].SendPrompt? || (cmds[k].StartDataflow? && !oracle(k).start.Started?)
    ensures ApplyAll(w, cmds, oracle, now).running == cmds[j].StartDataflow?
    ensures cmds[j].StopDataflow? ==> ApplyAll(w, cmds, oracle, now).dispatcher.None?
    decreases |cmds|
  {
    var n := |cmds| - 1;
    if j < n {
      assert cmds[..n][j] == cmds[j];
      assert forall k :: j < k < n ==> cmds[..n][k] == cmds[k];
      LastLifecycleCommandDecides(w, cmds[..n], oracle, now, j);
      var before := ApplyAll(w, cmds[..n], oracle, now);
      assert ApplyAll(w, cmds, oracle, now) == ApplyCommand(before, cmds[n], oracle(n), now);
      if cmds[n].SendPrompt? {
        SendPromptEffect(before, cmds[n].message, oracle(n), now);
      } else {
        assert !oracle(n).start.Started?;
      }
    }
  }

  /** The health check runs only outside the grace period and two seconds after the previous check. */
  lemma HealthCheckGate(w: Worker, now: int, status: StatusOutcome)
    ensures InGracePeriod(w, now) || now - w.lastStatusCheck < StatusCheckIntervalMs ==> HealthCheck(w, now, status) == w
    ensures !InGracePeriod(w, now) && now - w.lastStatusCheck >= StatusCheckIntervalMs ==>
              HealthCheck(w, now, status).lastStatusCheck == now
  {
  }

  /**
   * The check clears the flag and emits `DataflowStopped` only when the
   * flag was set, a dispatcher is held and the status says not running;
   * a failed status query changes nothing but the check time; the
   * dispatcher is never dropped.
   */
  lemma HealthCheckEffect(w: Worker, now: int, status: StatusOutcome)
    ensures var w' := HealthCheck(w, now, status);
      && w'.dispatcher == w.dispatcher && w'.stopCalls == w.stopCalls && w'.deliveries == w.deliveries
      && (w'.running != w.running <==>
            !InGracePeriod(w, now) && now - w.lastStatusCheck >= StatusCheckIntervalMs
            && w.dispatcher.Some? && w.running && status == Status(false))
      && (w'.running != w.running ==> !w'.running && w'.events == w.events + [DataflowStopped])
      && (w'.running == w.running ==> w'.events == w.events)
      && (status.StatusFailed? ==> w' == w.(lastStatusCheck := w'.lastStatusCheck))
  {
  }

  /** The health check keeps the worker invariant. */
  lemma HealthCheckKeepsInv(w: Worker, now: int, status: StatusOutcome)
    requires WorkerInv(w)
    ensures WorkerInv(HealthCheck(w, now, status))
  {
  }

  /**
   * The code does not keep "running exactly when a dispatcher is held":
   * after the health check sees the dataflow die, the flag is clear and
   * the dead dispatcher is still held.
   */
  lemma DispatcherOutlivesUnexpectedStop(id: string, bridges: set<string>, send: nat -> SendResult)
    ensures var w1 := ApplyCommand(InitialWorker(0), StartDataflow("tts.yml", map[]),
                                   CommandOutcome(Started(id, bridges), send), 0);
            var w2 := HealthCheck(w1, StartupGracePeriodMs, Status(false));
            !w2.running && w2.dispatcher == Some(Dispatcher(id, bridges))
            && w2.events == [DataflowStarted(id), DataflowStopped]
  {
  }

  /**
   * A second successful start replaces the held dispatcher without calling
   * `stop` on it.
   */
  lemma RestartOrphansDispatcher(w: Worker, path: string, o: CommandOutcome, now: int)
    requires w.dispatcher.Some? && o.start.Started?
    ensures var w' := ApplyCommand(w, StartDataflow(path, map[]), o, now);
      && w'.dispatcher == Some(Dispatcher(o.start.dataflowId, o.start.bridges))
      && w'.stopCalls == w.stopCalls
  {
  }

  /**
   * Start, a prompt with no prompt bridge, stop: the events are
   * `DataflowStarted` then `DataflowStopped`, nothing is delivered, the
   * flag is clear and the dispatcher was stopped once.
   */
  lemma StartSendStopScenario(id: string, oracle: nat -> CommandOutcome, now: int)
    requires oracle(0).start == Started(id, {"other-bridge"})
    ensures var w := ApplyAll(InitialWorker(now), [StartDataflow("tts.yml", map[]), SendPrompt("hello"), StopDataflow],
                              oracle, now);
      && w.events == [DataflowStarted(id), DataflowStopped]
      && w.deliveries == [] && !w.running && w.dispatcher.None?
      && w.stopCalls == [Dispatcher(id, {"other-bridge"})]
  {
    var cmds := [StartDataflow("tts.yml", map[]), SendPrompt("hello"), StopDataflow];
    var w0 := InitialWorker(now);
    var first := [StartDataflow("tts.yml", map[])];
    assert cmds[..2] == first + [SendPrompt("hello")];
    assert (first + [SendPrompt("hello")])[..1] == first;
    assert first[..0] == [];
    var w1 := ApplyAll(w0, first, oracle, now);
    assert w1 == ApplyCommand(ApplyAll(w0, [], oracle, now), StartDataflow("tts.yml", map[]), oracle(0), now);
    assert w1.dispatcher == Some(Dispatcher(id, {"other-bridge"}));
    assert PromptBridge(Dispatcher(id, {"other-bridge"})).None?;
    var w2 := ApplyAll(w0, cmds[..2], oracle, now);
    assert w2 == ApplyCommand(w1, SendPrompt("hello"), oracle(1), now);
    assert w2 == w1;
    assert ApplyAll(w0, cmds, oracle, now) == ApplyCommand(w2, StopDataflow, oracle(2), now);
  }

  // ---------------------------------------------------------- supervisor

  class DoraIntegration {
    /** Commands the UI sent and the worker has not taken yet. */
    var commandQueue: seq<DoraCommand>
    var running: bool
    var dispatcher: Option<Dispatcher>
    var startTime: Option<int>
    var lastStatusCheck: int
    /** Events the worker sent and the UI has not polled yet. */
    var eventQueue: seq<DoraEvent>
    var stopCalls: seq<Dispatcher>
    var deliveries: seq<Delivery>
    /** The stop signal the teardown sends. */
    var stopSignal: bool
    var workerExited: bool

    /** The worker-side state as a value. */
    function State(): Worker
      reads this
    {
      Worker(running, dispatcher, startTime, lastStatusCheck, eventQueue, stopCalls, deliveries)
    }

    ghost predicate Valid()
      reads this
    {
      |commandQueue| <= CommandCapacity && (!workerExited ==> WorkerInv(State()))
    }

    /** `DoraIntegration::new`: empty queues, flag clear, worker started at `now`. */
    constructor (now: int)
      ensures Valid()
      ensures State() == InitialWorker(now) && commandQueue == []
      ensures !stopSignal && !workerExited
    {
      commandQueue := [];
      running := false;
      dispatcher := None;
      startTime := None;
      lastStatusCheck := now;
      eventQueue := [];
      stopCalls := [];
      deliveries := [];
      stopSignal := false;
      workerExited := false;
    }

    /** Non-blocking send: accepted exactly when fewer than 100 commands are queued. */
    method SendCommand(cmd: DoraCommand) returns (accepted: bool)
      requires Valid()
      modifies this`commandQueue
      ensures Valid()
      ensures accepted <==> |old(commandQueue)| < CommandCapacity
      ensures commandQueue == if accepted then old(commandQueue) + [cmd] else old(commandQueue)
    {
      accepted := |commandQueue| < CommandCapacity;
      if accepted {
        commandQueue := commandQueue + [cmd];
      }
    }

    /** Queues a start of the dataflow at `path` with no environment variables. */
    method StartDataflowAt(path: string) returns (accepted: bool)
      requires Valid()
      modifies this`commandQueue
      ensures Valid()
      ensures accepted <==> |old(commandQueue)| < CommandCapacity
      ensures commandQueue == if accepted then old(commandQueue) + [StartDataflow(path, map[])] else old(commandQueue)
    {
      accepted := SendCommand(StartDataflow(path, map[]));
    }

    /** Queues a stop. */
    method RequestStop() returns (accepted: bool)
      requires Valid()
      modifies this`commandQueue
      ensures Valid()
      ensures accepted <==> |old(commandQueue)| < CommandCapacity
      ensures commandQueue == if accepted then old(commandQueue) + [StopDataflow] else old(commandQueue)
    {
      accepted := SendCommand(StopDataflow);
    }

    /** Queues a prompt for the TTS engine. */
    method SendPromptText(message: string) returns (accepted: bool)
      requires Valid()
      modifies this`commandQueue
      ensures Valid()
      ensures accepted <==> |old(commandQueue)| < CommandCapacity
      ensures commandQueue == if accepted then old(commandQueue) + [SendPrompt(message)] else old(commandQueue)
    {
      accepted := SendCommand(SendPrompt(message));
    }

    /** Takes every queued event, oldest first, leaving the event queue empty. */
    method PollEvents() returns (events: seq<DoraEvent>)
      requires Valid()
      modifies this`eventQueue
      ensures Valid()
      ensures events == old(eventQueue) && eventQueue == []
    {
      events := [];
      while eventQueue != []
        invariant Valid()
        invariant events + eventQueue == old(eventQueue)
        decreases |eventQueue|
      {
        events := events + [eventQueue[0]];
        eventQueue := eventQueue[1..];
      }
    }

    /** The shared running flag. */
    function IsRunning(): (r: bool)
      reads this
      ensures Valid() && !workerExited ==> (r <==> State().startTime.Some?) && (r ==> State().dispatcher.Some?)
    {
      running
    }

    /** The worker handling one command at time `now`. */
    method ProcessCommand(cmd: DoraCommand, o: CommandOutcome, now: int)
      modifies this`running, this`dispatcher, this`startTime, this`eventQueue, this`stopCalls, this`deliveries
      ensures State() == ApplyCommand(old(State()), cmd, o, now)
    {
      match cmd {
        case StartDataflow(_, _) =>
          match o.start {
            case ControllerFailed(e) =>
              eventQueue := eventQueue + [Error("Failed to create controller: " + e)];
            case StartFailed(e) =>
              eventQueue := eventQueue + [Error("Failed to start dataflow: " + e)];
            case Started(id, bridges) =>
              running := true;
              startTime := Some(now);
              eventQueue := eventQueue + [DataflowStarted(id)];
              dispatcher := Some(Dispatcher(id, bridges));
          }
        case StopDataflow =>
          if dispatcher.Some? {
            stopCalls := stopCalls + [dispatcher.value];
            dispatcher := None;
          }
          running := false;
          startTime := None;
          eventQueue := eventQueue + [DataflowStopped];
        case SendPrompt(message) =>
          if dispatcher.Some? {
            var bridge := PromptBridge(dispatcher.value);
            if bridge.Some? {
              var result, _ := SendWithRetry(o.send);
              if result.Sent? {
                deliveries := deliveries + [Delivery(bridge.value, PromptOutput, message)];
              }
            }
          }
      }
    }

    /** The `while let` loop: takes and processes every queued command in order. */
    method DrainCommands(oracle: nat -> CommandOutcome, now: int)
      modifies this`commandQueue, this`running, this`dispatcher, this`startTime, this`eventQueue,
               this`stopCalls, this`deliveries
      ensures commandQueue == []
      ensures State() == ApplyAll(old(State()), old(commandQueue), oracle, now)
    {
      ghost var cmds := commandQueue;
      var i := 0;
      while commandQueue != []
        invariant 0 <= i <= |cmds| && commandQueue == cmds[i..]
        invariant State() == ApplyAll(old(State()), cmds[..i], oracle, now)
        decreases |commandQueue|
      {
        var cmd := commandQueue[0];
        commandQueue := commandQueue[1..];
        assert cmds[..i + 1][..i] == cmds[..i];
        ProcessCommand(cmd, oracle(i), now);
        i := i + 1;
      }
      assert cmds[..i] == cmds;
    }

    /** The periodic status check at time `now`. */
    method CheckStatus(now: int, status: StatusOutcome)
      modifies this`running, this`startTime, this`eventQueue, this`lastStatusCheck
      ensures State() == HealthCheck(old(State()), now, status)
    {
      var inGracePeriod := startTime.Some? && now - startTime.value < StartupGracePeriodMs;
      if !inGracePeriod && now - lastStatusCheck >= StatusCheckIntervalMs {
        lastStatusCheck := now;
        if dispatcher.Some? {
          match status {
            case Status(isRunning) =>
              var wasRunning := running;
              if wasRunning && !isRunning {
                running := false;
                startTime := None;
                eventQueue := eventQueue + [DataflowStopped];
              }
            case StatusFailed(_) =>
          }
        }
      }
    }

    /** After the loop: stop the dispatcher still held; the worker ends. */
    method ExitWorker()
      modifies this`dispatcher, this`stopCalls, this`workerExited
      ensures workerExited
      ensures State() == Shutdown(old(State()))
    {
      if dispatcher.Some? {
        stopCalls := stopCalls + [dispatcher.value];
        dispatcher := None;
      }
      workerExited := true;
    }

    /**
     * One iteration of `run_worker`: the stop signal first (then the worker
     * ends and queued commands stay unprocessed), else drain the commands
     * and run the health check.
     */
    method RunIteration(now: int, oracle: nat -> CommandOutcome, status: StatusOutcome) returns (exited: bool)
      requires Valid() && !workerExited
      modifies this
      ensures Valid()
      ensures exited == old(stopSignal) && workerExited == exited && stopSignal == old(stopSignal)
      ensures exited ==> State() == Shutdown(old(State())) && commandQueue == old(commandQueue)
      ensures !exited ==> commandQueue == []
                          && State() == HealthCheck(ApplyAll(old(State()), old(commandQueue), oracle, now), now, status)
    {
      if stopSignal {
        ExitWorker();
        return true;
      }
      ghost var before := State();
      DrainCommands(oracle, now);
      ApplyAllKeepsInv(before, old(commandQueue), oracle, now);
      ghost var drained := State();
      CheckStatus(now, status);
      HealthCheckKeepsInv(drained, now, status);
      exited := false;
    }

    /**
     * Teardown: send the stop signal, then join the worker, which sees the
     * signal at the top of its next iteration and stops the dispatcher.
     */
    method Close()
      requires Valid()
      modifies this
      ensures Valid()
      ensures stopSignal && workerExited
      ensures !old(workerExited) ==> State() == Shutdown(old(State()))
      ensures old(workerExited) ==> State() == old(State())
      ensures commandQueue == old(commandQueue)
    {
      stopSignal := true;
      if !workerExited {
        var _ := RunIteration(lastStatusCheck, _ => CommandOutcome(ControllerFailed(""), _ => Sent), StatusFailed(""));
      }
    }
  }
}
