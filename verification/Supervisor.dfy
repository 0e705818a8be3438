/**
  The application supervisor of the realm: `SimpleApplicationHandler` (the caller's side)
  and one `WardenThread` (a worker) for every process that was ever started.

  The two sides are separate tasks that talk over two channels of capacity one, and the
  supervised process may exit at any moment, so the model is a transition system: `Next`
  performs one atomic action of one party, or is `None` when that action is not enabled.
 */
module Supervisor {
  import opened Outcomes

  datatype Request = Stop | Kill | TryWait

  datatype Response = MaybeExited(status: Option<int>) | Stopped

  /** A child process: running, exited but not yet waited for, or waited for (it has no pid any more). */
  datatype Process = Running | Exited(status: int) | Reaped(status: int)

  /** Where a worker stands in `WardenThread`. */
  datatype Point =
    | Select                             // the select of event_loop
    | AwaitExit(req: Request)            // after_exit, on behalf of stop_and_respond
    | AwaitRequest                       // process_exited waits for one more request
    | Reply(resp: Response, last: bool)  // send_response; last if process_exited sends it
    | CheckRunning                       // the is_app_running test that follows handle_request
    | Cleanup                            // ensure_app_is_stopped
    | Finished

  /** A worker with its child and its ends of the two channels; `open` while the caller keeps the other ends. */
  datatype Worker = Worker(
    at: Point, child: Process, request: Option<Request>, response: Option<Response>, open: bool,
    stdoutOpen: bool, stderrOpen: bool)

  /** Where the caller stands inside stop, kill or try_wait. */
  datatype Caller = Idle | Sending(req: Request) | Awaiting(req: Request) | Joining(req: Request, resp: Response)

  /** What the calls returned so far. */
  datatype Outcome =
    | Started(worker: nat)
    | StartFailed
    | AppNotRunning
    | StopDone(worker: nat)
    | StillRunning(worker: nat)
    | ExitReported(worker: nat, status: int)
    | InvalidResponse
    | RequestChannelError
    | ChannelClosed

  datatype System = System(
    workers: seq<Worker>, channel: Option<nat>, thread: Option<nat>, caller: Caller, log: seq<Outcome>)

  datatype WorkerStep =
    | TakeRequest
    | SeeClosed
    | SeeExit
    | Reap
    | Respond
    | Check
    | CleanUp(killed: int)
    | ReadLine(stdout: bool, eof: bool)

  datatype Action =
    | Start(spawned: bool)
    | Call(req: Request)
    | Send
    | Receive
    | Join
    | Work(w: nat, step: WorkerStep)
    | ProcessExits(w: nat, status: int)

  const Init := System([], None, None, Idle, [])

  // ----- one action -----

  predicate Terminal(resp: Response) {
    resp.Stopped? || resp.status.Some?
  }

  /** The reply that after_exit builds. */
  function AfterExit(req: Request, status: int): Response {
    if req.TryWait? then MaybeExited(Some(status)) else Stopped
  }

  function TakeRequestAt(w: Worker): Option<Worker> {
    if w.request.None? then None
    else
      var taken := w.(request := None);
      match w.at
      case Select =>
        if !w.request.value.TryWait? then Some(taken.(at := AwaitExit(w.request.value)))
        else if w.child.Running? then Some(taken.(at := Reply(MaybeExited(None), false)))
        else Some(taken.(child := Reaped(w.child.status), at := Reply(MaybeExited(Some(w.child.status)), false)))
      case AwaitRequest =>
        if w.child.Running? then None
        else Some(taken.(at := Reply(AfterExit(w.request.value, w.child.status), true)))
      case _ => None
  }

  /** One atomic step of a worker. A refused reply (its receiver is gone) ends the worker without any clean-up. */
  function StepWorker(w: Worker, step: WorkerStep): Option<Worker> {
    match step
    case TakeRequest => TakeRequestAt(w)
    case SeeClosed =>
      if (w.at.Select? || w.at.AwaitRequest?) && w.request.None? && !w.open then Some(w.(at := Cleanup)) else None
    case SeeExit =>
      if w.at.Select? && w.child.Exited? then Some(w.(child := Reaped(w.child.status), at := AwaitRequest)) else None
    case Reap =>
      if w.at.AwaitExit? && !w.child.Running?
      then Some(w.(child := Reaped(w.child.status), at := Reply(AfterExit(w.at.req, w.child.status), false)))
      else None
    case Respond =>
      if !w.at.Reply? then None
      else if !w.open then Some(w.(at := Finished))
      else if w.response.Some? then None
      else Some(w.(response := Some(w.at.resp), at := if w.at.last then Cleanup else CheckRunning))
    case Check =>
      if w.at.CheckRunning? then Some(w.(at := if w.child.Reaped? then Cleanup else Select)) else None
    case CleanUp(killed) =>
      if !w.at.Cleanup? then None
      else
        var status := if w.child.Running? then killed else w.child.status;
        Some(w.(child := Reaped(status), at := Finished))
    case ReadLine(stdout, eof) =>
      if !w.at.Select? then None
      else if stdout then (if w.stdoutOpen then Some(w.(stdoutOpen := !eof)) else None)
      else if w.stderrOpen then Some(w.(stderrOpen := !eof)) else None
  }

  /** `start` replaces the channel, which closes it for the worker that had it. */
  function CloseCurrent(s: System): seq<Worker> {
    if s.channel.Some? && s.channel.value < |s.workers|
    then s.workers[s.channel.value := s.workers[s.channel.value].(open := false)]
    else s.workers
  }

  const NewWorker := Worker(Select, Running, None, None, true, true, true)

  function DoStart(s: System, spawned: bool): System {
    if !spawned then s.(log := s.log + [StartFailed])
    else
      var id := |s.workers|;
      System(CloseCurrent(s) + [NewWorker], Some(id), Some(id), Idle, s.log + [Started(id)])
  }

  function DoReceive(s: System, id: nat, req: Request): Option<System>
    requires id < |s.workers|
  {
    var w := s.workers[id];
    if w.response.None? then
      if w.at.Finished? then Some(s.(caller := Idle, log := s.log + [ChannelClosed])) else None
    else
      var resp := w.response.value;
      var taken := s.(workers := s.workers[id := w.(response := None)]);
      if !req.TryWait? || (resp.MaybeExited? && resp.status.Some?) then Some(taken.(caller := Joining(req, resp)))
      else if resp.MaybeExited? then Some(taken.(caller := Idle, log := s.log + [StillRunning(id)]))
      else Some(taken.(caller := Idle, log := s.log + [InvalidResponse]))
  }

  function JoinOutcome(id: nat, req: Request, resp: Response): Outcome {
    if !req.TryWait? then (if resp.Stopped? then StopDone(id) else InvalidResponse)
    else if resp.MaybeExited? && resp.status.Some? then ExitReported(id, resp.status.value)
    else InvalidResponse
  }

  function Next(s: System, a: Action): Option<System> {
    match a
    case Start(spawned) => if s.caller.Idle? then Some(DoStart(s, spawned)) else None
    case Call(req) =>
      if !s.caller.Idle? then None
      else if s.channel.None? then Some(s.(log := s.log + [AppNotRunning]))
      else Some(s.(caller := Sending(req)))
    case Send =>
      if !s.caller.Sending? || s.channel.None? || s.channel.value >= |s.workers| then None
      else
        var w := s.workers[s.channel.value];
        if w.at.Finished? then Some(s.(caller := Idle, log := s.log + [RequestChannelError]))
        else if w.request.Some? then None
        else Some(s.(workers := s.workers[s.channel.value := w.(request := Some(s.caller.req))],
                     caller := Awaiting(s.caller.req)))
    case Receive =>
      if !s.caller.Awaiting? || s.channel.None? || s.channel.value >= |s.workers| then None
      else DoReceive(s, s.channel.value, s.caller.req)
    case Join =>
      if !s.caller.Joining? || s.thread.None? || s.thread.value >= |s.workers| then None
      else
        var id := s.thread.value;
        if !s.workers[id].at.Finished? then None
        else Some(System(CloseCurrent(s), None, None, Idle, s.log + [JoinOutcome(id, s.caller.req, s.caller.resp)]))
    case Work(w, step) =>
      if w >= |s.workers| then None
      else
        var moved := StepWorker(s.workers[w], step);
        if moved.None? then None else Some(s.(workers := s.workers[w := moved.value]))
    case ProcessExits(w, status) =>
      if w < |s.workers| && s.workers[w].child.Running?
      then Some(s.(workers := s.workers[w := s.workers[w].(child := Exited(status))]))
      else None
  }

  /** The state after a run, or `None` if some action of the run was not enabled. */
  function Run(s: System, actions: seq<Action>): Option<System>
    decreases |actions|
  {
    if actions == [] then Some(s)
    else
      var next := Next(s, actions[0]);
      if next.None? then None else Run(next.value, actions[1..])
  }

  // ----- the invariant -----

  predicate Matches(req: Request, resp: Response) {
    req.TryWait? <==> resp.MaybeExited?
  }

  /** A worker still inside its loop that neither handles nor holds a request. */
  predicate Listening(w: Worker) {
    w.at.Select? || w.at.AwaitRequest? || (w.at.CheckRunning? && !w.child.Reaped?)
  }

  /** A worker that will end without hearing anything more. */
  predicate Leaving(w: Worker) {
    w.at.Cleanup? || w.at.Finished? || (w.at.CheckRunning? && w.child.Reaped?)
  }

  /** The reply tells the truth about the child. */
  predicate Truthful(w: Worker, resp: Response) {
    && (Terminal(resp) ==> w.child.Reaped?)
    && (resp.MaybeExited? && resp.status.Some? ==> w.child == Reaped(resp.status.value))
  }

  predicate WorkerOk(w: Worker) {
    && (w.at.Select? ==> !w.child.Reaped?)
    && (w.at.AwaitRequest? ==> w.child.Reaped?)
    && (w.at.Finished? ==> w.child.Reaped?)
    && (w.at.AwaitExit? ==> !w.at.req.TryWait?)
    && (w.at.Reply? ==> Truthful(w, w.at.resp) && (w.child.Reaped? ==> Terminal(w.at.resp)) && (w.at.last ==> w.child.Reaped?))
  }

  /** A worker the caller no longer talks to. */
  predicate Detached(w: Worker) {
    !w.open && w.request.None? && w.response.None? && (Listening(w) || Leaving(w))
  }

  predicate AwaitingOk(w: Worker, req: Request) {
    if w.request.Some? then w.request.value == req && w.response.None? && Listening(w)
    else if w.response.Some? then
      && Matches(req, w.response.value)
      && Truthful(w, w.response.value)
      && (if Terminal(w.response.value) then Leaving(w) else Listening(w))
    else (w.at.AwaitExit? && w.at.req == req) || (w.at.Reply? && Matches(req, w.at.resp))
  }

  /** How the current worker and the caller fit together. */
  predicate CurrentOk(w: Worker, caller: Caller) {
    && w.open
    && match caller
       case Idle => w.request.None? && w.response.None? && Listening(w)
       case Sending(req) => w.request.None? && w.response.None? && Listening(w)
       case Awaiting(req) => AwaitingOk(w, req)
       case Joining(req, resp) =>
         w.request.None? && w.response.None? && Leaving(w) && Matches(req, resp) && Terminal(resp) && Truthful(w, resp)
  }

  function Concludes(o: Outcome): Option<nat> {
    if o.StopDone? || o.ExitReported? then Some(o.worker) else None
  }

  predicate LogEntryOk(s: System, o: Outcome) {
    && !o.InvalidResponse? && !o.RequestChannelError? && !o.ChannelClosed?
    && (Concludes(o).Some? ==>
          o.worker < |s.workers| && s.channel != Some(o.worker) && s.workers[o.worker].at.Finished?)
    && (o.ExitReported? ==> o.worker < |s.workers| && s.workers[o.worker].child == Reaped(o.status))
  }

  predicate LogOk(s: System) {
    && (forall i :: 0 <= i < |s.log| ==> LogEntryOk(s, s.log[i]))
    && (forall i, j :: 0 <= i < j < |s.log| && Concludes(s.log[i]).Some? ==> Concludes(s.log[i]) != Concludes(s.log[j]))
  }

  predicate WorkersOk(s: System) {
    && (forall w :: 0 <= w < |s.workers| ==> WorkerOk(s.workers[w]))
    && (forall w :: 0 <= w < |s.workers| && s.channel != Some(w) ==> Detached(s.workers[w]))
  }

  predicate HandleOk(s: System) {
    && s.thread == s.channel
    && (s.channel.None? ==> s.caller.Idle?)
    && (s.channel.Some? ==> s.channel.value < |s.workers| && CurrentOk(s.workers[s.channel.value], s.caller))
  }

  predicate Inv(s: System) {
    HandleOk(s) && WorkersOk(s) && LogOk(s)
  }

  // ----- every action keeps the invariant -----

  lemma StepWorkerKeeps(w: Worker, step: WorkerStep)
    requires WorkerOk(w) && StepWorker(w, step).Some? && (w.at.Reply? ==> w.open)
    ensures WorkerOk(StepWorker(w, step).value)
    ensures Detached(w) ==> Detached(StepWorker(w, step).value)
    ensures !w.at.Finished?
  {
  }

  lemma CurrentWorkKeeps(w: Worker, caller: Caller, step: WorkerStep)
    requires WorkerOk(w) && CurrentOk(w, caller) && StepWorker(w, step).Some?
    ensures CurrentOk(StepWorker(w, step).value, caller)
  {
  }

  lemma WorkKeeps(s: System, w: nat, step: WorkerStep)
    requires Inv(s) && Next(s, Work(w, step)).Some?
    ensures Inv(Next(s, Work(w, step)).value)
  {
    var t := Next(s, Work(w, step)).value;
    StepWorkerKeeps(s.workers[w], step);
    if s.channel == Some(w) {
      CurrentWorkKeeps(s.workers[w], s.caller, step);
    }
    forall i | 0 <= i < |t.log| ensures LogEntryOk(t, t.log[i]) {
      assert LogEntryOk(s, s.log[i]);
    }
  }

  lemma ExitKeeps(s: System, w: nat, status: int)
    requires Inv(s) && Next(s, ProcessExits(w, status)).Some?
    ensures Inv(Next(s, ProcessExits(w, status)).value)
  {
    var t := Next(s, ProcessExits(w, status)).value;
    forall i | 0 <= i < |t.log| ensures LogEntryOk(t, t.log[i]) {
      assert LogEntryOk(s, s.log[i]);
    }
  }

  lemma StartKeeps(s: System, spawned: bool)
    requires Inv(s) && s.caller.Idle?
    ensures Inv(DoStart(s, spawned))
  {
    var t := DoStart(s, spawned);
    forall i | 0 <= i < |t.log| ensures LogEntryOk(t, t.log[i]) {
      if i < |s.log| { assert LogEntryOk(s, s.log[i]); }
    }
  }

  lemma JoinKeeps(s: System)
    requires Inv(s) && Next(s, Join).Some?
    ensures Inv(Next(s, Join).value)
  {
    var t := Next(s, Join).value;
    forall i | 0 <= i < |t.log| ensures LogEntryOk(t, t.log[i]) {
      if i < |s.log| { assert LogEntryOk(s, s.log[i]); }
    }
    forall i, j | 0 <= i < j < |t.log| && Concludes(t.log[i]).Some?
      ensures Concludes(t.log[i]) != Concludes(t.log[j])
    {
      assert LogEntryOk(s, s.log[i]);
    }
  }

  lemma CallerKeeps(s: System, a: Action)
    requires Inv(s) && (a.Call? || a.Send? || a.Receive?) && Next(s, a).Some?
    ensures Inv(Next(s, a).value)
  {
    var t := Next(s, a).value;
    forall i | 0 <= i < |t.log| ensures LogEntryOk(t, t.log[i]) {
      if i < |s.log| { assert LogEntryOk(s, s.log[i]); }
    }
  }

  lemma NextKeeps(s: System, a: Action)
    requires Inv(s) && Next(s, a).Some?
    ensures Inv(Next(s, a).value)
  {
    match a
    case Start(spawned) => StartKeeps(s, spawned);
    case Join => JoinKeeps(s);
    case Work(w, step) => WorkKeeps(s, w, step);
    case ProcessExits(w, status) => ExitKeeps(s, w, status);
    case _ => CallerKeeps(s, a);
  }

  lemma {:induction false} RunKeepsFrom(s: System, actions: seq<Action>)
    requires Inv(s) && Run(s, actions).Some?
    ensures Inv(Run(s, actions).value)
    decreases |actions|
  {
    if actions != [] {
      NextKeeps(s, actions[0]);
      RunKeepsFrom(Next(s, actions[0]).value, actions[1..]);
    }
  }

  lemma RunKeeps(actions: seq<Action>)
    requires Run(Init, actions).Some?
    ensures Inv(Run(Init, actions).value)
  {
    RunKeepsFrom(Init, actions);
  }

  // ----- what every run guarantees -----

  function One<T>(o: Option<T>): nat { if o.Some? then 1 else 0 }

  /** The messages that are in some channel of some worker. */
  function Outstanding(workers: seq<Worker>): nat {
    if workers == [] then 0
    else
      var last := workers[|workers| - 1];
      Outstanding(workers[..|workers| - 1]) + One(last.request) + One(last.response)
  }

  lemma {:induction false} OutstandingOnlyAt(workers: seq<Worker>, current: Option<nat>)
    requires forall w :: 0 <= w < |workers| && current != Some(w) ==> Detached(workers[w])
    ensures Outstanding(workers) ==
            if current.Some? && current.value < |workers|
            then One(workers[current.value].request) + One(workers[current.value].response) else 0
  {
    if workers != [] {
      OutstandingOnlyAt(workers[..|workers| - 1], current);
    }
  }

  /** At most one message is under way, and no call ever fails with a protocol error. */
  lemma ProtocolSafety(actions: seq<Action>)
    requires Run(Init, actions).Some?
    ensures var s := Run(Init, actions).value;
      && Outstanding(s.workers) <= 1
      && InvalidResponse !in s.log && RequestChannelError !in s.log && ChannelClosed !in s.log
  {
    RunKeeps(actions);
    var s := Run(Init, actions).value;
    OutstandingOnlyAt(s.workers, s.channel);
    forall i | 0 <= i < |s.log|
      ensures s.log[i] != InvalidResponse && s.log[i] != RequestChannelError && s.log[i] != ChannelClosed
    {
      assert LogEntryOk(s, s.log[i]);
    }
  }

  /** The worker of the channel is leaving its loop exactly while its terminal reply is under way or has been taken. */
  lemma TerminalReplyIffLeaving(actions: seq<Action>)
    requires Run(Init, actions).Some? && Run(Init, actions).value.channel.Some?
    ensures var s := Run(Init, actions).value;
      && s.channel.value < |s.workers|
      && (Leaving(s.workers[s.channel.value]) <==>
          s.caller.Joining? ||
          (s.workers[s.channel.value].response.Some? && Terminal(s.workers[s.channel.value].response.value)))
  {
    RunKeeps(actions);
  }

  /** The caller never waits for a reply while the worker waits for a request and no message is under way. */
  lemma NobodyWaitsForTheOther(actions: seq<Action>)
    requires Run(Init, actions).Some? && Run(Init, actions).value.caller.Awaiting?
    ensures var s := Run(Init, actions).value;
      && s.channel.Some? && s.channel.value < |s.workers|
      && var w := s.workers[s.channel.value];
         w.request.None? && w.response.None? ==> !w.at.Select? && !w.at.AwaitRequest?
  {
    RunKeeps(actions);
  }

  /** The step a worker takes next by itself, if it needs nobody else for it. */
  function OwnStep(w: Worker): WorkerStep {
    match w.at
    case Select => if w.request.Some? then TakeRequest else SeeClosed
    case AwaitRequest => if w.request.Some? then TakeRequest else SeeClosed
    case AwaitExit(_) => Reap
    case Reply(_, _) => Respond
    case CheckRunning => Check
    case _ => CleanUp(0)
  }

  predicate ByCallerOrCurrent(s: System, a: Action) {
    a.Send? || a.Receive? || a.Join? || (a.Work? && s.channel == Some(a.w) && !a.step.ReadLine?)
  }

  /** While a call is in progress, either some party of it can move, or it waits for a signalled process to exit. */
  lemma CallCanProceed(s: System) returns (a: Action)
    requires Inv(s) && !s.caller.Idle?
    ensures s.channel.Some? && s.channel.value < |s.workers|
    ensures
      || (ByCallerOrCurrent(s, a) && Next(s, a).Some?)
      || (s.workers[s.channel.value].at.AwaitExit? && s.workers[s.channel.value].child.Running?)
  {
    var id := s.channel.value;
    var w := s.workers[id];
    if s.caller.Sending? {
      a := Send;
    } else if s.caller.Joining? {
      a := if w.at.Finished? then Join else Work(id, OwnStep(w));
    } else {
      a := if w.response.Some? then Receive else Work(id, OwnStep(w));
    }
  }

  function PointWeight(w: Worker): nat {
    match w.at
    case CheckRunning => 3
    case Select => 2
    case Cleanup => 2
    case AwaitRequest => 1
    case Finished => 1
    case _ => 0
  }

  /** Bounds the actions that the call in progress still needs. */
  function Effort(s: System): nat {
    if s.channel.None? || s.channel.value >= |s.workers| then 0
    else
      var w := s.workers[s.channel.value];
      match s.caller
      case Sending(_) => 40 + PointWeight(w)
      case Joining(_, _) => 5 + PointWeight(w)
      case Awaiting(_) =>
        if w.request.Some? then 30 + PointWeight(w)
        else if w.response.Some? then 10 + PointWeight(w)
        else if w.at.AwaitExit? then 22 else 20
      case Idle => 0
  }

  /** Every action of a call in progress brings it closer to its return, so no call takes more than 43 of them. */
  lemma CallTerminates(s: System, a: Action)
    requires Inv(s) && !s.caller.Idle? && ByCallerOrCurrent(s, a) && Next(s, a).Some?
    ensures Effort(Next(s, a).value) < Effort(s) <= 43
  {
  }

  /** Nobody else's action, and no line of output, brings it further away. */
  lemma OthersDoNotDelay(s: System, a: Action)
    requires Inv(s) && !s.caller.Idle? && !ByCallerOrCurrent(s, a) && Next(s, a).Some?
    ensures Effort(Next(s, a).value) == Effort(s) && Next(s, a).value.caller == s.caller
  {
  }

  /** The actions of a run that belong to the call, until it returns. */
  function OwnActions(s: System, actions: seq<Action>): nat
    decreases |actions|
  {
    if actions == [] || s.caller.Idle? || Next(s, actions[0]).None? then 0
    else (if ByCallerOrCurrent(s, actions[0]) then 1 else 0) + OwnActions(Next(s, actions[0]).value, actions[1..])
  }

  /** So in every run, whatever the others do in between, a call takes at most 43 actions of its own parties until it returns. */
  lemma {:induction false} CallReturns(s: System, actions: seq<Action>)
    requires Inv(s) && Run(s, actions).Some?
    ensures OwnActions(s, actions) <= Effort(s) <= 43
    decreases |actions|
  {
    if actions != [] && !s.caller.Idle? {
      NextKeeps(s, actions[0]);
      if ByCallerOrCurrent(s, actions[0]) { CallTerminates(s, actions[0]); } else { OthersDoNotDelay(s, actions[0]); }
      CallReturns(Next(s, actions[0]).value, actions[1..]);
    }
  }

  /** A stop or kill waits for a process that has not exited. */
  predicate WaitsForProcess(s: System) {
    && s.caller.Awaiting? && s.channel.Some? && s.channel.value < |s.workers|
    && s.workers[s.channel.value].at.AwaitExit? && s.workers[s.channel.value].child.Running?
  }

  /** Nothing but the exit of that process ends the wait; the caller can do nothing else meanwhile. */
  lemma {:induction false} WaitsUntilExit(s: System, actions: seq<Action>)
    requires Inv(s) && WaitsForProcess(s) && Run(s, actions).Some?
    requires forall k :: 0 <= k < |actions| ==> !(actions[k].ProcessExits? && Some(actions[k].w) == s.channel)
    ensures WaitsForProcess(Run(s, actions).value) && Run(s, actions).value.caller == s.caller
    decreases |actions|
  {
    if actions != [] {
      NextKeeps(s, actions[0]);
      var t := Next(s, actions[0]).value;
      assert t.channel == s.channel && WaitsForProcess(t);
      WaitsUntilExit(t, actions[1..]);
    }
  }

  // ----- processes over restarts -----

  predicate Live(w: Worker) { !w.child.Reaped? }

  /** Each process has its end reported at most once, and a reported status is the one it exited with. */
  lemma ExitReportedOnce(actions: seq<Action>)
    requires Run(Init, actions).Some?
    ensures var s := Run(Init, actions).value;
      && (forall i, j :: 0 <= i < j < |s.log| && Concludes(s.log[i]).Some? ==> Concludes(s.log[i]) != Concludes(s.log[j]))
      && (forall o :: o in s.log && o.ExitReported? ==>
            o.worker < |s.workers| && s.workers[o.worker].child == Reaped(o.status))
  {
    RunKeeps(actions);
    var s := Run(Init, actions).value;
    forall o | o in s.log && o.ExitReported?
      ensures o.worker < |s.workers| && s.workers[o.worker].child == Reaped(o.status)
    {
      var i :| 0 <= i < |s.log| && s.log[i] == o;
      assert LogEntryOk(s, s.log[i]);
    }
  }

  // ----- what a try_wait tells -----

  /** What a try_wait should tell, given the worker when it takes the request. */
  function Truth(w: Worker, id: nat): Outcome {
    if w.child.Running? then StillRunning(id) else ExitReported(id, w.child.status)
  }

  /** The try_wait is under way to the outcome, or has returned with it. */
  predicate Answering(t: System, id: nat, before: seq<Outcome>, o: Outcome)
    requires o.StillRunning? || o.ExitReported?
  {
    var reply := MaybeExited(if o.StillRunning? then None else Some(o.status));
    || (|before| < |t.log| && t.log[|before|] == o)
    || (&& t.log == before && t.channel == Some(id) && t.thread == Some(id) && id < |t.workers|
        && (|| (&& t.caller == Awaiting(TryWait) && t.workers[id].request.None?
                && (|| (t.workers[id].at.Reply? && t.workers[id].at.resp == reply && t.workers[id].response.None?)
                    || t.workers[id].response == Some(reply)))
            || (o.ExitReported? && t.caller == Joining(TryWait, reply))))
  }

  lemma AnsweringKeeps(t: System, id: nat, before: seq<Outcome>, w: Worker, a: Action)
    requires Inv(t) && Answering(t, id, before, Truth(w, id)) && Next(t, a).Some?
    ensures Answering(Next(t, a).value, id, before, Truth(w, id))
  {
  }

  lemma {:induction false} AnsweringRun(t: System, id: nat, before: seq<Outcome>, w: Worker, actions: seq<Action>)
    requires Inv(t) && Answering(t, id, before, Truth(w, id)) && Run(t, actions).Some?
    ensures Answering(Run(t, actions).value, id, before, Truth(w, id))
    decreases |actions|
  {
    if actions != [] {
      NextKeeps(t, actions[0]);
      AnsweringKeeps(t, id, before, w, actions[0]);
      AnsweringRun(Next(t, actions[0]).value, id, before, w, actions[1..]);
    }
  }

  /**
    From the moment a worker takes a try_wait, in every run: once the call has returned, it has told
    the status if the process had exited by that moment, and that it is still running exactly if it
    was running then.
   */
  lemma TryWaitTellsTheTruth(s: System, id: nat, actions: seq<Action>)
    requires Inv(s) && s.caller == Awaiting(TryWait) && s.channel == Some(id) && id < |s.workers|
    requires s.workers[id].request == Some(TryWait) && Next(s, Work(id, TakeRequest)).Some?
    requires Run(Next(s, Work(id, TakeRequest)).value, actions).Some?
    ensures var t := Run(Next(s, Work(id, TakeRequest)).value, actions).value;
      && (t.caller.Idle? ==> |t.log| > |s.log|)
      && (|t.log| > |s.log| ==> t.log[|s.log|] == Truth(s.workers[id], id))
  {
    var t := Next(s, Work(id, TakeRequest)).value;
    NextKeeps(s, Work(id, TakeRequest));
    assert Answering(t, id, s.log, Truth(s.workers[id], id));
    AnsweringRun(t, id, s.log, s.workers[id], actions);
  }

  function StatusOf(p: Process): Option<int> {
    if p.Running? then None else Some(p.status)
  }

  /** A process gets its status by its own exit, or by the clean-up that kills it, and keeps it. */
  lemma StatusIsFinal(s: System, a: Action, w: nat)
    requires Next(s, a).Some? && w < |s.workers|
    ensures w < |Next(s, a).value.workers|
    ensures var after := StatusOf(Next(s, a).value.workers[w].child);
      if StatusOf(s.workers[w].child).Some? then after == StatusOf(s.workers[w].child)
      else after.Some? ==> a == ProcessExits(w, after.value) || a == Work(w, CleanUp(after.value))
  {
  }

  // ----- which process a call is about -----

  /** The process started last, unless its end has been reported since. */
  function Current(log: seq<Outcome>): Option<nat> {
    if log == [] then None
    else
      var last := log[|log| - 1];
      if last.Started? then Some(last.worker)
      else if Concludes(last).Some? then None
      else Current(log[..|log| - 1])
  }

  predicate FollowsLog(s: System) {
    && s.channel == Current(s.log)
    && forall i :: 0 <= i < |s.log| && Concludes(s.log[i]).Some? ==> Concludes(s.log[i]) == Current(s.log[..i])
  }

  lemma OneMoreOutcome(log: seq<Outcome>, o: Outcome)
    ensures Current(log + [o]) == if o.Started? then Some(o.worker) else if Concludes(o).Some? then None else Current(log)
    ensures forall i :: 0 <= i <= |log| ==> (log + [o])[..i] == log[..i]
    ensures log[..|log|] == log
  {
    assert (log + [o])[..|log|] == log;
  }

  /** An action logs nothing, or one outcome that fits the process it leaves current. */
  predicate LogsFittingly(s: System, t: System) {
    || (t.log == s.log && t.channel == s.channel)
    || (&& |t.log| == |s.log| + 1 && t.log == s.log + [t.log[|s.log|]]
        && var o := t.log[|s.log|];
           if o.Started? then t.channel == Some(o.worker)
           else if Concludes(o).Some? then Concludes(o) == s.channel && t.channel.None?
           else t.channel == s.channel)
  }

  lemma NextLogsFittingly(s: System, a: Action)
    requires Inv(s) && Next(s, a).Some?
    ensures LogsFittingly(s, Next(s, a).value)
  {
  }

  lemma FittingFollowsLog(s: System, t: System)
    requires FollowsLog(s) && LogsFittingly(s, t)
    ensures FollowsLog(t)
  {
    if t.log != s.log { OneMoreOutcome(s.log, t.log[|s.log|]); }
  }

  lemma NextFollowsLog(s: System, a: Action)
    requires Inv(s) && FollowsLog(s) && Next(s, a).Some?
    ensures FollowsLog(Next(s, a).value)
  {
    NextLogsFittingly(s, a);
    FittingFollowsLog(s, Next(s, a).value);
  }

  lemma {:induction false} RunFollowsLog(s: System, actions: seq<Action>)
    requires Inv(s) && FollowsLog(s) && Run(s, actions).Some?
    ensures FollowsLog(Run(s, actions).value)
    decreases |actions|
  {
    if actions != [] {
      NextKeeps(s, actions[0]);
      NextFollowsLog(s, actions[0]);
      RunFollowsLog(Next(s, actions[0]).value, actions[1..]);
    }
  }

  /**
    In every run: a reported end is that of the process started last and not yet reported; and a call
    is refused as not running exactly if there is no such process, and otherwise begins.
   */
  lemma CallsConcernTheCurrentProcess(actions: seq<Action>, req: Request)
    requires Run(Init, actions).Some?
    ensures var s := Run(Init, actions).value;
      && FollowsLog(s)
      && (s.caller.Idle? ==>
            && Next(s, Call(req)).Some?
            && (Next(s, Call(req)).value.log == s.log + [AppNotRunning] <==> Current(s.log).None?)
            && (Next(s, Call(req)).value.caller == Sending(req) <==> Current(s.log).Some?))
  {
    RunKeeps(actions);
    RunFollowsLog(Init, actions);
  }

  function DetachedWeight(w: Worker): nat {
    match w.at
    case CheckRunning => 3
    case Select => 2
    case AwaitRequest => 2
    case Cleanup => 1
    case _ => 0
  }

  /** A superseded worker needs nobody to end: its own step is always enabled, and at most three of them end it. */
  lemma SupersededWorkerEnds(s: System, w: nat)
    requires Inv(s) && w < |s.workers| && s.channel != Some(w) && !s.workers[w].at.Finished?
    ensures Next(s, Work(w, OwnStep(s.workers[w]))).Some?
    ensures var t := Next(s, Work(w, OwnStep(s.workers[w]))).value;
      |t.workers| == |s.workers| && DetachedWeight(t.workers[w]) < DetachedWeight(s.workers[w]) <= 3
  {
  }

  /** Once every superseded worker has finished, only the process started last can be live. */
  lemma AtMostOneLiveProcess(actions: seq<Action>)
    requires Run(Init, actions).Some?
    requires var s := Run(Init, actions).value;
      forall w :: 0 <= w < |s.workers| && s.channel != Some(w) ==> s.workers[w].at.Finished?
    ensures var s := Run(Init, actions).value;
      forall w :: 0 <= w < |s.workers| && Live(s.workers[w]) ==> s.channel == Some(w)
  {
    RunKeeps(actions);
  }
}
