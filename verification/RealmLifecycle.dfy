/**
  What the commands of `RealmManager` do to a realm: its state, its applications, its VM handle,
  and the provisioning data the realm acknowledged last. Every outside call is an input (`io`).
 */
module RealmLifecycle {
  import opened Outcomes
  import opened AppDisk
  import opened Application
  import opened Latches

  datatype State = Halted | Provisioning | Running | NeedReboot

  /** A launched VM: its process and the applications whose disks it was given. */
  datatype Vm = Vm(pid: nat, disks: set<Uuid>)

  /** `registered` until the realm is destroyed. */
  datatype Realm = Realm(
    state: State, apps: map<Uuid, App>, vm: Option<Vm>, acked: Option<seq<AppData>>, registered: bool)

  datatype RealmError =
    | ApplicationMissing
    | RealmStartFail
    | RealmStopFail
    | UnsupportedAction
    | RealmLaunchFail
    | VmStopFail
    | VmDestroyFail
    | ApplicationOperation
    | ApplicationCreationFail
    | PrepareApplications
    | AttestationTokenFetch
    | NoSuchRealm
    | DestroyFail

  type Reply = Result<(), RealmError>

  datatype LaunchIo = Spawned(pid: nat) | SpawnFailed
  datatype StatusIo = StatusFailed | HasExited | StillUp
  datatype ShutdownIo = ShutdownIo(killOk: bool, waitOk: bool)

  /** `finished` is the order in which the disk jobs end, `order` the order of the application map. */
  datatype StartIo = StartIo(
    finished: seq<Uuid>, prepare: Uuid -> TaskIo, order: seq<Uuid>, launch: LaunchIo, readOk: Uuid -> bool, provisioned: bool,
    status: StatusIo, shutdown: ShutdownIo)
  datatype FetchIo = FetchIo(
    finished: seq<Uuid>, prepare: Uuid -> TaskIo, launch: LaunchIo, fetched: bool, stopped: bool, shutdown: ShutdownIo)
  datatype StopIo = StopIo(stopped: bool, shutdown: ShutdownIo)
  datatype RebootIo = RebootIo(order: seq<Uuid>, readOk: Uuid -> bool, rebooted: bool)
  datatype CreateAppIo = CreateAppIo(dirOk: bool, save: SaveIo, disk: DiskIo)

  datatype Command =
    | Start(start: StartIo)
    | Stop(stop: StopIo)
    | Reboot(reboot: RebootIo)
    | FetchToken(fetch: FetchIo)
    | CreateApplication(newId: Uuid, newConfig: AppConfig, create: CreateAppIo)
    | UpdateApplication(id: Uuid, config: AppConfig, save: SaveIo)
    | Destroy(destroy: ShutdownIo)

  /** The order in which a map yields its keys. */
  ghost predicate IsOrder(order: seq<Uuid>, keys: set<Uuid>) {
    && (forall u :: u in order <==> u in keys)
    && (forall i, j :: 0 <= i < j < |order| ==> order[i] != order[j])
  }

  // ----- pieces -----

  /** prepare_applications: the jobs are independent; once one has failed the others are aborted or have ended. */
  function Prepared(apps: map<Uuid, App>, jobs: Uuid -> TaskIo): map<Uuid, App> {
    map u | u in apps :: ConfigureTask(apps[u], jobs(u)).0
  }

  /** The outcome is that of the first job to end badly, in the order in which they end. */
  function PrepareReply(apps: map<Uuid, App>, finished: seq<Uuid>, jobs: Uuid -> TaskIo): Reply {
    if finished == [] then Ok(())
    else
      var u := finished[0];
      if u in apps && !ConfigureTask(apps[u], jobs(u)).1
      then Err(if jobs(u).Ran? then ApplicationOperation else PrepareApplications)
      else PrepareReply(apps, finished[1..], jobs)
  }

  /** Which error is reported depends on that order; whether there is one does not. */
  lemma {:induction false} PrepareReplyOkIff(apps: map<Uuid, App>, finished: seq<Uuid>, jobs: Uuid -> TaskIo)
    ensures PrepareReply(apps, finished, jobs).Ok? <==>
      forall i :: 0 <= i < |finished| && finished[i] in apps ==> ConfigureTask(apps[finished[i]], jobs(finished[i])).1
  {
    if finished != [] {
      PrepareReplyOkIff(apps, finished[1..], jobs);
      assert forall i :: 1 <= i < |finished| ==> finished[i] == finished[1..][i - 1];
    }
  }

  lemma PrepareKeepsKeys(apps: map<Uuid, App>, tasks: Uuid -> TaskIo)
    ensures Prepared(apps, tasks).Keys == apps.Keys
  {
  }

  /** create_provisioning_config, in the order of the map. */
  function ProvisioningData(apps: map<Uuid, App>, order: seq<Uuid>, readOk: Uuid -> bool): Option<seq<AppData>>
    requires forall u :: u in order ==> u in apps
  {
    if order == [] then Some([])
    else
      var u := order[|order| - 1];
      var before := ProvisioningData(apps, order[..|order| - 1], readOk);
      var data := DataOf(u, apps[u], readOk(u));
      if before.None? || data.None? then None else Some(before.value + [data.value])
  }

  function LaunchVm(vm: Option<Vm>, disks: set<Uuid>, io: LaunchIo): (r: (Option<Vm>, bool)) {
    if vm.Some? || io.SpawnFailed? then (vm, false) else (Some(Vm(io.pid, disks)), true)
  }

  function ShutdownVm(vm: Option<Vm>, io: ShutdownIo): (r: (Option<Vm>, bool)) {
    if vm.Some? && io.killOk && io.waitOk then (None, true) else (vm, false)
  }

  /** What start and a token fetch of a halted realm begin with: prepare the disks, then launch the VM. */
  function Boot(r: Realm, finished: seq<Uuid>, prepare: Uuid -> TaskIo, launch: LaunchIo): (res: (Realm, Reply)) {
    var r1 := r.(apps := Prepared(r.apps, prepare));
    var reply := PrepareReply(r.apps, finished, prepare);
    if reply.Err? then (r1, reply)
    else
      var (vm, launched) := LaunchVm(r.vm, r.apps.Keys, launch);
      (r1.(vm := vm), if launched then Ok(()) else Err(RealmLaunchFail))
  }

  /** handle_start_response for a start that failed. */
  function FailedStart(r: Realm, status: StatusIo, shutdown: ShutdownIo): (res: (Realm, Reply)) {
    var halted := r.(state := Halted);
    if r.vm.None? then (halted, Err(RealmStartFail))
    else
      match status
      case StatusFailed => (halted, Err(RealmLaunchFail))
      case HasExited => (halted, Err(RealmStartFail))
      case StillUp =>
        var (vm, ok) := ShutdownVm(r.vm, shutdown);
        (halted.(vm := vm), Err(if ok then RealmStartFail else VmDestroyFail))
  }

  // ----- commands -----

  predicate OrderFits(r: Realm, order: seq<Uuid>) {
    forall u :: u in order ==> u in r.apps
  }

  /** The rest of start, once the VM is launched. */
  function Provision(r: Realm, io: StartIo): (res: (Realm, Reply))
    requires OrderFits(r, io.order)
  {
    var r1 := r.(state := Provisioning);
    var data := ProvisioningData(r.apps, io.order, io.readOk);
    if data.None? then (r1, Err(ApplicationOperation))
    else if io.provisioned then (r1.(state := Running, acked := data), Ok(()))
    else FailedStart(r1, io.status, io.shutdown)
  }

  function DoStart(r: Realm, io: StartIo): (res: (Realm, Reply))
    requires OrderFits(r, io.order)
  {
    if !r.state.Halted? then (r, Err(UnsupportedAction))
    else
      var (booted, boot) := Boot(r, io.finished, io.prepare, io.launch);
      if boot.Err? then (booted, boot)
      else
        PrepareKeepsKeys(r.apps, io.prepare);
        Provision(booted, io)
  }

  function DoFetch(r: Realm, io: FetchIo): (res: (Realm, Reply)) {
    var fetched: Reply := if io.fetched then Ok(()) else Err(AttestationTokenFetch);
    match r.state
    case Provisioning => (r, Err(UnsupportedAction))
    case Halted =>
      var (booted, boot) := Boot(r, io.finished, io.prepare, io.launch);
      if boot.Err? then (booted, boot)
      else if !io.stopped then (booted, Err(RealmStopFail))
      else
        var (left, ok) := ShutdownVm(booted.vm, io.shutdown);
        (booted.(vm := left), if ok then fetched else Err(VmStopFail))
    case _ => (r, fetched)
  }

  predicate Up(s: State) { s.Running? || s.NeedReboot? }

  function DoStop(r: Realm, io: StopIo): (res: (Realm, Reply)) {
    if !Up(r.state) then (r, Err(UnsupportedAction))
    else if !io.stopped then (r, Err(RealmStopFail))
    else
      var (vm, ok) := ShutdownVm(r.vm, io.shutdown);
      if ok then (r.(vm := vm, state := Halted), Ok(())) else (r, Err(VmStopFail))
  }

  function DoReboot(r: Realm, io: RebootIo): (res: (Realm, Reply))
    requires OrderFits(r, io.order)
  {
    if !Up(r.state) then (r, Err(UnsupportedAction))
    else
      var data := ProvisioningData(r.apps, io.order, io.readOk);
      if data.None? then (r, Err(ApplicationOperation))
      else if !io.rebooted then (r, Err(RealmStopFail))
      else (r.(state := Running, acked := data), Ok(()))
  }

  function DoCreate(r: Realm, id: Uuid, c: AppConfig, io: CreateAppIo): (res: (Realm, Reply)) {
    if !r.state.Halted? then (r, Err(UnsupportedAction))
    else
      var app := CreateApp(c, io.dirOk, io.save, io.disk);
      if app.None? then (r, Err(ApplicationCreationFail)) else (r.(apps := r.apps[id := app.value]), Ok(()))
  }

  function DoUpdate(r: Realm, id: Uuid, c: AppConfig, save: SaveIo): (res: (Realm, Reply)) {
    if r.state.Provisioning? then (r, Err(UnsupportedAction))
    else if id !in r.apps then (r, Err(ApplicationMissing))
    else
      var (app, ok) := WithConfig(r.apps[id], c, save);
      var r1 := r.(apps := r.apps[id := app]);
      if !ok then (r1, Err(ApplicationOperation))
      else (r1.(state := if r.state.Running? then NeedReboot else r.state), Ok(()))
  }

  /** destroy_realm: only a halted realm; its VM, if it has one, is shut down, and the realm is gone whether that works or not. */
  function DoDestroy(r: Realm, shutdown: ShutdownIo): (res: (Realm, Reply)) {
    if !r.state.Halted? then (r, Err(DestroyFail))
    else (r.(vm := ShutdownVm(r.vm, shutdown).0, registered := false), Ok(()))
  }

  /** The map orders a command mentions are orders of the applications the realm has. */
  ghost predicate Fits(r: Realm, c: Command) {
    && (c.Start? ==> IsOrder(c.start.order, r.apps.Keys) && IsOrder(c.start.finished, r.apps.Keys))
    && (c.FetchToken? ==> IsOrder(c.fetch.finished, r.apps.Keys))
    && (c.Reboot? ==> IsOrder(c.reboot.order, r.apps.Keys))
  }

  function Apply(r: Realm, c: Command): (res: (Realm, Reply))
    requires c.Start? ==> OrderFits(r, c.start.order)
    requires c.Reboot? ==> OrderFits(r, c.reboot.order)
  {
    if !r.registered then (r, Err(NoSuchRealm))
    else match c
    case Start(io) => DoStart(r, io)
    case Stop(io) => DoStop(r, io)
    case Reboot(io) => DoReboot(r, io)
    case FetchToken(io) => DoFetch(r, io)
    case CreateApplication(id, config, io) => DoCreate(r, id, config, io)
    case UpdateApplication(id, config, save) => DoUpdate(r, id, config, save)
    case Destroy(shutdown) => DoDestroy(r, shutdown)
  }

  /** `trace` lists the states of a run of `commands`, from a realm that was created or loaded. */
  ghost predicate IsRun(trace: seq<Realm>, commands: seq<Command>) {
    && |trace| == |commands| + 1
    && trace[0].state.Halted? && trace[0].vm.None? && trace[0].acked.None? && trace[0].registered
    && forall i :: 0 <= i < |commands| ==> Fits(trace[i], commands[i]) && Apply(trace[i], commands[i]).0 == trace[i + 1]
  }

  // ----- the VM handle -----

  predicate VmOk(r: Realm) {
    !r.state.Halted? ==> r.vm.Some? && r.vm.value.disks == r.apps.Keys
  }

  lemma ApplyKeepsVmOk(r: Realm, c: Command)
    requires VmOk(r) && Fits(r, c)
    ensures VmOk(Apply(r, c).0)
  {
    if c.Start? {
      PrepareKeepsKeys(r.apps, c.start.prepare);
    }
    if c.UpdateApplication? && c.id in r.apps {
      assert r.apps[c.id := WithConfig(r.apps[c.id], c.config, c.save).0].Keys == r.apps.Keys;
    }
  }

  predicate Reaps(io: ShutdownIo) { io.killOk && io.waitOk }

  /** A handle is never replaced by another one, and it is given up exactly by a stop or destruction that killed and reaped the VM. */
  lemma HandleLifetime(r: Realm, c: Command)
    requires Fits(r, c) && r.vm.Some?
    ensures Apply(r, c).0.vm == r.vm || Apply(r, c).0.vm == None
    ensures Apply(r, c).0.vm == None <==>
      && r.registered
      && ((c.Stop? && Up(r.state) && c.stop.stopped && Reaps(c.stop.shutdown)) || (c.Destroy? && r.state.Halted? && Reaps(c.destroy)))
    ensures Apply(r, c).0.vm == None ==> Apply(r, c).0.state.Halted?
  {
  }

  /** The command launches a VM and does not shut it down again. */
  predicate KeepsLaunched(r: Realm, c: Command) {
    || (&& c.Start? && Launches(r, c.start.finished, c.start.prepare, c.start.launch)
        && (c.start.provisioned || Hangs(r, c) || !c.start.status.StillUp? || !Reaps(c.start.shutdown)))
    || (&& c.FetchToken? && Launches(r, c.fetch.finished, c.fetch.prepare, c.fetch.launch)
        && (!c.fetch.stopped || !Reaps(c.fetch.shutdown)))
  }

  lemma BootBirth(r: Realm, finished: seq<Uuid>, prepare: Uuid -> TaskIo, launch: LaunchIo)
    requires r.vm.None? && r.registered && r.state.Halted?
    ensures var (booted, reply) := Boot(r, finished, prepare, launch);
      && (reply.Ok? <==> Launches(r, finished, prepare, launch)) && (booted.vm.Some? <==> reply.Ok?)
      && booted.apps.Keys == r.apps.Keys && (booted.vm.Some? ==> booted.vm.value.disks == r.apps.Keys)
  {
    PrepareKeepsKeys(r.apps, prepare);
  }

  /** A realm without a handle has one after a command exactly if the command launched a VM and did not shut it down again. */
  lemma HandleBirth(r: Realm, c: Command)
    requires Fits(r, c) && r.vm.None?
    ensures Apply(r, c).0.vm.Some? <==> KeepsLaunched(r, c)
    ensures Apply(r, c).0.vm.Some? ==> Apply(r, c).0.vm.value.disks == Apply(r, c).0.apps.Keys
  {
    if r.registered && r.state.Halted? {
      if c.Start? { BootBirth(r, c.start.finished, c.start.prepare, c.start.launch); }
      if c.FetchToken? { BootBirth(r, c.fetch.finished, c.fetch.prepare, c.fetch.launch); }
    }
  }

  /** In every reachable state but Halted the realm has a VM, launched with exactly the disks of its applications. */
  lemma {:induction false} ActiveRealmHasItsVm(trace: seq<Realm>, commands: seq<Command>, i: nat)
    requires IsRun(trace, commands) && i < |trace|
    ensures VmOk(trace[i])
    decreases i
  {
    if i > 0 {
      ActiveRealmHasItsVm(trace, commands, i - 1);
      ApplyKeepsVmOk(trace[i - 1], commands[i - 1]);
    }
  }

  // ----- what the replies mean -----

  /** The start launched a VM, gathered its data and had it acknowledged. */
  predicate Starts(r: Realm, c: Command) {
    && c.Start? && OrderFits(r, c.start.order) && Launches(r, c.start.finished, c.start.prepare, c.start.launch)
    && ProvisioningData(Prepared(r.apps, c.start.prepare), c.start.order, c.start.readOk).Some? && c.start.provisioned
  }

  /** The reboot gathered the data of an active realm and had it acknowledged. */
  predicate Reboots(r: Realm, c: Command) {
    && c.Reboot? && r.registered && Up(r.state) && OrderFits(r, c.reboot.order)
    && ProvisioningData(r.apps, c.reboot.order, c.reboot.readOk).Some? && c.reboot.rebooted
  }

  /** The active realm stopped and its VM was reaped. */
  predicate Stops(r: Realm, c: Command) {
    c.Stop? && r.registered && Up(r.state) && c.stop.stopped && r.vm.Some? && Reaps(c.stop.shutdown)
  }

  /** A configuration of the realm was changed and saved. */
  predicate Updates(r: Realm, c: Command) {
    c.UpdateApplication? && r.registered && !r.state.Provisioning? && c.id in r.apps && c.save.Saved?
  }

  /** The token came, and a halted realm was booted for it and shut down again. */
  predicate Fetches(r: Realm, c: Command) {
    && c.FetchToken? && r.registered && c.fetch.fetched
    && (|| Up(r.state)
        || (&& r.state.Halted? && Launches(r, c.fetch.finished, c.fetch.prepare, c.fetch.launch)
            && c.fetch.stopped && Reaps(c.fetch.shutdown)))
  }

  predicate Creates(r: Realm, c: Command) {
    c.CreateApplication? && r.registered && r.state.Halted? && CreateApp(c.newConfig, c.create.dirOk, c.create.save, c.create.disk).Some?
  }

  /** A command is answered Ok exactly if it did what it is for. */
  lemma ReplyMeans(r: Realm, c: Command)
    requires Fits(r, c)
    ensures Apply(r, c).1.Ok? <==>
      || Starts(r, c) || Stops(r, c) || Reboots(r, c) || Fetches(r, c) || Creates(r, c) || Updates(r, c)
      || (c.Destroy? && r.registered && r.state.Halted?)
  {
  }

  /** Of a start, stop and reboot the caller can tell it from the states. */
  lemma ReplyShowsInState(r: Realm, c: Command)
    requires Fits(r, c)
    ensures var (r', reply) := Apply(r, c);
      && (c.Start? ==> (reply.Ok? <==> r.registered && r.state.Halted? && r'.state.Running?))
      && (c.Stop? ==> (reply.Ok? <==> r.registered && Up(r.state) && r'.state.Halted?))
      && (c.Reboot? && reply.Ok? ==> Up(r.state) && r'.state.Running? && r'.acked == ProvisioningData(r.apps, c.reboot.order, c.reboot.readOk))
      && (c.Reboot? && reply.Err? ==> r' == r)
  {
  }

  lemma StartMeans(r: Realm, io: StartIo)
    requires OrderFits(r, io.order)
    ensures DoStart(r, io).1.Ok? <==> r.state.Halted? && DoStart(r, io).0.state.Running?
  {
    PrepareKeepsKeys(r.apps, io.prepare);
  }

  lemma StopMeans(r: Realm, io: StopIo)
    ensures DoStop(r, io).1.Ok? <==> Up(r.state) && DoStop(r, io).0.state.Halted?
  {
  }

  /** The state after every command. */
  lemma StateAfter(r: Realm, c: Command)
    requires Fits(r, c)
    ensures var r' := Apply(r, c).0;
      && (r'.state.Running? <==> Starts(r, c) || Reboots(r, c) || (r.state.Running? && !Stops(r, c) && !Updates(r, c)))
      && (r'.state.NeedReboot? <==>
            || (r.state.Running? && Updates(r, c))
            || (r.state.NeedReboot? && !Reboots(r, c) && !Stops(r, c)))
      && (r'.state.Provisioning? <==> r.state.Provisioning? || Hangs(r, c))
  {
  }

  /** What counts as acknowledged after every command, and whether the realm is still there. */
  lemma RecordAfter(r: Realm, c: Command)
    requires Fits(r, c)
    ensures var r' := Apply(r, c).0;
      && r'.acked == (if Starts(r, c) then ProvisioningData(Prepared(r.apps, c.start.prepare), c.start.order, c.start.readOk)
                      else if Reboots(r, c) then ProvisioningData(r.apps, c.reboot.order, c.reboot.readOk)
                      else r.acked)
      && (r'.registered <==> r.registered && !(c.Destroy? && r.state.Halted?))
  {
  }

  /** An error names its cause. */
  predicate CausedBy(e: RealmError, r: Realm, c: Command) {
    match e
    case NoSuchRealm => !r.registered
    case DestroyFail => c.Destroy? && !r.state.Halted?
    case UnsupportedAction =>
      || ((c.Start? || c.CreateApplication?) && !r.state.Halted?)
      || ((c.Stop? || c.Reboot?) && !Up(r.state))
      || ((c.FetchToken? || c.UpdateApplication?) && r.state.Provisioning?)
    case ApplicationMissing => c.UpdateApplication? && c.id !in r.apps
    case ApplicationCreationFail =>
      c.CreateApplication? && CreateApp(c.newConfig, c.create.dirOk, c.create.save, c.create.disk).None?
    case ApplicationOperation =>
      || SaveFails(c) || Hangs(r, c)
      || (c.Reboot? && OrderFits(r, c.reboot.order) && ProvisioningData(r.apps, c.reboot.order, c.reboot.readOk).None?)
      || (c.Start? && PrepareReply(r.apps, c.start.finished, c.start.prepare) == Err(ApplicationOperation))
      || (c.FetchToken? && PrepareReply(r.apps, c.fetch.finished, c.fetch.prepare) == Err(ApplicationOperation))
    case PrepareApplications =>
      || (c.Start? && PrepareReply(r.apps, c.start.finished, c.start.prepare) == Err(PrepareApplications))
      || (c.FetchToken? && PrepareReply(r.apps, c.fetch.finished, c.fetch.prepare) == Err(PrepareApplications))
    case RealmLaunchFail =>
      || (c.Start? && (r.vm.Some? || c.start.launch.SpawnFailed? || c.start.status.StatusFailed?))
      || (c.FetchToken? && (r.vm.Some? || c.fetch.launch.SpawnFailed?))
    case RealmStartFail =>
      c.Start? && !c.start.provisioned && (c.start.status.HasExited? || (c.start.status.StillUp? && Reaps(c.start.shutdown)))
    case VmDestroyFail => c.Start? && !c.start.provisioned && c.start.status.StillUp? && !Reaps(c.start.shutdown)
    case RealmStopFail =>
      (c.Stop? && !c.stop.stopped) || (c.FetchToken? && !c.fetch.stopped) || (c.Reboot? && !c.reboot.rebooted)
    case VmStopFail =>
      || (c.Stop? && c.stop.stopped && (r.vm.None? || !Reaps(c.stop.shutdown)))
      || (c.FetchToken? && c.fetch.stopped && !Reaps(c.fetch.shutdown))
    case AttestationTokenFetch => c.FetchToken? && !c.fetch.fetched
  }

  /** The i-th job to end is the first that ended badly. */
  predicate FirstBad(apps: map<Uuid, App>, finished: seq<Uuid>, jobs: Uuid -> TaskIo, i: nat) {
    && i < |finished| && finished[i] in apps && !ConfigureTask(apps[finished[i]], jobs(finished[i])).1
    && forall k :: 0 <= k < i && finished[k] in apps ==> ConfigureTask(apps[finished[k]], jobs(finished[k])).1
  }

  /** The first job that ends badly decides the error: its own failure, or that it was cut off. */
  lemma {:induction false} PrepareReplyErrors(apps: map<Uuid, App>, finished: seq<Uuid>, jobs: Uuid -> TaskIo)
    ensures PrepareReply(apps, finished, jobs).Err? ==> exists i: nat :: FirstBad(apps, finished, jobs, i)
    ensures forall i: nat :: FirstBad(apps, finished, jobs, i) ==>
      PrepareReply(apps, finished, jobs) == Err(if jobs(finished[i]).Ran? then ApplicationOperation else PrepareApplications)
  {
    if finished != [] {
      var rest := finished[1..];
      PrepareReplyErrors(apps, rest, jobs);
      assert forall k :: 0 <= k < |rest| ==> rest[k] == finished[k + 1];
      if finished[0] in apps && !ConfigureTask(apps[finished[0]], jobs(finished[0])).1 {
        assert FirstBad(apps, finished, jobs, 0);
      } else {
        forall i: nat | FirstBad(apps, rest, jobs, i) ensures FirstBad(apps, finished, jobs, i + 1) {}
        forall i: nat | FirstBad(apps, finished, jobs, i) ensures i > 0 && FirstBad(apps, rest, jobs, i - 1) {
          assert i > 0 && rest[i - 1] == finished[i];
        }
      }
    }
  }

  lemma StartErrors(r: Realm, c: Command)
    requires Fits(r, c) && c.Start? && Apply(r, c).1.Err?
    ensures CausedBy(Apply(r, c).1.error, r, c)
  {
    PrepareReplyErrors(r.apps, c.start.finished, c.start.prepare);
  }

  lemma FetchErrors(r: Realm, c: Command)
    requires Fits(r, c) && c.FetchToken? && Apply(r, c).1.Err?
    ensures CausedBy(Apply(r, c).1.error, r, c)
  {
    PrepareReplyErrors(r.apps, c.fetch.finished, c.fetch.prepare);
  }

  lemma ErrorsNameTheirCause(r: Realm, c: Command)
    requires Fits(r, c) && Apply(r, c).1.Err?
    ensures CausedBy(Apply(r, c).1.error, r, c)
  {
    match c
    case Start(_) => StartErrors(r, c);
    case FetchToken(_) => FetchErrors(r, c);
    case _ =>
  }

  // ----- which applications a command touches -----

  /** The command gets as far as preparing the disks. */
  predicate Prepares(r: Realm, c: Command) {
    r.registered && r.state.Halted? && (c.Start? || c.FetchToken?)
  }

  /** Applications are added by a successful creation only, and none is ever removed. */
  lemma AppsAdded(r: Realm, c: Command)
    requires Fits(r, c)
    ensures Apply(r, c).0.apps.Keys == r.apps.Keys + (if Creates(r, c) then {c.newId} else {})
  {
    if c.Start? { PrepareKeepsKeys(r.apps, c.start.prepare); }
    if c.FetchToken? { PrepareKeepsKeys(r.apps, c.fetch.prepare); }
  }

  function JobsOf(c: Command): Uuid -> TaskIo
    requires c.Start? || c.FetchToken?
  {
    if c.Start? then c.start.prepare else c.fetch.prepare
  }

  /** Preparing is all that a start or a halted fetch does to the applications. */
  lemma PreparedOnly(r: Realm, c: Command)
    requires Fits(r, c) && Prepares(r, c)
    ensures Apply(r, c).0.apps == Prepared(r.apps, JobsOf(c))
  {
    if c.Start? { StartPreparesOnly(r, c.start); } else { FetchPreparesOnly(r, c.fetch); }
  }

  lemma StartPreparesOnly(r: Realm, io: StartIo)
    requires OrderFits(r, io.order) && r.state.Halted?
    ensures DoStart(r, io).0.apps == Prepared(r.apps, io.prepare)
  {
    var (booted, boot) := Boot(r, io.finished, io.prepare, io.launch);
    assert booted.apps == Prepared(r.apps, io.prepare);
    PrepareKeepsKeys(r.apps, io.prepare);
    if boot.Ok? { assert Provision(booted, io).0.apps == booted.apps; }
  }

  lemma FetchPreparesOnly(r: Realm, io: FetchIo)
    requires r.state.Halted?
    ensures DoFetch(r, io).0.apps == Prepared(r.apps, io.prepare)
  {
    assert Boot(r, io.finished, io.prepare, io.launch).0.apps == Prepared(r.apps, io.prepare);
  }

  /** The command addresses the application in a state in which it is changed. */
  predicate Changes(r: Realm, c: Command, u: Uuid) {
    c.UpdateApplication? && c.id == u && r.registered && !r.state.Provisioning?
  }

  /** What a command does to each application the realm has. */
  lemma AppsTouched(r: Realm, c: Command, u: Uuid)
    requires Fits(r, c) && u in r.apps && !(Creates(r, c) && c.newId == u)
    ensures u in Apply(r, c).0.apps
    ensures var a, a' := r.apps[u], Apply(r, c).0.apps[u];
      && a'.config == (if Changes(r, c, u) then c.config else a.config)
      && a'.saved == (if !Changes(r, c, u) then a.saved else if c.save.Saved? then Some(c.config) else c.save.left)
      && (!Prepares(r, c) ==> a'.disk == a.disk)
  {
    if Prepares(r, c) { PreparedOnly(r, c); } else { AppsTouchedElse(r, c, u); }
  }

  lemma AppsTouchedElse(r: Realm, c: Command, u: Uuid)
    requires Fits(r, c) && u in r.apps && !(Creates(r, c) && c.newId == u) && !Prepares(r, c)
    ensures u in Apply(r, c).0.apps
    ensures Apply(r, c).0.apps[u] == if Changes(r, c, u) then WithConfig(r.apps[u], c.config, c.save).0 else r.apps[u]
  {
  }

  /** A new application has the given configuration, saved, and a disk of the configured sizes. */
  lemma AppCreated(r: Realm, c: Command)
    requires Fits(r, c) && Creates(r, c)
    ensures c.newId in Apply(r, c).0.apps
    ensures var a := Apply(r, c).0.apps[c.newId];
      a.config == c.newConfig && a.saved == Some(c.newConfig) && Agrees(a.disk) && SizesAs(a.disk, c.newConfig)
  {
  }

  lemma ConfiguredAgrees(a: App, task: TaskIo)
    requires ConfigureTask(a, task).1
    ensures Agrees(ConfigureTask(a, task).0.disk) && SizesAs(ConfigureTask(a, task).0.disk, a.config)
  {
  }

  lemma PreparedOk(r: Realm, c: Command)
    requires Fits(r, c) && Prepares(r, c) && Apply(r, c).1.Ok?
    ensures PrepareReply(r.apps, if c.Start? then c.start.finished else c.fetch.finished, JobsOf(c)).Ok?
  {
  }

  /** After a start or a halted fetch that succeeded, every disk has the configured sizes. */
  lemma PreparedDisksAgree(r: Realm, c: Command, u: Uuid)
    requires Fits(r, c) && Prepares(r, c) && Apply(r, c).1.Ok? && u in r.apps
    ensures u in Apply(r, c).0.apps && Agrees(Apply(r, c).0.apps[u].disk) && SizesAs(Apply(r, c).0.apps[u].disk, r.apps[u].config)
  {
    var finished := if c.Start? then c.start.finished else c.fetch.finished;
    PreparedOnly(r, c);
    PreparedOk(r, c);
    PrepareReplyOkIff(r.apps, finished, JobsOf(c));
    var i :| 0 <= i < |finished| && finished[i] == u;
    ConfiguredAgrees(r.apps[u], JobsOf(c)(u));
  }

  // ----- the acknowledged provisioning data -----

  /** The realm was told, and acknowledged, exactly what get_data says now of every application. */
  ghost predicate Synced(r: Realm) {
    && r.acked.Some?
    && |r.acked.value| == |r.apps|
    && (forall i, j :: 0 <= i < j < |r.acked.value| ==> r.acked.value[i].id != r.acked.value[j].id)
    && (forall i :: 0 <= i < |r.acked.value| ==>
          r.acked.value[i].id in r.apps &&
          DataOf(r.acked.value[i].id, r.apps[r.acked.value[i].id], true) == Some(r.acked.value[i]))
  }

  lemma {:induction false} ProvisioningDataEntries(apps: map<Uuid, App>, order: seq<Uuid>, readOk: Uuid -> bool)
    requires (forall u :: u in order ==> u in apps) && ProvisioningData(apps, order, readOk).Some?
    ensures var data := ProvisioningData(apps, order, readOk).value;
      && |data| == |order|
      && forall i :: 0 <= i < |order| ==> data[i].id == order[i] && DataOf(order[i], apps[order[i]], true) == Some(data[i])
  {
    if order != [] {
      ProvisioningDataEntries(apps, order[..|order| - 1], readOk);
    }
  }

  lemma {:induction false} OrderLength(order: seq<Uuid>, keys: set<Uuid>)
    requires IsOrder(order, keys)
    ensures |order| == |keys|
    decreases |order|
  {
    if order == [] {
      assert keys == {};
    } else {
      var last := order[|order| - 1];
      var rest := order[..|order| - 1];
      forall u ensures u in rest <==> u in keys - {last} {
        if u in keys && u != last {
          var i :| 0 <= i < |order| && order[i] == u;
          assert rest[i] == u;
        }
      }
      OrderLength(rest, keys - {last});
    }
  }

  lemma GatheredDataIsSynced(r: Realm, order: seq<Uuid>, readOk: Uuid -> bool)
    requires IsOrder(order, r.apps.Keys) && ProvisioningData(r.apps, order, readOk).Some?
    ensures Synced(r.(acked := ProvisioningData(r.apps, order, readOk)))
  {
    ProvisioningDataEntries(r.apps, order, readOk);
    OrderLength(order, r.apps.Keys);
  }

  /** The fields of a configuration that the realm is told. */
  predicate SameToRealm(c: AppConfig, d: AppConfig) {
    c.name == d.name && c.version == d.version && c.registry == d.registry
  }

  predicate SaveFails(c: Command) { c.UpdateApplication? && c.save.SaveFailed? }

  lemma StartEntersSynced(r: Realm, io: StartIo)
    requires IsOrder(io.order, r.apps.Keys) && DoStart(r, io).0.state.Running? && !r.state.Running?
    ensures Synced(DoStart(r, io).0)
  {
    var apps := Prepared(r.apps, io.prepare);
    var started := DoStart(r, io).0;
    assert started.apps == apps && started.acked == ProvisioningData(apps, io.order, io.readOk);
    PrepareKeepsKeys(r.apps, io.prepare);
    GatheredDataIsSynced(started, io.order, io.readOk);
    assert started.(acked := started.acked) == started;
  }

  lemma FailedSaveSynced(r: Realm, c: Command)
    requires r.registered && r.state.Running? && Synced(r) && SaveFails(c) && c.id in r.apps
    ensures Synced(Apply(r, c).0) <==> SameToRealm(c.config, r.apps[c.id].config)
  {
    var r' := Apply(r, c).0;
    var acked := r.acked.value;
    assert r'.apps.Keys == r.apps.Keys;
    assert |r'.apps| == |r'.apps.Keys| == |r.apps.Keys|;
    EveryAppAcked(r, c.id);
    var k :| 0 <= k < |acked| && acked[k].id == c.id;
    assert DataOf(c.id, r.apps[c.id], true) == Some(acked[k]);
    if SameToRealm(c.config, r.apps[c.id].config) {
      forall i | 0 <= i < |acked| ensures acked[i].id in r'.apps && DataOf(acked[i].id, r'.apps[acked[i].id], true) == Some(acked[i]) {
      }
    } else {
      assert DataOf(acked[k].id, r'.apps[acked[k].id], true) != Some(acked[k]);
    }
  }

  lemma {:induction false} DistinctIds(data: seq<AppData>)
    requires forall i, j :: 0 <= i < j < |data| ==> data[i].id != data[j].id
    ensures |set d | d in data :: d.id| == |data|
  {
    if data != [] {
      var rest := data[..|data| - 1];
      var last := data[|data| - 1];
      DistinctIds(rest);
      var ids := set d | d in rest :: d.id;
      assert last.id !in ids;
      assert (set d | d in data :: d.id) == ids + {last.id} by {
        assert data == rest + [last];
      }
    }
  }

  lemma EveryAppAcked(r: Realm, id: Uuid)
    requires Synced(r) && id in r.apps
    ensures exists k :: 0 <= k < |r.acked.value| && r.acked.value[k].id == id
  {
    var data := r.acked.value;
    var ids := set d | d in data :: d.id;
    DistinctIds(data);
    assert ids <= r.apps.Keys;
    SubsetSameSize(ids, r.apps.Keys);
  }

  lemma SubsetSameSize(a: set<Uuid>, b: set<Uuid>)
    requires a <= b && |a| == |b|
    ensures a == b
  {
    assert |b - a| == 0;
  }

  /** A command breaks the agreement exactly when it fails to save a configuration that reads differently to the realm. */
  lemma DesyncIff(r: Realm, c: Command)
    requires Fits(r, c) && (r.state.Running? ==> Synced(r))
    ensures var r' := Apply(r, c).0;
      (r'.state.Running? && !Synced(r')) <==>
      (r.registered && r.state.Running? && SaveFails(c) && c.id in r.apps && !SameToRealm(c.config, r.apps[c.id].config))
  {
    var r' := Apply(r, c).0;
    if r'.state.Running? {
      if c.Start? && !r.state.Running? {
        StartEntersSynced(r, c.start);
      } else if c.Reboot? && Apply(r, c).1.Ok? {
        GatheredDataIsSynced(r, c.reboot.order, c.reboot.readOk);
      } else if r.registered && SaveFails(c) && c.id in r.apps {
        FailedSaveSynced(r, c);
      }
    }
  }

  /** Over every run in which config saves succeed, Running means that the acknowledged data is the current data. */
  lemma {:induction false} RunningIsSynced(trace: seq<Realm>, commands: seq<Command>, i: nat)
    requires IsRun(trace, commands) && i < |trace|
    requires forall k :: 0 <= k < |commands| ==> !SaveFails(commands[k])
    ensures trace[i].state.Running? ==> Synced(trace[i])
    decreases i
  {
    if i > 0 {
      RunningIsSynced(trace, commands, i - 1);
      DesyncIff(trace[i - 1], commands[i - 1]);
    }
  }

  /** The command fails to save, on a running realm, a configuration that reads differently to it. */
  predicate Desyncs(r: Realm, c: Command) {
    r.registered && r.state.Running? && SaveFails(c) && c.id in r.apps && !SameToRealm(c.config, r.apps[c.id].config)
  }

  /** Over a whole run: Running always means agreement exactly if no command of the run breaks it. */
  lemma {:induction false} AlwaysSyncedIff(trace: seq<Realm>, commands: seq<Command>, n: nat)
    requires IsRun(trace, commands) && n <= |commands|
    ensures (forall i :: 0 <= i <= n && trace[i].state.Running? ==> Synced(trace[i])) <==>
      (forall i :: 0 <= i < n ==> !Desyncs(trace[i], commands[i]))
    decreases n
  {
    if n > 0 {
      AlwaysSyncedIff(trace, commands, n - 1);
      assert Apply(trace[n - 1], commands[n - 1]).0 == trace[n];
      if forall i :: 0 <= i <= n - 1 && trace[i].state.Running? ==> Synced(trace[i]) {
        DesyncIff(trace[n - 1], commands[n - 1]);
        assert (trace[n].state.Running? && !Synced(trace[n])) <==> Desyncs(trace[n - 1], commands[n - 1]);
      }
    }
  }

  /** What every command keeps: the VM of an active realm, and the agreement of a running one if its configuration is saved. */
  ghost predicate Sound(r: Realm) {
    VmOk(r) && (r.state.Running? ==> Synced(r))
  }

  lemma CommandKeepsSound(r: Realm, c: Command)
    requires Fits(r, c) && Sound(r) && !SaveFails(c)
    ensures Sound(Apply(r, c).0)
  {
    ApplyKeepsVmOk(r, c);
    DesyncIff(r, c);
  }

  // ----- the irregular states -----

  predicate Stranded(r: Realm) { r.registered && r.state.Halted? && r.vm.Some? }

  /** The start or fetch got as far as a launched VM. */
  predicate Launches(r: Realm, finished: seq<Uuid>, prepare: Uuid -> TaskIo, launch: LaunchIo) {
    r.registered && r.state.Halted? && PrepareReply(r.apps, finished, prepare).Ok? && r.vm.None? && launch.Spawned?
  }

  /** The causes of a halted realm that still has a VM handle. */
  predicate Strands(r: Realm, c: Command) {
    || (&& c.Start? && OrderFits(r, c.start.order) && Launches(r, c.start.finished, c.start.prepare, c.start.launch)
        && ProvisioningData(Prepared(r.apps, c.start.prepare), c.start.order, c.start.readOk).Some? && !c.start.provisioned
        && (c.start.status.StillUp? ==> !Reaps(c.start.shutdown)))
    || (&& c.FetchToken? && Launches(r, c.fetch.finished, c.fetch.prepare, c.fetch.launch)
        && (!c.fetch.stopped || !Reaps(c.fetch.shutdown)))
  }

  /** The cause of a realm that stays in Provisioning. */
  predicate Hangs(r: Realm, c: Command) {
    && c.Start? && OrderFits(r, c.start.order) && Launches(r, c.start.finished, c.start.prepare, c.start.launch)
    && ProvisioningData(Prepared(r.apps, c.start.prepare), c.start.order, c.start.readOk).None?
  }

  lemma StrandedIff(r: Realm, c: Command)
    requires Fits(r, c) && VmOk(r)
    ensures Stranded(Apply(r, c).0) <==> Strands(r, c) || (Stranded(r) && !c.Destroy?)
  {
  }

  lemma ProvisioningIff(r: Realm, c: Command)
    requires Fits(r, c)
    ensures Apply(r, c).0.state.Provisioning? <==> r.state.Provisioning? || Hangs(r, c)
  {
  }

  /** A realm in Provisioning refuses every command, its destruction included, and is changed by none. */
  lemma ProvisioningIsFinal(r: Realm, c: Command)
    requires Fits(r, c) && r.registered && r.state.Provisioning?
    ensures Apply(r, c) == (r, Err(if c.Destroy? then DestroyFail else UnsupportedAction))
  {
  }

  /** An active realm refuses its destruction too. */
  lemma ActiveIsNotDestroyed(r: Realm, shutdown: ShutdownIo)
    requires r.registered && Up(r.state)
    ensures Apply(r, Destroy(shutdown)) == (r, Err(DestroyFail))
  {
  }

  /**
    A halted realm with a VM handle never launches again. Only its destruction ends it, and that
    ends the VM exactly if it can be killed and reaped: otherwise the VM is left without an owner.
   */
  lemma StrandedIsFinal(r: Realm, c: Command)
    requires Fits(r, c) && Stranded(r)
    ensures Stranded(Apply(r, c).0) <==> !c.Destroy?
    ensures !c.Destroy? ==> Apply(r, c).0.vm == r.vm
    ensures c.Start? || c.FetchToken? || c.Stop? || c.Reboot? ==> Apply(r, c).1.Err?
    ensures c.Destroy? ==> Apply(r, c).1.Ok? && !Apply(r, c).0.registered && (Apply(r, c).0.vm.None? <==> Reaps(c.destroy))
  {
  }

  function Strandings(trace: seq<Realm>, commands: seq<Command>): seq<bool>
    requires |trace| == |commands| + 1
  {
    seq(|commands|, i requires 0 <= i < |commands| => Strands(trace[i], commands[i]))
  }

  function Destructions(commands: seq<Command>): seq<bool> {
    seq(|commands|, i requires 0 <= i < |commands| => commands[i].Destroy?)
  }

  /** A VM is stranded exactly if one of the causes occurred and the realm has not been destroyed since. */
  lemma StrandedAccount(trace: seq<Realm>, commands: seq<Command>, n: nat)
    requires IsRun(trace, commands) && n <= |commands|
    ensures Stranded(trace[n]) <==> SetBefore(Strandings(trace, commands), Destructions(commands), n)
  {
    var holds := seq(|trace|, i requires 0 <= i < |trace| => Stranded(trace[i]));
    var on, off := Strandings(trace, commands), Destructions(commands);
    forall k | 0 <= k < |commands| ensures holds[k + 1] == (on[k] || (holds[k] && !off[k])) {
      ActiveRealmHasItsVm(trace, commands, k);
      StrandedIff(trace[k], commands[k]);
    }
    Latch(holds, on, off, n);
  }

  /** After a run the realm is in Provisioning exactly if some start could not build its provisioning data. */
  lemma {:induction false} ProvisioningAccount(trace: seq<Realm>, commands: seq<Command>, n: nat)
    requires IsRun(trace, commands) && n <= |commands|
    ensures trace[n].state.Provisioning? <==> exists i :: 0 <= i < n && Hangs(trace[i], commands[i])
    decreases n
  {
    if n > 0 {
      ProvisioningAccount(trace, commands, n - 1);
      ProvisioningIff(trace[n - 1], commands[n - 1]);
    }
  }

  // ----- runs in which it happens -----

  function Empty(): Realm { Realm(Halted, map[], None, None, true) }

  function StartWith(order: seq<Uuid>, job: TaskIo, readOk: bool, provisioned: bool, status: StatusIo): Command {
    Start(StartIo(order, u => job, order, Spawned(1), u => readOk, provisioned, status, ShutdownIo(true, true)))
  }

  /** A realm without applications whose VM exits before it is provisioned keeps the handle. */
  lemma StrandingHappens() returns (trace: seq<Realm>, commands: seq<Command>)
    ensures IsRun(trace, commands) && Stranded(trace[|commands|])
  {
    var start := StartWith([], Aborted(false, None), true, false, HasExited);
    assert Prepared(Empty().apps, start.start.prepare) == map[];
    assert ProvisioningData(map[], [], start.start.readOk) == Some([]);
    commands := [start];
    trace := [Empty(), Apply(Empty(), start).0];
  }

  function SomeConfig(name: string): AppConfig { AppConfig(name, "1", "registry", 1, 1) }

  function GoodIo(): DiskIo { DiskIo(true, Created(11, 12), true) }

  /** One application, freshly created. */
  lemma OneApplication() returns (app: App)
    ensures CreateApp(SomeConfig("a"), true, Saved, GoodIo()) == Some(app)
    ensures app.config == SomeConfig("a") && Configure(app, GoodIo()) == (app, true)
    ensures DataOf(7, app, true) == Some(AppData(7, "a", "1", "registry", 11, 12)) && DataOf(7, app, false).None?
  {
    var disk := NewDisk(SomeConfig("a"), None).value;
    assert ToBytes(1) == Ok(disk.imageBytes) && ToBytes(1) == Ok(disk.dataBytes);
    assert Admissible(disk);
    CreateAgrees(disk, GoodIo());
    app := CreateApp(SomeConfig("a"), true, Saved, GoodIo()).value;
  }

  function WithApp(app: App): Realm { Realm(Halted, map[7 := app], None, None, true) }

  function CreateIt(): Command { CreateApplication(7, SomeConfig("a"), CreateAppIo(true, Saved, GoodIo())) }

  lemma CreateWorks() returns (app: App)
    ensures Apply(Empty(), CreateIt()).0 == WithApp(app) && app.config == SomeConfig("a")
    ensures DataOf(7, app, true) == Some(AppData(7, "a", "1", "registry", 11, 12)) && DataOf(7, app, false).None?
    ensures Prepared(map[7 := app], u => Ran(GoodIo())) == map[7 := app]
    ensures PrepareReply(map[7 := app], [7], u => Ran(GoodIo())).Ok?
  {
    app := OneApplication();
    assert Configure(app, GoodIo()) == (app, true);
    assert PrepareReply(map[7 := app], [7], u => Ran(GoodIo())) == PrepareReply(map[7 := app], [7][1..], u => Ran(GoodIo()));
    assert map[][7 := app] == map[7 := app];
  }

  lemma OneData(app: App, readOk: Uuid -> bool)
    ensures ProvisioningData(map[7 := app], [7], readOk) ==
      if DataOf(7, app, readOk(7)).None? then None else Some([DataOf(7, app, readOk(7)).value])
  {
    var apps: map<Uuid, App> := map[7 := app];
    var order: seq<Uuid> := [7];
    assert order[..|order| - 1] == [] && ProvisioningData(apps, [], readOk) == Some([]);
    var data := DataOf(7, app, readOk(7));
    assert ProvisioningData(apps, order, readOk) == if data.None? then None else Some([] + [data.value]);
    if data.Some? { assert [] + [data.value] == [data.value]; }
  }

  /** A start whose application's disk cannot be read leaves the realm in Provisioning. */
  lemma HangingHappens() returns (trace: seq<Realm>, commands: seq<Command>)
    ensures IsRun(trace, commands) && trace[|commands|].state.Provisioning?
  {
    var app := CreateWorks();
    var start := StartWith([7], Ran(GoodIo()), false, false, HasExited);
    OneData(app, start.start.readOk);
    commands := [CreateIt(), start];
    trace := [Empty(), WithApp(app), Apply(WithApp(app), start).0];
  }

  /** A realm that was started with one application. */
  lemma StartWorks() returns (app: App, start: Command, running: Realm)
    ensures Apply(Empty(), CreateIt()).0 == WithApp(app) && app.config == SomeConfig("a")
    ensures start.Start? && Fits(WithApp(app), start) && Apply(WithApp(app), start).0 == running
    ensures running.registered && running.state.Running? && running.apps == map[7 := app] && Synced(running)
  {
    app := CreateWorks();
    start := StartWith([7], Ran(GoodIo()), true, true, HasExited);
    OneData(app, start.start.readOk);
    running := Apply(WithApp(app), start).0;
    assert IsOrder([7], WithApp(app).apps.Keys);
    StartEntersSynced(WithApp(app), start.start);
  }

  /** A running realm whose configuration could not be saved runs on with what it was told before. */
  lemma DesyncHappens() returns (trace: seq<Realm>, commands: seq<Command>)
    ensures IsRun(trace, commands) && trace[|commands|].state.Running? && !Synced(trace[|commands|])
  {
    var app, start, running := StartWorks();
    var update := UpdateApplication(7, SomeConfig("b"), SaveFailed(None));
    DesyncIff(running, update);
    commands := [CreateIt(), start, update];
    trace := [Empty(), WithApp(app), running, Apply(running, update).0];
  }
}
