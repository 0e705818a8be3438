/**
  The objects of the warden daemon that own one realm: `VmRunner` with the VM handle and
  `RealmManager` with the state and the applications. Each method is proved to do what the
  corresponding function of `RealmLifecycle` says.
 */
module RealmManagement {
  import opened Outcomes
  import opened AppDisk
  import opened Application
  import opened RealmLifecycle

  class VmRunner {
    var vm: Option<Vm>

    constructor ()
      ensures vm == None
    {
      vm := None;
    }

    method LaunchVm(disks: set<Uuid>, io: LaunchIo) returns (ok: bool)
      modifies this`vm
      ensures (vm, ok) == RealmLifecycle.LaunchVm(old(vm), disks, io)
    {
      if vm.Some? { return false; }
      match io
      case SpawnFailed => return false;
      case Spawned(pid) =>
        vm := Some(Vm(pid, disks));
        return true;
    }

    method Shutdown(io: ShutdownIo) returns (ok: bool)
      modifies this`vm
      ensures (vm, ok) == ShutdownVm(old(vm), io)
    {
      if vm.None? || !io.killOk || !io.waitOk { return false; }
      vm := None;
      return true;
    }
  }

  class RealmManager {
    var registered: bool     // the registry still has the realm
    var state: State
    var applications: map<Uuid, ApplicationManager>
    const vmManager: VmRunner
    ghost var apps: map<Uuid, App>              // what the applications hold
    ghost var disks: set<ApplicationDiskManager>
    ghost var acked: Option<seq<AppData>>       // the data the realm acknowledged last

    /** Each application has an identity and a directory of its own, and `apps` tells what they hold. */
    ghost predicate Valid()
      reads this`applications, this`apps, this`disks, applications.Values, disks
    {
      && apps.Keys == applications.Keys
      && forall u :: u in applications ==>
           && applications[u].uuid == u && applications[u].disk.workdir == u
           && applications[u].disk in disks && applications[u].Model() == apps[u]
    }

    ghost function Model(): Realm
      reads this, vmManager
    {
      Realm(state, apps, vmManager.vm, acked, registered)
    }

    constructor (applications: map<Uuid, ApplicationManager>)
      requires forall u :: u in applications ==> applications[u].uuid == u && applications[u].disk.workdir == u
      ensures Valid() && this.applications == applications && fresh(vmManager)
      ensures Model() == Realm(Halted, apps, None, None, true) && Sound(Model())
    {
      this.registered, this.state, this.applications, this.acked := true, Halted, applications, None;
      this.apps := map u | u in applications :: applications[u].Model();
      this.disks := set u | u in applications :: applications[u].disk;
      this.vmManager := new VmRunner();
    }

    /** One spawned task: it runs configure_disk, or is aborted while it does. */
    method ConfigureOne(u: Uuid, task: TaskIo) returns (ok: bool)
      requires Valid() && u in applications
      modifies this`apps, applications[u].disk
      ensures Valid()
      ensures (apps[u], ok) == ConfigureTask(old(apps[u]), task)
      ensures apps == old(apps)[u := apps[u]]
    {
      ok := applications[u].ConfigureDiskTask(task);
      apps := apps[u := applications[u].Model()];
    }

    /**
      Takes the jobs in the order in which they end and reports the first that ended badly. The
      jobs behind that one have ended too or are aborted; what they did to their disks remains.
     */
    method PrepareApplications(finished: seq<Uuid>, jobs: Uuid -> TaskIo) returns (r: Reply)
      requires Valid() && IsOrder(finished, applications.Keys)
      modifies this`apps, disks
      ensures Valid()
      ensures apps == Prepared(old(apps), jobs) && r == PrepareReply(old(apps), finished, jobs)
    {
      r := Ok(());
      for i := 0 to |finished|
        invariant Valid()
        invariant apps == Partial(old(apps), finished[..i], jobs)
        invariant r == PrepareReply(old(apps), finished[..i], jobs)
      {
        var u := finished[i];
        OneMoreFinished(old(apps), finished, i, jobs);
        OneMoreReply(old(apps), finished, i, jobs);
        var ok := ConfigureOne(u, jobs(u));
        if !ok && r.Ok? {
          r := Err(if jobs(u).Ran? then RealmError.ApplicationOperation else RealmError.PrepareApplications);
        }
      }
      AllFinished(old(apps), finished, jobs);
    }

    method CreateProvisioningConfig(order: seq<Uuid>, readOk: Uuid -> bool) returns (data: Option<seq<AppData>>)
      requires Valid() && IsOrder(order, applications.Keys)
      ensures data == ProvisioningData(apps, order, readOk)
    {
      var gathered := [];
      for i := 0 to |order|
        invariant ProvisioningData(apps, order[..i], readOk) == Some(gathered)
      {
        var one := applications[order[i]].GetData(readOk(order[i]));
        assert order[..i + 1][..i] == order[..i];
        if one.None? {
          ProvisioningFails(apps, order, readOk, i + 1);
          return None;
        }
        gathered := gathered + [one.value];
      }
      assert order[..|order|] == order;
      return Some(gathered);
    }

    method HandleStartResponse(provisioned: bool, status: StatusIo, shutdown: ShutdownIo) returns (r: Reply)
      requires Valid()
      modifies this`state, vmManager`vm
      ensures Valid()
      ensures r.Ok? <==> provisioned
      ensures state == if provisioned then Running else Halted
      ensures provisioned ==> r == Ok(()) && Model() == old(Model()).(state := Running)
      ensures !provisioned ==> (Model(), r) == FailedStart(old(Model()), status, shutdown)
    {
      if provisioned {
        state := Running;
        return Ok(());
      }
      state := Halted;
      if vmManager.vm.None? { return Err(RealmStartFail); }
      match status
      case StatusFailed => return Err(RealmLaunchFail);
      case HasExited => return Err(RealmStartFail);
      case StillUp =>
        var ok := Shutdown(shutdown);
        if !ok { return Err(VmDestroyFail); }
        return Err(RealmStartFail);
    }

    method Launch(launch: LaunchIo) returns (ok: bool)
      requires Valid()
      modifies vmManager`vm
      ensures Valid()
      ensures (vmManager.vm, ok) == RealmLifecycle.LaunchVm(old(vmManager.vm), apps.Keys, launch)
    {
      ok := vmManager.LaunchVm(applications.Keys, launch);
    }

    method Shutdown(shutdown: ShutdownIo) returns (ok: bool)
      requires Valid()
      modifies vmManager`vm
      ensures Valid()
      ensures (vmManager.vm, ok) == ShutdownVm(old(vmManager.vm), shutdown)
    {
      ok := vmManager.Shutdown(shutdown);
    }

    /** The common beginning of Start and of a token fetch from a halted realm. */
    method PrepareAndLaunch(finished: seq<Uuid>, prepare: Uuid -> TaskIo, launch: LaunchIo) returns (r: Reply)
      requires Valid() && IsOrder(finished, applications.Keys)
      modifies this`apps, vmManager`vm, disks
      ensures Valid()
      ensures (Model(), r) == Boot(old(Model()), finished, prepare, launch)
    {
      ghost var before := Model();
      PrepareKeepsKeys(before.apps, prepare);
      r := PrepareApplications(finished, prepare);
      ghost var prepared := before.(apps := Prepared(before.apps, prepare));
      assert Model() == prepared;
      if r.Err? { return; }
      var launched := Launch(launch);
      assert Model() == prepared.(vm := vmManager.vm);
      if !launched { return Err(RealmLaunchFail); }
      return Ok(());
    }

    /** The rest of Start, once the VM is launched. */
    method ProvisionRealm(io: StartIo) returns (r: Reply)
      requires Valid() && IsOrder(io.order, applications.Keys)
      modifies this`state, this`acked, vmManager`vm
      ensures Valid()
      ensures (Model(), r) == Provision(old(Model()), io)
    {
      state := Provisioning;
      var data := CreateProvisioningConfig(io.order, io.readOk);
      if data.None? { return Err(RealmError.ApplicationOperation); }
      if io.provisioned { acked := data; }
      r := HandleStartResponse(io.provisioned, io.status, io.shutdown);
    }

    method Start(io: StartIo) returns (r: Reply)
      requires Valid() && IsOrder(io.order, applications.Keys) && IsOrder(io.finished, applications.Keys)
      modifies this`state, this`apps, this`acked, vmManager`vm, disks
      ensures Valid()
      ensures (Model(), r) == DoStart(old(Model()), io)
      ensures r.Ok? <==> old(state).Halted? && state.Running?
    {
      StartMeans(Model(), io);
      if state != Halted { return Err(UnsupportedAction); }
      r := PrepareAndLaunch(io.finished, io.prepare, io.launch);
      if r.Err? { return; }
      r := ProvisionRealm(io);
    }

    method FetchAttestationToken(io: FetchIo) returns (r: Reply)
      requires Valid() && IsOrder(io.finished, applications.Keys)
      modifies this`apps, vmManager`vm, disks
      ensures Valid()
      ensures (Model(), r) == DoFetch(old(Model()), io)
    {
      if state == Provisioning { return Err(UnsupportedAction); }
      if state == Halted {
        r := PrepareAndLaunch(io.finished, io.prepare, io.launch);
        if r.Err? { return; }
        if !io.stopped { return Err(RealmStopFail); }
        var ok := Shutdown(io.shutdown);
        if !ok { return Err(VmStopFail); }
      }
      return if io.fetched then Ok(()) else Err(AttestationTokenFetch);
    }

    method Stop(io: StopIo) returns (r: Reply)
      requires Valid()
      modifies this`state, vmManager`vm
      ensures Valid()
      ensures (Model(), r) == DoStop(old(Model()), io)
      ensures r.Ok? <==> Up(old(state)) && state.Halted?
    {
      StopMeans(Model(), io);
      if state != NeedReboot && state != Running { return Err(UnsupportedAction); }
      if !io.stopped { return Err(RealmStopFail); }
      var ok := Shutdown(io.shutdown);
      if !ok { return Err(VmStopFail); }
      state := Halted;
      return Ok(());
    }

    method Reboot(io: RebootIo) returns (r: Reply)
      requires Valid() && IsOrder(io.order, applications.Keys)
      modifies this`state, this`acked
      ensures Valid()
      ensures (Model(), r) == DoReboot(old(Model()), io)
      ensures r.Ok? ==> Up(old(state)) && state.Running? && acked == ProvisioningData(apps, io.order, io.readOk)
      ensures r.Err? ==> Model() == old(Model())
    {
      if state != NeedReboot && state != Running { return Err(UnsupportedAction); }
      var data := CreateProvisioningConfig(io.order, io.readOk);
      if data.None? { return Err(RealmError.ApplicationOperation); }
      if !io.rebooted { return Err(RealmStopFail); }
      acked := data;
      state := Running;
      return Ok(());
    }

    /** create_application of the application fabric: the object with its disk, or nothing. */
    method MakeApplication(id: Uuid, config: AppConfig, io: CreateAppIo) returns (app: Option<ApplicationManager>)
      ensures app.Some? <==> CreateApp(config, io.dirOk, io.save, io.disk).Some?
      ensures app.Some? ==> fresh(app.value) && fresh(app.value.disk) && app.value.uuid == id && app.value.disk.workdir == id
      ensures app.Some? ==> app.value.Model() == CreateApp(config, io.dirOk, io.save, io.disk).value
      ensures app.Some? ==> app.value.config == config && Agrees(app.value.disk.Model())
    {
      var size := NewDisk(config, None);
      if !io.dirOk || size.None? || !io.save.Saved? { return None; }
      var disk := new ApplicationDiskManager(id, size.value);
      var ok := disk.CreateDiskWithPartitions(io.disk);
      if !ok { return None; }
      var made := new ApplicationManager(id, config, disk);
      return Some(made);
    }

    method Insert(app: ApplicationManager)
      requires Valid() && app.disk.workdir == app.uuid
      modifies this`applications, this`apps, this`disks
      ensures Valid() && apps == old(apps)[app.uuid := app.Model()] && applications == old(applications)[app.uuid := app]
    {
      applications := applications[app.uuid := app];
      apps := apps[app.uuid := app.Model()];
      disks := disks + {app.disk};
    }

    method CreateApplication(id: Uuid, config: AppConfig, io: CreateAppIo) returns (r: Reply)
      requires Valid()
      modifies this`applications, this`apps, this`disks
      ensures Valid()
      ensures (Model(), r) == DoCreate(old(Model()), id, config, io)
      ensures r.Err? ==> applications == old(applications)
      ensures r.Ok? ==>
        && applications.Keys == old(applications).Keys + {id}
        && (forall u :: u in old(applications) && u != id ==> applications[u] == old(applications)[u])
        && applications[id].config == config && Agrees(applications[id].disk.Model())
    {
      if state != Halted { return Err(UnsupportedAction); }
      var app := MakeApplication(id, config, io);
      if app.None? { return Err(ApplicationCreationFail); }
      Insert(app.value);
      return Ok(());
    }

    method UpdateOne(id: Uuid, config: AppConfig, save: SaveIo) returns (ok: bool)
      requires Valid() && id in applications
      modifies this`apps, applications[id]
      ensures Valid()
      ensures apps == old(apps)[id := WithConfig(old(apps)[id], config, save).0] && ok == WithConfig(old(apps)[id], config, save).1
    {
      ok := applications[id].UpdateConfig(config, save);
      apps := apps[id := applications[id].Model()];
    }

    method UpdateApplication(id: Uuid, config: AppConfig, save: SaveIo) returns (r: Reply)
      requires Valid()
      modifies this`state, this`apps, if id in applications then {applications[id]} else {}
      ensures Valid()
      ensures (Model(), r) == DoUpdate(old(Model()), id, config, save)
      ensures r.Ok? <==> !old(state).Provisioning? && id in applications && save.Saved?
      ensures state == if r.Ok? && old(state).Running? then NeedReboot else old(state)
    {
      if state == Provisioning { return Err(UnsupportedAction); }
      if id !in applications { return Err(ApplicationMissing); }
      var ok := UpdateOne(id, config, save);
      if !ok { return Err(RealmError.ApplicationOperation); }
      if state == Running { state := NeedReboot; }
      return Ok(());
    }

    /** The part of a destruction that is the realm's own: its VM is shut down if it has one. */
    method Destroy(shutdown: ShutdownIo) returns (ok: bool)
      requires Valid()
      modifies vmManager`vm
      ensures Valid()
      ensures state.Halted? ==> Model().(registered := false) == DoDestroy(old(Model()), shutdown).0
      ensures ok <==> old(vmManager.vm).Some? && Reaps(shutdown)
    {
      ok := Shutdown(shutdown);
    }

    /** destroy_realm: a realm that is not halted is refused; the outcome of the VM's shutdown is ignored. */
    method DestroyRealm(shutdown: ShutdownIo) returns (r: Reply)
      requires Valid()
      modifies this`registered, vmManager`vm
      ensures Valid() && (Model(), r) == DoDestroy(old(Model()), shutdown)
    {
      if state != Halted { return Err(DestroyFail); }
      var ok := Destroy(shutdown);
      registered := false;
      return Ok(());
    }

    /** Any command, on the object: what it does is what the lifecycle says, and it keeps the realm sound. */
    method Handle(c: Command) returns (r: Reply)
      requires Valid() && Fits(Model(), c)
      modifies this, vmManager, disks, applications.Values
      ensures Valid() && (Model(), r) == Apply(old(Model()), c)
      ensures old(Sound(Model())) && !SaveFails(c) ==> Sound(Model())
    {
      KeepSound(Model(), c);
      if !registered { return Err(NoSuchRealm); }
      match c
      case Start(io) => r := Start(io);
      case Stop(io) => r := Stop(io);
      case Reboot(io) => r := Reboot(io);
      case FetchToken(io) => r := FetchAttestationToken(io);
      case CreateApplication(id, config, io) => r := CreateApplication(id, config, io);
      case UpdateApplication(id, config, save) => r := UpdateApplication(id, config, save);
      case Destroy(shutdown) => r := DestroyRealm(shutdown);
    }

    /** Hands out an application only while the realm is up. */
    method GetApplication(id: Uuid) returns (r: Result<ApplicationManager, RealmError>)
      requires Valid()
      ensures r.Ok? <==> Up(state) && id in applications
      ensures r.Ok? ==> r.value == applications[id] && r.value.uuid == id
      ensures r.Err? ==> r.error == if Up(state) then ApplicationMissing else UnsupportedAction
    {
      if state != Running && state != NeedReboot { return Err(UnsupportedAction); }
      if id !in applications { return Err(ApplicationMissing); }
      return Ok(applications[id]);
    }
  }

  lemma KeepSound(r: Realm, c: Command)
    requires Fits(r, c)
    ensures Sound(r) && !SaveFails(c) ==> Sound(Apply(r, c).0)
  {
    if Sound(r) && !SaveFails(c) { CommandKeepsSound(r, c); }
  }

  /** The applications after the jobs in `done` have ended. */
  ghost function Partial(before: map<Uuid, App>, done: seq<Uuid>, jobs: Uuid -> TaskIo): map<Uuid, App> {
    map u | u in before :: if u in done then ConfigureTask(before[u], jobs(u)).0 else before[u]
  }

  lemma OneMoreFinished(before: map<Uuid, App>, order: seq<Uuid>, i: nat, jobs: Uuid -> TaskIo)
    requires IsOrder(order, before.Keys) && i < |order|
    ensures var u := order[i];
      var now := Partial(before, order[..i], jobs);
      now[u] == before[u] && Partial(before, order[..i + 1], jobs) == now[u := ConfigureTask(before[u], jobs(u)).0]
  {
    var u := order[i];
    assert order[..i + 1] == order[..i] + [u];
    assert forall v :: v in order[..i + 1] <==> v in order[..i] || v == u;
    assert u !in order[..i];
  }

  lemma {:induction false} OneMoreVerdict(before: map<Uuid, App>, done: seq<Uuid>, u: Uuid, jobs: Uuid -> TaskIo)
    requires u in before
    ensures PrepareReply(before, done + [u], jobs) ==
      if PrepareReply(before, done, jobs).Err? || ConfigureTask(before[u], jobs(u)).1 then PrepareReply(before, done, jobs)
      else Err(if jobs(u).Ran? then RealmError.ApplicationOperation else RealmError.PrepareApplications)
    decreases |done|
  {
    if done == [] {
      assert done + [u] == [u] && [u][1..] == [];
    } else {
      assert (done + [u])[0] == done[0] && (done + [u])[1..] == done[1..] + [u];
      OneMoreVerdict(before, done[1..], u, jobs);
    }
  }

  lemma OneMoreReply(before: map<Uuid, App>, order: seq<Uuid>, i: nat, jobs: Uuid -> TaskIo)
    requires IsOrder(order, before.Keys) && i < |order|
    ensures var u := order[i];
      PrepareReply(before, order[..i + 1], jobs) ==
        if PrepareReply(before, order[..i], jobs).Err? || ConfigureTask(before[u], jobs(u)).1 then PrepareReply(before, order[..i], jobs)
        else Err(if jobs(u).Ran? then RealmError.ApplicationOperation else RealmError.PrepareApplications)
  {
    assert order[..i + 1] == order[..i] + [order[i]];
    OneMoreVerdict(before, order[..i], order[i], jobs);
  }

  lemma AllFinished(before: map<Uuid, App>, order: seq<Uuid>, jobs: Uuid -> TaskIo)
    requires IsOrder(order, before.Keys)
    ensures order[..|order|] == order && Partial(before, order, jobs) == Prepared(before, jobs)
  {
    assert order[..|order|] == order;
  }

  /** Once one application's data cannot be read, the whole configuration cannot be built. */
  lemma {:induction false} ProvisioningFails(apps: map<Uuid, App>, order: seq<Uuid>, readOk: Uuid -> bool, n: nat)
    requires (forall u :: u in order ==> u in apps) && n <= |order| && ProvisioningData(apps, order[..n], readOk).None?
    ensures ProvisioningData(apps, order, readOk).None?
    decreases |order|
  {
    if n == |order| {
      assert order[..n] == order;
    } else {
      assert order[..|order| - 1][..n] == order[..n];
      ProvisioningFails(apps, order[..|order| - 1], readOk, n);
    }
  }
}
