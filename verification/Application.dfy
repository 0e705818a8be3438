/**
  One application of a realm: `ApplicationManager` with its configuration repository and its disk,
  and `ApplicationFabric`, which creates it or loads it when the daemon starts.
 */
module Application {
  import opened Outcomes
  import opened AppDisk

  type Uuid = nat

  datatype AppConfig = AppConfig(name: string, version: string, registry: string, imageMb: u32, dataMb: u32)

  /** What the realm is told about an application. */
  datatype AppData = AppData(
    id: Uuid, name: string, version: string, registry: string, imagePart: Guid, dataPart: Guid)

  /** The configuration in memory, the one in the file (`None` when it is unreadable), and the disk. */
  datatype App = App(config: AppConfig, saved: Option<AppConfig>, disk: Disk)

  datatype SaveIo = Saved | SaveFailed(left: Option<AppConfig>)

  /** A configure_disk task: it ran to its end, or it was aborted when a sibling failed or panicked. */
  datatype TaskIo = Ran(io: DiskIo) | Aborted(sizesRecorded: bool, left: Option<Partitions>)

  /** configure_disk */
  function Configure(a: App, io: DiskIo): (r: (App, bool)) {
    var (disk, ok) := Update(a.disk, a.config.dataMb, a.config.imageMb, io);
    (a.(disk := disk), ok)
  }

  /** The effect of a configure_disk task; an aborted one may have been cut while it rewrote the disk. */
  function ConfigureTask(a: App, task: TaskIo): (r: (App, bool)) {
    match task
    case Ran(io) => Configure(a, io)
    case Aborted(sizesRecorded, left) =>
      var image, data := ToBytes(a.config.imageMb), ToBytes(a.config.dataMb);
      if sizesRecorded && image.Ok? && data.Ok?
      then (a.(disk := Disk(image.value, data.value, left)), false)
      else (a, false)
  }

  /** update_config: the memory is changed before the file is written. */
  function WithConfig(a: App, c: AppConfig, save: SaveIo): (r: (App, bool)) {
    (a.(config := c, saved := if save.Saved? then Some(c) else save.left), save.Saved?)
  }

  /** get_data: both partition GUIDs are read from the disk. */
  function DataOf(id: Uuid, a: App, readOk: bool): Option<AppData> {
    if readOk && a.disk.file.Some? && IMAGE_PARTITION in a.disk.file.value && DATA_PARTITION in a.disk.file.value
    then Some(AppData(id, a.config.name, a.config.version, a.config.registry,
                      a.disk.file.value[IMAGE_PARTITION].guid, a.disk.file.value[DATA_PARTITION].guid))
    else None
  }

  /** ApplicationDiskManager::new on a directory whose disk file holds `file`. */
  function NewDisk(c: AppConfig, file: Option<Partitions>): Option<Disk> {
    var data, image := ToBytes(c.dataMb), ToBytes(c.imageMb);
    if data.Err? || image.Err? then None else Some(Disk(image.value, data.value, file))
  }

  /** create_application in a fresh directory. */
  function CreateApp(c: AppConfig, dirOk: bool, save: SaveIo, io: DiskIo): Option<App> {
    var disk := NewDisk(c, None);
    if !dirOk || disk.None? || !save.Saved? then None
    else
      var (made, ok) := CreateIfWrong(disk.value, io);
      if ok then Some(App(c, Some(c), made)) else None
  }

  /** load_application from what an earlier daemon left in the directory. */
  function LoadApp(saved: Option<AppConfig>, file: Option<Partitions>, io: DiskIo): Option<App> {
    if saved.None? then None
    else
      var disk := NewDisk(saved.value, file);
      if disk.None? then None
      else
        var (made, ok) := CreateIfWrong(disk.value, io);
        if ok then Some(App(saved.value, saved, made)) else None
  }

  // ----- recorded sizes and GUIDs over any history -----

  datatype Event = Configures(io: DiskIo) | Updates(config: AppConfig, save: SaveIo) | Reloads(io: DiskIo)

  /** The application after an event; `None` when the daemon could not load it. */
  function After(a: App, e: Event): Option<App> {
    match e
    case Configures(io) => Some(Configure(a, io).0)
    case Updates(c, save) => Some(WithConfig(a, c, save).0)
    case Reloads(io) => LoadApp(a.saved, a.disk.file, io)
  }

  function History(a: App, events: seq<Event>): Option<App>
    decreases |events|
  {
    if events == [] then Some(a)
    else
      var next := After(a, events[0]);
      if next.None? then None else History(next.value, events[1..])
  }

  predicate DiskOk(io: DiskIo) { io.readOk && io.create.Created? && io.readBackOk }

  predicate IoOk(e: Event) {
    match e
    case Configures(io) => DiskOk(io)
    case Updates(_, save) => save.Saved?
    case Reloads(io) => DiskOk(io)
  }

  ghost predicate Healthy(a: App) {
    Agrees(a.disk) && Admissible(a.disk) && a.saved == Some(a.config)
  }

  /** The partition GUIDs that get_data reports. */
  function Guids(a: App): (Guid, Guid)
    requires Agrees(a.disk)
  {
    (a.disk.file.value[IMAGE_PARTITION].guid, a.disk.file.value[DATA_PARTITION].guid)
  }

  predicate SizesAs(d: Disk, c: AppConfig) {
    ToBytes(c.imageMb) == Ok(d.imageBytes) && ToBytes(c.dataMb) == Ok(d.dataBytes)
  }

  lemma CreateAppHealthy(c: AppConfig, dirOk: bool, save: SaveIo, io: DiskIo)
    requires CreateApp(c, dirOk, save, io).Some? && io.create.Created?
    ensures Healthy(CreateApp(c, dirOk, save, io).value) && SizesAs(CreateApp(c, dirOk, save, io).value.disk, c)
  {
    CreateAgrees(NewDisk(c, None).value, io);
  }

  /** An application is created exactly if its directory, configuration file and disk could be made and its sizes are admissible. */
  lemma CreateAppIff(c: AppConfig, dirOk: bool, save: SaveIo, io: DiskIo)
    ensures CreateApp(c, dirOk, save, io).Some? <==>
      dirOk && SizesOk(c.imageMb, c.dataMb) && save.Saved? && io.create.Created? && io.readBackOk
  {
    if SizesOk(c.imageMb, c.dataMb) && io.create.Created? {
      assert Admissible(NewDisk(c, None).value);
      CreateAgrees(NewDisk(c, None).value, io);
    }
  }

  /** What the realm is told of an application with a readable disk: its configuration and the GUIDs of both partitions. */
  lemma DataTellsConfigAndGuids(id: Uuid, a: App)
    requires Agrees(a.disk)
    ensures DataOf(id, a, true).Some? && DataOf(id, a, false).None?
    ensures var d := DataOf(id, a, true).value;
      && d.id == id && d.name == a.config.name && d.version == a.config.version && d.registry == a.config.registry
      && (d.imagePart, d.dataPart) == Guids(a)
  {
  }

  /** The disk is recreated, with the new GUIDs, exactly when the configured sizes are admissible and differ. */
  lemma AfterKeeps(a: App, e: Event)
    requires Healthy(a) && IoOk(e) && After(a, e).Some?
    ensures Healthy(After(a, e).value)
    ensures var b := After(a, e).value;
      if e.Updates? || SizesAs(a.disk, a.config) || (e.Configures? && (ToBytes(a.config.imageMb).Err? || ToBytes(a.config.dataMb).Err?))
      then b.disk == a.disk
      else SizesAs(b.disk, a.config) && Guids(b) == (e.io.create.imageGuid, e.io.create.dataGuid)
  {
    if !e.Updates? && NewDisk(a.config, a.disk.file).Some? {
      CreateAgrees(NewDisk(a.config, a.disk.file).value, e.io);
      assert CreateIfWrong(NewDisk(a.config, a.disk.file).value, e.io).0.imageBytes == ToBytes(a.config.imageMb).value;
    }
  }

  predicate ConfigOk(c: AppConfig) { SizesOk(c.imageMb, c.dataMb) }

  /** The configuration in force when the k-th event comes. */
  function ConfigAt(a: App, events: seq<Event>, k: nat): AppConfig
    requires k <= |events|
  {
    if k == 0 then a.config else if events[k - 1].Updates? then events[k - 1].config else ConfigAt(a, events, k - 1)
  }

  lemma AfterNoneIff(a: App, e: Event)
    requires Healthy(a) && IoOk(e)
    ensures After(a, e).None? <==> e.Reloads? && !ConfigOk(a.config)
    ensures After(a, e).Some? ==> After(a, e).value.config == if e.Updates? then e.config else a.config
  {
    if e.Reloads? && ConfigOk(a.config) {
      var disk := NewDisk(a.config, a.disk.file).value;
      assert Admissible(disk);
      CreateAgrees(disk, e.io);
    }
  }

  lemma {:induction false} ConfigAtShift(a: App, b: App, events: seq<Event>, k: nat)
    requires events != [] && k < |events| && b.config == (if events[0].Updates? then events[0].config else a.config)
    ensures ConfigAt(b, events[1..], k) == ConfigAt(a, events, k + 1)
  {
    if k > 0 { ConfigAtShift(a, b, events, k - 1); }
  }

  /** Under succeeding I/O the daemon fails to load the application exactly if it reloads while an inadmissible size is configured. */
  lemma {:induction false} HistoryNoneIff(a: App, events: seq<Event>)
    requires Healthy(a) && forall k :: 0 <= k < |events| ==> IoOk(events[k])
    ensures History(a, events).None? <==> exists k :: 0 <= k < |events| && events[k].Reloads? && !ConfigOk(ConfigAt(a, events, k))
    decreases |events|
  {
    if events != [] {
      AfterNoneIff(a, events[0]);
      if After(a, events[0]).None? {
        assert events[0].Reloads? && !ConfigOk(ConfigAt(a, events, 0));
      } else {
        var b, rest := After(a, events[0]).value, events[1..];
        AfterKeeps(a, events[0]);
        HistoryNoneIff(b, rest);
        forall k | 0 <= k < |rest| ensures ConfigAt(b, rest, k) == ConfigAt(a, events, k + 1) && rest[k] == events[k + 1] {
          ConfigAtShift(a, b, events, k);
        }
        if k :| 0 <= k < |events| && events[k].Reloads? && !ConfigOk(ConfigAt(a, events, k)) {
          assert k > 0 && rest[k - 1].Reloads? && !ConfigOk(ConfigAt(b, rest, k - 1));
        }
        if k :| 0 <= k < |rest| && rest[k].Reloads? && !ConfigOk(ConfigAt(b, rest, k)) {
          assert events[k + 1].Reloads? && !ConfigOk(ConfigAt(a, events, k + 1));
        }
      }
    }
  }

  /** Over every history whose disk and file operations succeed, the recorded sizes are those on the disk. */
  lemma {:induction false} SizesAlwaysAgree(a: App, events: seq<Event>)
    requires Healthy(a) && forall k :: 0 <= k < |events| ==> IoOk(events[k])
    ensures History(a, events).Some? ==> Healthy(History(a, events).value)
    decreases |events|
  {
    if events != [] && After(a, events[0]).Some? {
      AfterKeeps(a, events[0]);
      SizesAlwaysAgree(After(a, events[0]).value, events[1..]);
    }
  }

  /** update_config takes any sizes; whether they were admissible shows at the next start or reload. */
  lemma UpdateTakesAnySizes(a: App, c: AppConfig, io: DiskIo)
    requires Healthy(a) && DiskOk(io)
    ensures var (b, ok) := WithConfig(a, c, Saved);
      ok && (Configure(b, io).1 <==> ConfigOk(c)) && (LoadApp(b.saved, b.disk.file, io).Some? <==> ConfigOk(c))
  {
    var b := WithConfig(a, c, Saved).0;
    assert Healthy(b);
    UpdateAgreesIff(b.disk, c.dataMb, c.imageMb, io);
    AfterNoneIff(b, Reloads(io));
  }

  /** It happens: a zero size is saved, and the daemon can no longer load the application. */
  lemma InadmissibleSizeHappens(a: App, io: DiskIo) returns (events: seq<Event>)
    requires Healthy(a) && DiskOk(io)
    ensures (forall k :: 0 <= k < |events| ==> IoOk(events[k])) && History(a, events).None?
  {
    events := [Updates(a.config.(imageMb := 0), Saved), Reloads(io)];
    assert ConfigAt(a, events, 1) == a.config.(imageMb := 0);
    HistoryNoneIff(a, events);
  }

  /** A recreation that fails and leaves no table: recorded sizes and disk disagree from then on. */
  lemma FailedRecreationHappens(a: App, c: AppConfig, io: DiskIo)
    requires Healthy(a) && ConfigOk(c) && !SizesAs(a.disk, c) && io.readOk && io.create == CreateFailed(None)
    ensures var b := History(a, [Updates(c, Saved), Configures(io)]); b.Some? && !Agrees(b.value.disk) && b.value.saved == Some(c)
  {
    var b := WithConfig(a, c, Saved).0;
    var events := [Updates(c, Saved), Configures(io)];
    assert events[1..][1..] == [];
    assert History(a, events) == History(b, events[1..]);
    assert History(b, events[1..]) == History(Configure(b, io).0, []);
    UpdateAgreesIff(b.disk, c.dataMb, c.imageMb, io);
  }

  /** After that every start fails and changes nothing on the disk, whatever is configured and however well the I/O goes. */
  lemma {:induction false} DisagreementIsStuck(a: App, events: seq<Event>)
    requires !Agrees(a.disk) && forall k :: 0 <= k < |events| ==> !events[k].Reloads?
    ensures History(a, events).Some? && History(a, events).value.disk == a.disk
    ensures forall io :: !Configure(History(a, events).value, io).1
    decreases |events|
  {
    if events != [] {
      assert After(a, events[0]).value.disk == a.disk;
      DisagreementIsStuck(After(a, events[0]).value, events[1..]);
    }
  }

  /** Only a reload heals it, exactly if the saved sizes are admissible. */
  lemma ReloadHealsIff(a: App, io: DiskIo)
    requires a.saved.Some? && DiskOk(io)
    ensures LoadApp(a.saved, a.disk.file, io).Some? <==> ConfigOk(a.saved.value)
    ensures LoadApp(a.saved, a.disk.file, io).Some? ==> Healthy(LoadApp(a.saved, a.disk.file, io).value)
  {
    if ConfigOk(a.saved.value) {
      var disk := NewDisk(a.saved.value, a.disk.file).value;
      assert Admissible(disk);
      CreateAgrees(disk, io);
    }
  }

  /**
    With the configured sizes on the disk, whatever the I/O does: an event leaves the disk alone
    exactly unless it is a reload that cannot read it. Such a reload makes the disk anew, with new
    GUIDs, or fails.
   */
  lemma DiskChangesIff(a: App, e: Event)
    requires Healthy(a) && SizesAs(a.disk, a.config)
    ensures After(a, e).None? <==> e.Reloads? && !e.io.readOk && !(e.io.create.Created? && e.io.readBackOk)
    ensures After(a, e).Some? ==>
      var b := After(a, e).value;
      if e.Reloads? && !e.io.readOk
      then Agrees(b.disk) && Guids(b) == (e.io.create.imageGuid, e.io.create.dataGuid)
      else b.disk == a.disk
  {
    if e.Reloads? && e.io.create.Created? { CreateAgrees(NewDisk(a.config, a.disk.file).value, e.io); }
  }

  /** It happens, to every healthy application: one unreadable reload gives it an empty disk with new GUIDs. */
  lemma UnreadableReloadHappens(a: App, image: Guid, data: Guid)
    requires Healthy(a) && SizesAs(a.disk, a.config) && Guids(a) != (image, data)
    ensures var b := After(a, Reloads(DiskIo(false, Created(image, data), true)));
      b.Some? && b.value.config == a.config && Agrees(b.value.disk) && Guids(b.value) != Guids(a)
  {
    DiskChangesIff(a, Reloads(DiskIo(false, Created(image, data), true)));
  }

  /** As long as no configuration changes a size and every reload can read the disk, the GUIDs given to the realm never change. */
  lemma {:induction false} GuidsChangeOnlyWithSizes(a: App, events: seq<Event>)
    requires Healthy(a) && SizesAs(a.disk, a.config)
    requires forall k :: 0 <= k < |events| && events[k].Updates? ==> events[k].save.Saved? && SizesAs(a.disk, events[k].config)
    requires forall k :: 0 <= k < |events| && events[k].Reloads? ==> events[k].io.readOk
    ensures History(a, events).Some? && History(a, events).value.disk == a.disk
    decreases |events|
  {
    if events != [] {
      DiskChangesIff(a, events[0]);
      GuidsChangeOnlyWithSizes(After(a, events[0]).value, events[1..]);
    }
  }

  /** The manager object. */
  class ApplicationManager {
    const uuid: Uuid
    var config: AppConfig
    ghost var saved: Option<AppConfig>
    const disk: ApplicationDiskManager

    ghost function Model(): App
      reads this, disk
    {
      App(config, saved, disk.Model())
    }

    constructor (uuid: Uuid, config: AppConfig, disk: ApplicationDiskManager)
      ensures this.uuid == uuid && this.disk == disk && this.config == config && saved == Some(config)
    {
      this.uuid, this.config, this.saved, this.disk := uuid, config, Some(config), disk;
    }

    method ConfigureDisk(io: DiskIo) returns (ok: bool)
      modifies disk
      ensures (Model(), ok) == Configure(old(Model()), io)
      ensures ok ==> Agrees(Model().disk) && SizesAs(Model().disk, config)
    {
      ok := disk.UpdatePartitionsIfSizesDiffer(config.dataMb, config.imageMb, io);
    }

    /** configure_disk as a spawned task, which may be aborted on the way. */
    method ConfigureDiskTask(task: TaskIo) returns (ok: bool)
      modifies disk
      ensures (Model(), ok) == ConfigureTask(old(Model()), task)
    {
      match task
      case Ran(io) => ok := ConfigureDisk(io);
      case Aborted(sizesRecorded, left) =>
        var image, data := ToBytes(config.imageMb), ToBytes(config.dataMb);
        if sizesRecorded && image.Ok? && data.Ok? {
          disk.imagePartBytesSize, disk.dataPartBytesSize, disk.file := image.value, data.value, left;
        }
        ok := false;
    }

    method UpdateConfig(c: AppConfig, save: SaveIo) returns (ok: bool)
      modifies this
      ensures (Model(), ok) == WithConfig(old(Model()), c, save)
    {
      config := c;
      match save
      case Saved => saved := Some(c); ok := true;
      case SaveFailed(left) => saved := left; ok := false;
    }

    method GetData(readOk: bool) returns (data: Option<AppData>)
      ensures data == DataOf(uuid, Model(), readOk)
    {
      var image := disk.GetPartitionUuid(IMAGE_PARTITION, readOk);
      if image.None? { return None; }
      var part := disk.GetPartitionUuid(DATA_PARTITION, readOk);
      if part.None? { return None; }
      data := Some(AppData(uuid, config.name, config.version, config.registry, image.value, part.value));
    }
  }
}
