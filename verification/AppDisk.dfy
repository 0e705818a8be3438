/**
  The application disk of `ApplicationDiskManager`: sizing, the layout of its two partitions,
  and the flow that creates the disk, checks it and recreates it when a configured size changes.

  The GUID partition table is the one of section 5.3 of the UEFI Specification. `FirstFit` is the
  contract assumed of the partition library: the lowest free run of sectors that is long enough.
 */
module AppDisk {
  import opened Outcomes

  type u32 = n: nat | n < 0x1_0000_0000
  type Guid = nat

  const LBA_SIZE := 512
  const MAX_PARTITION_SIZE_MB := 100 * 1024
  const PRIMARY_GPT_SECTORS := 34
  const BACKUP_GPT_SECTORS := 34
  const IMAGE_PARTITION := "image"
  const DATA_PARTITION := "data"

  datatype Partition = Partition(first: nat, last: nat, guid: Guid)

  type Partitions = map<string, Partition>

  datatype SizeError = RequestedEmptyPartition | RequestedTooBigPartition

  function ToBytes(mb: u32): Result<nat, SizeError> {
    if mb > MAX_PARTITION_SIZE_MB then Err(RequestedTooBigPartition)
    else if mb == 0 then Err(RequestedEmptyPartition)
    else Ok(mb * 1024 * 1024)
  }

  /** From one megabyte to a hundred gigabytes, in bytes; nothing else. */
  lemma AdmissibleSizes(mb: u32)
    ensures ToBytes(mb).Ok? <==> 1 <= mb <= 102400
    ensures ToBytes(mb).Ok? ==> ToBytes(mb).value == mb * 0x10_0000
    ensures ToBytes(mb) == Err(RequestedEmptyPartition) <==> mb == 0
  {}

  function TotalSize(imageBytes: nat, dataBytes: nat): nat {
    dataBytes + imageBytes + (PRIMARY_GPT_SECTORS + BACKUP_GPT_SECTORS) * LBA_SIZE
  }

  /** The 32-bit size that goes into the protective MBR (section 5.2.3 of the UEFI Specification). */
  function MbrSize(imageBytes: nat, dataBytes: nat): nat {
    (TotalSize(imageBytes, dataBytes) / LBA_SIZE - 1) % 0x1_0000_0000
  }

  function BytesLen(p: Partition): int {
    (p.last - p.first + 1) * LBA_SIZE
  }

  // ----- layout -----

  predicate Overlaps(p: Partition, first: nat, sectors: nat) {
    p.first < first + sectors && first <= p.last
  }

  predicate FreeRun(table: Partitions, first: nat, sectors: nat) {
    forall name :: name in table ==> !Overlaps(table[name], first, sectors)
  }

  /** The sectors a partition may use: after the primary table (34 sectors) and before the backup table (33 sectors). */
  function LastUsable(totalSectors: nat): int {
    totalSectors - 34
  }

  function FirstFit(table: Partitions, sectors: nat, lastUsable: int, from: nat): (start: Option<nat>)
    ensures start.Some? ==>
      && from <= start.value <= lastUsable && start.value + sectors - 1 <= lastUsable && FreeRun(table, start.value, sectors)
      && forall at :: from <= at < start.value ==> !FreeRun(table, at, sectors)
    ensures start.None? ==> forall at :: from <= at <= lastUsable && at + sectors - 1 <= lastUsable ==> !FreeRun(table, at, sectors)
    decreases lastUsable + 1 - from
  {
    if from + sectors - 1 > lastUsable || from > lastUsable then None
    else if FreeRun(table, from, sectors) then Some(from)
    else FirstFit(table, sectors, lastUsable, from + 1)
  }

  function AddPartition(table: Partitions, totalBytes: nat, name: string, bytes: nat, guid: Guid): Option<Partitions> {
    var sectors := bytes / LBA_SIZE;
    var start := FirstFit(table, sectors, LastUsable(totalBytes / LBA_SIZE), PRIMARY_GPT_SECTORS);
    if start.None? then None
    else Some(table[name := Partition(start.value, start.value + sectors - 1, guid)])
  }

  /** create_gpt_and_partitions: the image partition, then the data partition, on an empty table. */
  function Layout(imageBytes: nat, dataBytes: nat, imageGuid: Guid, dataGuid: Guid): Option<Partitions> {
    var total := TotalSize(imageBytes, dataBytes);
    var image := AddPartition(map[], total, IMAGE_PARTITION, imageBytes, imageGuid);
    if image.None? then None else AddPartition(image.value, total, DATA_PARTITION, dataBytes, dataGuid)
  }

  lemma {:induction false} FirstFitSkips(table: Partitions, sectors: nat, lastUsable: int, from: nat, start: nat)
    requires from <= start && sectors > 0 && start + sectors - 1 <= lastUsable
    requires forall at :: from <= at < start ==> !FreeRun(table, at, sectors)
    requires FreeRun(table, start, sectors)
    ensures FirstFit(table, sectors, lastUsable, from) == Some(start)
    decreases start - from
  {
    if from < start {
      FirstFitSkips(table, sectors, lastUsable, from + 1, start);
    }
  }

  /** Two partitions of the requested byte lengths, disjoint, between the two tables. */
  predicate WellPlaced(t: Partitions, imageBytes: nat, dataBytes: nat) {
    && t.Keys == {IMAGE_PARTITION, DATA_PARTITION}
    && var i, d := t[IMAGE_PARTITION], t[DATA_PARTITION];
       var sectors := TotalSize(imageBytes, dataBytes) / LBA_SIZE;
       && BytesLen(i) == imageBytes && BytesLen(d) == dataBytes
       && PRIMARY_GPT_SECTORS <= i.first <= i.last < d.first <= d.last
       && d.last <= LastUsable(sectors) < sectors
  }

  /** Every admissible pair of sizes is laid out as requested, on a whole number of blocks that the MBR can count. */
  lemma LayoutFits(imageMb: u32, dataMb: u32, imageGuid: Guid, dataGuid: Guid)
    requires ToBytes(imageMb).Ok? && ToBytes(dataMb).Ok?
    ensures var i, d := ToBytes(imageMb).value, ToBytes(dataMb).value;
      var total := TotalSize(i, d);
      && Layout(i, d, imageGuid, dataGuid).Some?
      && WellPlaced(Layout(i, d, imageGuid, dataGuid).value, i, d)
      && Layout(i, d, imageGuid, dataGuid).value[IMAGE_PARTITION].guid == imageGuid
      && Layout(i, d, imageGuid, dataGuid).value[DATA_PARTITION].guid == dataGuid
      && total % LBA_SIZE == 0 && total < 0x1_0000_0000_0000_0000
      && MbrSize(i, d) == total / LBA_SIZE - 1
  {
    var i, d := ToBytes(imageMb).value, ToBytes(dataMb).value;
    var total := TotalSize(i, d);
    var imageSectors, dataSectors := imageMb * 2048, dataMb * 2048;
    assert i == imageSectors * LBA_SIZE && d == dataSectors * LBA_SIZE;
    assert i / LBA_SIZE == imageSectors && d / LBA_SIZE == dataSectors;
    assert total == (imageSectors + dataSectors + 68) * LBA_SIZE;
    assert total / LBA_SIZE == imageSectors + dataSectors + 68;
    var last := LastUsable(total / LBA_SIZE);
    FirstFitSkips(map[], imageSectors, last, PRIMARY_GPT_SECTORS, PRIMARY_GPT_SECTORS);
    var image := Partition(PRIMARY_GPT_SECTORS, PRIMARY_GPT_SECTORS + imageSectors - 1, imageGuid);
    var table := map[IMAGE_PARTITION := image];
    assert AddPartition(map[], total, IMAGE_PARTITION, i, imageGuid) == Some(table);
    forall at | PRIMARY_GPT_SECTORS <= at < PRIMARY_GPT_SECTORS + imageSectors ensures !FreeRun(table, at, dataSectors) {
      assert Overlaps(table[IMAGE_PARTITION], at, dataSectors);
    }
    FirstFitSkips(table, dataSectors, last, PRIMARY_GPT_SECTORS, PRIMARY_GPT_SECTORS + imageSectors);
  }

  // ----- the disk of one application -----

  /** What the manager has recorded, and the table in the disk file (`None` when it cannot be opened as one). */
  datatype Disk = Disk(imageBytes: nat, dataBytes: nat, file: Option<Partitions>)

  /** How a creation of the disk file went; a failure may leave anything behind. */
  datatype CreateIo = Created(imageGuid: Guid, dataGuid: Guid) | CreateFailed(left: Option<Partitions>)

  datatype DiskIo = DiskIo(readOk: bool, create: CreateIo, readBackOk: bool)

  /** ensure_partitions_correctness, when the file can be read. */
  predicate Agrees(d: Disk) {
    && d.file.Some?
    && IMAGE_PARTITION in d.file.value && BytesLen(d.file.value[IMAGE_PARTITION]) == d.imageBytes
    && DATA_PARTITION in d.file.value && BytesLen(d.file.value[DATA_PARTITION]) == d.dataBytes
  }

  /** create_application_disk */
  function Create(d: Disk, io: DiskIo): (r: (Disk, bool)) {
    match io.create
    case CreateFailed(left) => (d.(file := left), false)
    case Created(imageGuid, dataGuid) =>
      var table := Layout(d.imageBytes, d.dataBytes, imageGuid, dataGuid);
      var made := d.(file := table);
      (made, io.readBackOk && Agrees(made))
  }

  /** create_disk_with_partitions */
  function CreateIfWrong(d: Disk, io: DiskIo): (r: (Disk, bool)) {
    if io.readOk && Agrees(d) then (d, true) else Create(d, io)
  }

  /** update_partitions_if_sizes_differ */
  function Update(d: Disk, dataMb: u32, imageMb: u32, io: DiskIo): (r: (Disk, bool)) {
    if !(io.readOk && Agrees(d)) then (d, false)
    else
      var image := ToBytes(imageMb);
      var data := ToBytes(dataMb);
      if image.Err? || data.Err? then (d, false)
      else if image.value == d.imageBytes && data.value == d.dataBytes then (d, true)
      else Create(d.(imageBytes := image.value, dataBytes := data.value), io)
  }

  /** The recorded sizes come from admissible sizes in megabytes. */
  ghost predicate Admissible(d: Disk) {
    exists i: u32, m: u32 :: ToBytes(i) == Ok(d.imageBytes) && ToBytes(m) == Ok(d.dataBytes)
  }

  lemma CreateAgrees(d: Disk, io: DiskIo)
    requires Admissible(d) && io.create.Created?
    ensures var made := Create(d, io).0;
      && Agrees(made) && made.imageBytes == d.imageBytes && made.dataBytes == d.dataBytes
      && made.file.value[IMAGE_PARTITION].guid == io.create.imageGuid
      && made.file.value[DATA_PARTITION].guid == io.create.dataGuid
      && Create(d, io).1 == io.readBackOk
  {
    var i: u32, m: u32 :| ToBytes(i) == Ok(d.imageBytes) && ToBytes(m) == Ok(d.dataBytes);
    LayoutFits(i, m, io.create.imageGuid, io.create.dataGuid);
  }

  predicate SizesOk(imageMb: u32, dataMb: u32) {
    ToBytes(imageMb).Ok? && ToBytes(dataMb).Ok?
  }

  /** The update finds the disk in order and an admissible size that differs. */
  predicate Recreates(d: Disk, dataMb: u32, imageMb: u32, io: DiskIo) {
    io.readOk && Agrees(d) && SizesOk(imageMb, dataMb)
    && (ToBytes(imageMb) != Ok(d.imageBytes) || ToBytes(dataMb) != Ok(d.dataBytes))
  }

  /**
    An update of a disk that agrees with the recorded sizes keeps the agreement exactly unless it
    recreates the disk, fails, and leaves something else behind. It succeeds exactly if the disk can
    be read, the sizes are admissible, and a recreation, if there is one, works.
   */
  lemma UpdateAgreesIff(d: Disk, dataMb: u32, imageMb: u32, io: DiskIo)
    requires Agrees(d)
    ensures Agrees(Update(d, dataMb, imageMb, io).0) <==>
      (Recreates(d, dataMb, imageMb, io) && io.create.CreateFailed? ==>
         Agrees(Disk(ToBytes(imageMb).value, ToBytes(dataMb).value, io.create.left)))
    ensures Update(d, dataMb, imageMb, io).1 <==>
      io.readOk && SizesOk(imageMb, dataMb) && (Recreates(d, dataMb, imageMb, io) ==> io.create.Created? && io.readBackOk)
  {
    if Recreates(d, dataMb, imageMb, io) && io.create.Created? {
      var resized := d.(imageBytes := ToBytes(imageMb).value, dataBytes := ToBytes(dataMb).value);
      assert Admissible(resized);
      CreateAgrees(resized, io);
    }
  }

  /** The manager object: it records the sizes and rewrites the disk file. */
  class ApplicationDiskManager {
    const workdir: nat   // the directory of the disk file, named after the application
    var imagePartBytesSize: nat
    var dataPartBytesSize: nat
    var file: Option<Partitions>

    function Model(): Disk
      reads this
    {
      Disk(imagePartBytesSize, dataPartBytesSize, file)
    }

    constructor (workdir: nat, d: Disk)
      ensures Model() == d && this.workdir == workdir
    {
      this.workdir := workdir;
      imagePartBytesSize, dataPartBytesSize, file := d.imageBytes, d.dataBytes, d.file;
    }

    method EnsurePartitionsCorrectness(readOk: bool) returns (ok: bool)
      ensures ok == (readOk && Agrees(Model()))
    {
      if !readOk || file.None? { return false; }
      var partitions := file.value;
      if IMAGE_PARTITION !in partitions || DATA_PARTITION !in partitions { return false; }
      ok := BytesLen(partitions[IMAGE_PARTITION]) == imagePartBytesSize &&
            BytesLen(partitions[DATA_PARTITION]) == dataPartBytesSize;
    }

    method CreateApplicationDisk(io: DiskIo) returns (ok: bool)
      modifies this`file
      ensures (Model(), ok) == Create(old(Model()), io)
      ensures ok ==> Agrees(Model())
      ensures io.create.Created? && old(Admissible(Model())) ==> Agrees(Model()) && ok == io.readBackOk
    {
      if io.create.Created? && Admissible(Model()) { CreateAgrees(Model(), io); }
      match io.create
      case CreateFailed(left) =>
        file := left;
        ok := false;
      case Created(imageGuid, dataGuid) =>
        file := Layout(imagePartBytesSize, dataPartBytesSize, imageGuid, dataGuid);
        ok := EnsurePartitionsCorrectness(io.readBackOk);
    }

    method CreateDiskWithPartitions(io: DiskIo) returns (ok: bool)
      modifies this`file
      ensures (Model(), ok) == CreateIfWrong(old(Model()), io)
      ensures ok ==> Agrees(Model())
      ensures io.readOk && old(Agrees(Model())) ==> ok && file == old(file)
    {
      ok := EnsurePartitionsCorrectness(io.readOk);
      if !ok {
        ok := CreateApplicationDisk(io);
      }
    }

    method UpdatePartitionsIfSizesDiffer(newDataMb: u32, newImageMb: u32, io: DiskIo) returns (ok: bool)
      modifies this
      ensures (Model(), ok) == Update(old(Model()), newDataMb, newImageMb, io)
      ensures ok ==> Agrees(Model()) && ToBytes(newImageMb) == Ok(imagePartBytesSize) && ToBytes(newDataMb) == Ok(dataPartBytesSize)
      ensures !old(Recreates(Model(), newDataMb, newImageMb, io)) ==> Model() == old(Model())
    {
      ok := EnsurePartitionsCorrectness(io.readOk);
      if !ok { return; }
      var newImage := ToBytes(newImageMb);
      if newImage.Err? { return false; }
      var newData := ToBytes(newDataMb);
      if newData.Err? { return false; }
      if newImage.value != imagePartBytesSize || newData.value != dataPartBytesSize {
        imagePartBytesSize := newImage.value;
        dataPartBytesSize := newData.value;
        ok := CreateApplicationDisk(io);
      }
    }

    method GetPartitionUuid(name: string, readOk: bool) returns (guid: Option<Guid>)
      ensures guid == if readOk && file.Some? && name in file.value then Some(file.value[name].guid) else None
    {
      if readOk && file.Some? && name in file.value {
        guid := Some(file.value[name].guid);
      } else {
        guid := None;
      }
    }
  }
}
