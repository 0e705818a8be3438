/**
  Installing an application image inside the realm: when the installed image is kept, when a new
  one is accepted, and what the metadata file on the image partition says about both.
  Cryptography, hashing and decoding are the functions of a `Lib`.
 */
module OciInstall {
  import opened Outcomes

  newtype byte = x: int | 0 <= x < 256

  type Bytes = seq<byte>

  datatype Key = Key(raw: Bytes)

  datatype RuntimeConfig = RuntimeConfig(entrypoint: Option<seq<string>>, cmd: Option<seq<string>>, workingDir: Option<string>)

  datatype ImageConfig = ImageConfig(runtime: Option<RuntimeConfig>)

  datatype Lib = Lib(
    verify: (Key, Bytes, Bytes) -> bool,      // key, message, signature
    importKey: Bytes -> Option<Key>,
    hash: Bytes -> Bytes,
    unhex: string -> Option<Bytes>,
    parse: Bytes -> Option<ImageConfig>)

  datatype ImageInfo = ImageInfo(annotations: Option<map<string, string>>, config: Bytes)

  datatype Annotations = Annotations(signature: Bytes, vendorPub: Bytes, vendorPubSignature: Bytes)

  datatype Metadata = Metadata(vendorCert: seq<Bytes>, configHash: Bytes, imageConfig: ImageConfig)

  /** metadata.json: missing, not readable as metadata, or holding a record. */
  datatype File = Absent | Garbage | Holds(metadata: Metadata)

  datatype ApplicationMetadata = ApplicationMetadata(vendorData: seq<Bytes>, imageHash: Bytes)

  datatype ExecConfig = ExecConfig(exec: string, argv: seq<string>, chdir: Option<string>)

  datatype Error =
    | ClientCreation | InvalidVersion | NoAnnotations | AnnotationMissing | AnnotationNotHex
    | VendorKeyRejected | VendorKeyInvalid | SignatureRejected | RegistryUnreachable
    | Directories | Unpacking | Moving | ConfigUnreadable | MetadataNotSaved
    | MetadataNotFound | RuntimeConfigMissing | EntryPointCmdMissing

  /** A failed write leaves the old file, a torn one, or all of the new one. */
  datatype Write = Written | FailedBefore | Torn | FailedAfter

  /** What the surroundings do during one install; `formatted` says that the partition was formatted anew. */
  datatype Env = Env(
    formatted: bool, client: bool, version: bool, registry: Option<ImageInfo>, readable: bool,
    directories: bool, unpacks: bool, moves: bool, write: Write)

  function ParseAnnotation(lib: Lib, annotations: map<string, string>, id: string): Result<Bytes, Error> {
    if id !in annotations then Err(AnnotationMissing)
    else match lib.unhex(annotations[id])
      case None => Err(AnnotationNotHex)
      case Some(bytes) => Ok(bytes)
  }

  function RequiredAnnotations(lib: Lib, info: ImageInfo): Result<Annotations, Error> {
    match info.annotations
    case None => Err(NoAnnotations)
    case Some(all) =>
      var signature := ParseAnnotation(lib, all, "com.samsung.islet.image.signature");
      var pub := ParseAnnotation(lib, all, "com.samsung.islet.image.vendorpub");
      var pubSignature := ParseAnnotation(lib, all, "com.samsung.islet.image.vendorpub.signature");
      if signature.Err? then Err(signature.error)
      else if pub.Err? then Err(pub.error)
      else if pubSignature.Err? then Err(pubSignature.error)
      else Ok(Annotations(signature.value, pub.value, pubSignature.value))
  }

  /** verify_signature: the reason for refusal, if any. */
  function Refusal(lib: Lib, ca: Key, a: Annotations, config: Bytes): Option<Error> {
    if !lib.verify(ca, a.vendorPub, a.vendorPubSignature) then Some(VendorKeyRejected)
    else match lib.importKey(a.vendorPub)
      case None => Some(VendorKeyInvalid)
      case Some(vendor) => if lib.verify(vendor, config, a.signature) then None else Some(SignatureRejected)
  }

  /** The certificate authority signed the vendor's key, and that key signed the configuration. */
  predicate Signed(lib: Lib, ca: Key, a: Annotations, config: Bytes) {
    && lib.verify(ca, a.vendorPub, a.vendorPubSignature)
    && lib.importKey(a.vendorPub).Some?
    && lib.verify(lib.importKey(a.vendorPub).value, config, a.signature)
  }

  /** An image is refused exactly if it is not signed in this way; the reason names the link that is missing. */
  lemma RefusedIff(lib: Lib, ca: Key, a: Annotations, config: Bytes)
    ensures Refusal(lib, ca, a, config).None? <==> Signed(lib, ca, a, config)
    ensures Refusal(lib, ca, a, config) == Some(VendorKeyRejected) <==> !lib.verify(ca, a.vendorPub, a.vendorPubSignature)
    ensures Refusal(lib, ca, a, config) == Some(VendorKeyInvalid) ==> lib.importKey(a.vendorPub).None?
    ensures Refusal(lib, ca, a, config) == Some(SignatureRejected) ==>
      lib.importKey(a.vendorPub).Some? && !lib.verify(lib.importKey(a.vendorPub).value, config, a.signature)
  {}

  /** The annotation is there and decodes to the bytes. */
  predicate Annotated(lib: Lib, info: ImageInfo, id: string, bytes: Bytes) {
    info.annotations.Some? && id in info.annotations.value && lib.unhex(info.annotations.value[id]) == Some(bytes)
  }

  /** The annotations are taken exactly if all three are there and decode, each from its own name. */
  lemma AnnotationsMean(lib: Lib, info: ImageInfo)
    ensures RequiredAnnotations(lib, info).Ok? ==>
      var a := RequiredAnnotations(lib, info).value;
      && Annotated(lib, info, "com.samsung.islet.image.signature", a.signature)
      && Annotated(lib, info, "com.samsung.islet.image.vendorpub", a.vendorPub)
      && Annotated(lib, info, "com.samsung.islet.image.vendorpub.signature", a.vendorPubSignature)
    ensures forall s, p, q ::
      && Annotated(lib, info, "com.samsung.islet.image.signature", s)
      && Annotated(lib, info, "com.samsung.islet.image.vendorpub", p)
      && Annotated(lib, info, "com.samsung.islet.image.vendorpub.signature", q)
      ==> RequiredAnnotations(lib, info) == Ok(Annotations(s, p, q))
  {}

  function Pair(m: Metadata): ApplicationMetadata {
    ApplicationMetadata(m.vendorCert, m.configHash)
  }

  /** What a registry reply claims the application to be. */
  function Claimed(lib: Lib, a: Annotations, config: Bytes): ApplicationMetadata {
    ApplicationMetadata([a.vendorPub, a.vendorPubSignature], lib.hash(config))
  }

  function TryRead(file: File, readable: bool): Option<Metadata> {
    if readable && file.Holds? then Some(file.metadata) else None
  }

  function Mounted(file: File, env: Env): File {
    if env.formatted then Absent else file
  }

  function AfterWrite(file: File, m: Metadata, write: Write): File {
    match write
    case Written => Holds(m)
    case FailedBefore => file
    case Torn => Garbage
    case FailedAfter => Holds(m)
  }

  /** A new image: the outcome and the metadata file, once the signature is accepted. */
  function Unpacked(lib: Lib, file: File, env: Env, a: Annotations, config: Bytes): (Result<ApplicationMetadata, Error>, File) {
    if !env.directories then (Err(Directories), file)
    else if !env.unpacks then (Err(Unpacking), file)
    else if !env.moves then (Err(Moving), file)
    else match lib.parse(config)
      case None => (Err(ConfigUnreadable), file)
      case Some(image) =>
        var claim := Claimed(lib, a, config);
        var m := Metadata(claim.vendorData, claim.imageHash, image);
        (if env.write == Written then Ok(claim) else Err(MetadataNotSaved), AfterWrite(file, m, env.write))
  }

  /** One install: its outcome and the metadata file it leaves. */
  function Installed(lib: Lib, ca: Key, before: File, env: Env): (Result<ApplicationMetadata, Error>, File) {
    var file := Mounted(before, env);
    var current := TryRead(file, env.readable);
    if !env.client then (Err(ClientCreation), file)
    else if !env.version then (Err(InvalidVersion), file)
    else if env.registry.None? then
      (if current.Some? then Ok(Pair(current.value)) else Err(RegistryUnreachable), file)
    else
      var config := env.registry.value.config;
      match RequiredAnnotations(lib, env.registry.value)
      case Err(e) => (Err(e), file)
      case Ok(a) =>
        if current.Some? && Pair(current.value) == Claimed(lib, a, config) then (Ok(Pair(current.value)), file)
        else match Refusal(lib, ca, a, config)
          case Some(e) => (Err(e), file)
          case None => Unpacked(lib, file, env, a, config)
  }

  /** The image partition's root directory, and what has happened to it so far. */
  class ImageDir {
    var metadata: File
    ghost var installs: seq<Env>

    /** The metadata file was written by the installs only. */
    ghost predicate Valid(lib: Lib, ca: Key)
      reads this
    {
      metadata == FileAfter(lib, ca, installs)
    }

    constructor ()
      ensures metadata == Absent && installs == []
    {
      metadata, installs := Absent, [];
    }
  }

  class OciLauncher {
    const lib: Lib
    const ca: Key

    constructor (lib: Lib, ca: Key)
      ensures this.lib == lib && this.ca == ca
    {
      this.lib, this.ca := lib, ca;
    }

    method SaveMetadata(dir: ImageDir, m: Metadata, write: Write) returns (ok: bool)
      modifies dir`metadata
      ensures ok <==> write == Written
      ensures dir.metadata == AfterWrite(old(dir.metadata), m, write)
    {
      ok := write == Written;
      match write
      case Written => dir.metadata := Holds(m);
      case FailedBefore =>
      case Torn => dir.metadata := Garbage;
      case FailedAfter => dir.metadata := Holds(m);
    }

    /**
      Mounts the partition and installs. On success the caller holds the vendor data and hash of an
      image whose signatures were accepted in this or an earlier install, and the disk says the same.
     */
    method Install(dir: ImageDir, env: Env) returns (r: Result<ApplicationMetadata, Error>)
      requires dir.Valid(lib, ca)
      modifies dir
      ensures dir.Valid(lib, ca) && dir.installs == old(dir.installs) + [env]
      ensures (r, dir.metadata) == Installed(lib, ca, old(dir.metadata), env)
      ensures r.Ok? ==>
        dir.metadata.Holds? && Pair(dir.metadata.metadata) == r.value && AcceptedBy(lib, ca, dir.installs, dir.metadata.metadata)
    {
      InstallExtends(lib, ca, dir.installs, env);
      r := Decide(dir, env);
      dir.installs := dir.installs + [env];
    }

    method Decide(dir: ImageDir, env: Env) returns (r: Result<ApplicationMetadata, Error>)
      modifies dir`metadata
      ensures (r, dir.metadata) == Installed(lib, ca, old(dir.metadata), env)
    {
      if env.formatted { dir.metadata := Absent; }
      if !env.client { return Err(ClientCreation); }
      if !env.version { return Err(InvalidVersion); }
      var current := TryRead(dir.metadata, env.readable);
      if env.registry.None? {
        if current.None? { return Err(RegistryUnreachable); }
        return Ok(ApplicationMetadata(current.value.vendorCert, current.value.configHash));
      }
      var info := env.registry.value;
      var required := RequiredAnnotations(lib, info);
      if required.Err? { return Err(required.error); }
      var a := required.value;
      var newVendorCert, newConfigHash := [a.vendorPub, a.vendorPubSignature], lib.hash(info.config);
      if current.Some? && current.value.configHash == newConfigHash && current.value.vendorCert == newVendorCert {
        return Ok(ApplicationMetadata(current.value.vendorCert, current.value.configHash));
      }
      var refusal := Refusal(lib, ca, a, info.config);
      if refusal.Some? { return Err(refusal.value); }
      if !env.directories { return Err(Directories); }
      if !env.unpacks { return Err(Unpacking); }
      if !env.moves { return Err(Moving); }
      var image := lib.parse(info.config);
      if image.None? { return Err(ConfigUnreadable); }
      var saved := SaveMetadata(dir, Metadata(newVendorCert, newConfigHash, image.value), env.write);
      if !saved { return Err(MetadataNotSaved); }
      return Ok(ApplicationMetadata(newVendorCert, newConfigHash));
    }

    /** Reads the record from the mounted overlay and turns it into a launch configuration. */
    method Prepare(overlay: File, readable: bool) returns (r: Result<ExecConfig, Error>)
      ensures r == Launch(TryRead(overlay, readable))
      ensures r.Ok? ==> readable && overlay.Holds? && r.value.argv != [] && r.value.exec == r.value.argv[0]
    {
      var metadata := TryRead(overlay, readable);
      if metadata.None? { return Err(MetadataNotFound); }
      var runtime := metadata.value.imageConfig.runtime;
      if runtime.None? { return Err(RuntimeConfigMissing); }
      var entrypoint := if runtime.value.entrypoint.Some? then runtime.value.entrypoint.value else [];
      var cmd := if runtime.value.cmd.Some? then runtime.value.cmd.value else [];
      var argv := entrypoint + cmd;
      if |argv| == 0 { return Err(EntryPointCmdMissing); }
      return Ok(ExecConfig(argv[0], argv, runtime.value.workingDir));
    }
  }

  function Launch(metadata: Option<Metadata>): Result<ExecConfig, Error> {
    match metadata
    case None => Err(MetadataNotFound)
    case Some(m) => LaunchImage(m.imageConfig)
  }

  function LaunchImage(image: ImageConfig): Result<ExecConfig, Error> {
    match image.runtime
    case None => Err(RuntimeConfigMissing)
    case Some(runtime) =>
      var argv := (if runtime.entrypoint.Some? then runtime.entrypoint.value else [])
                + (if runtime.cmd.Some? then runtime.cmd.value else []);
      if argv == [] then Err(EntryPointCmdMissing) else Ok(ExecConfig(argv[0], argv, runtime.workingDir))
  }

  /** An overlay shows the upper layer's file where there is one. */
  function Overlay(upper: File, lower: File): File {
    if upper.Absent? then lower else upper
  }

  // ----- every sequence of installs on one partition -----

  /** The metadata file after the installs, starting from an empty partition. */
  function FileAfter(lib: Lib, ca: Key, envs: seq<Env>): File {
    if envs == [] then Absent else Installed(lib, ca, FileAfter(lib, ca, envs[..|envs| - 1]), envs[|envs| - 1]).1
  }

  /** The outcome of the i-th of the installs. */
  function ResultOf(lib: Lib, ca: Key, envs: seq<Env>, i: nat): Result<ApplicationMetadata, Error>
    requires i < |envs|
  {
    Installed(lib, ca, FileAfter(lib, ca, envs[..i]), envs[i]).0
  }

  /** The image was unpacked and moved into place. */
  predicate Placed(env: Env) {
    env.directories && env.unpacks && env.moves
  }

  /** The record describes the image the registry offered in this install; it was signed, and put into place. */
  predicate Accepted(lib: Lib, ca: Key, env: Env, m: Metadata) {
    env.registry.Some?
    && var info := env.registry.value;
    var required := RequiredAnnotations(lib, info);
    && required.Ok?
    && Signed(lib, ca, required.value, info.config)
    && m.vendorCert == [required.value.vendorPub, required.value.vendorPubSignature] && m.configHash == lib.hash(info.config)
    && lib.parse(info.config) == Some(m.imageConfig)
    && Placed(env)
  }

  predicate AcceptedBy(lib: Lib, ca: Key, envs: seq<Env>, m: Metadata) {
    exists j :: 0 <= j < |envs| && Accepted(lib, ca, envs[j], m)
  }

  /** One more install of a sequence. */
  lemma InstallExtends(lib: Lib, ca: Key, envs: seq<Env>, env: Env)
    ensures var (r, file) := Installed(lib, ca, FileAfter(lib, ca, envs), env);
      && FileAfter(lib, ca, envs + [env]) == file
      && (r.Ok? ==> file.Holds? && Pair(file.metadata) == r.value && AcceptedBy(lib, ca, envs + [env], file.metadata))
  {
    var all := envs + [env];
    assert all[..|all| - 1] == envs && all[..|envs|] == envs && all[..|envs| + 1] == all && all[|envs|] == env;
    if Installed(lib, ca, FileAfter(lib, ca, envs), env).0.Ok? { EveryResultAccepted(lib, ca, all, |envs|); }
  }

  /** An install leaves the record alone, loses it, or replaces it by one it has just accepted. */
  lemma InstallStep(lib: Lib, ca: Key, before: File, env: Env)
    ensures var (r, after) := Installed(lib, ca, before, env);
      && (after == before || !after.Holds? || Accepted(lib, ca, env, after.metadata))
      && (r.Ok? ==> after.Holds? && r.value == Pair(after.metadata))
  {}

  lemma {:induction false} RecordAccepted(lib: Lib, ca: Key, envs: seq<Env>)
    ensures FileAfter(lib, ca, envs).Holds? ==> AcceptedBy(lib, ca, envs, FileAfter(lib, ca, envs).metadata)
    decreases |envs|
  {
    if envs != [] {
      var n := |envs| - 1;
      var before, after := FileAfter(lib, ca, envs[..n]), FileAfter(lib, ca, envs);
      RecordAccepted(lib, ca, envs[..n]);
      InstallStep(lib, ca, before, envs[n]);
      if after.Holds? && !Accepted(lib, ca, envs[n], after.metadata) {
        var j :| 0 <= j < n && Accepted(lib, ca, envs[..n][j], after.metadata);
        assert Accepted(lib, ca, envs[j], after.metadata);
      }
    }
  }

  /**
    Whatever the registry, the file system and the partition do over a sequence of installs: each
    successful one returns a pair whose signatures this or an earlier install accepted, and leaves
    exactly that record on disk.
   */
  lemma EveryResultAccepted(lib: Lib, ca: Key, envs: seq<Env>, i: nat)
    requires i < |envs| && ResultOf(lib, ca, envs, i).Ok?
    ensures var file := FileAfter(lib, ca, envs[..i + 1]);
      file.Holds? && Pair(file.metadata) == ResultOf(lib, ca, envs, i).value && AcceptedBy(lib, ca, envs[..i + 1], file.metadata)
  {
    assert envs[..i + 1][..i] == envs[..i];
    InstallStep(lib, ca, FileAfter(lib, ca, envs[..i]), envs[i]);
    RecordAccepted(lib, ca, envs[..i + 1]);
  }

  /**
    Measurement, key sealing and launch: after a successful install some accepted image has the
    vendor data and hash that were returned, and the launch is the launch of that image exactly if
    the metadata is readable and the data partition brings no metadata file of its own, or one that
    launches alike.
   */
  lemma LaunchMatchesMeasurementIff(lib: Lib, ca: Key, envs: seq<Env>, upper: File, readable: bool)
    requires envs != [] && ResultOf(lib, ca, envs, |envs| - 1).Ok?
    ensures exists j | 0 <= j < |envs| && envs[j].registry.Some? ::
      var info := envs[j].registry.value;
      var required := RequiredAnnotations(lib, info);
      && required.Ok? && Signed(lib, ca, required.value, info.config) && Placed(envs[j])
      && ResultOf(lib, ca, envs, |envs| - 1).value ==
           ApplicationMetadata([required.value.vendorPub, required.value.vendorPubSignature], lib.hash(info.config))
      && lib.parse(info.config).Some?
      && var image := lib.parse(info.config).value;
         (Launch(TryRead(Overlay(upper, FileAfter(lib, ca, envs)), readable)) == LaunchImage(image) <==>
          readable && (upper.Absent? || (upper.Holds? && LaunchImage(upper.metadata.imageConfig) == LaunchImage(image))))
  {
    EveryResultAccepted(lib, ca, envs, |envs| - 1);
    assert envs[..|envs|] == envs;
    var file := FileAfter(lib, ca, envs);
    var j :| 0 <= j < |envs| && Accepted(lib, ca, envs[j], file.metadata);
    var image := lib.parse(envs[j].registry.value.config).value;
    assert image == file.metadata.imageConfig;
    LaunchIff(file.metadata, upper, readable);
  }

  lemma LaunchIff(m: Metadata, upper: File, readable: bool)
    ensures Launch(TryRead(Overlay(upper, Holds(m)), readable)) == LaunchImage(m.imageConfig) <==>
      readable && (upper.Absent? || (upper.Holds? && LaunchImage(upper.metadata.imageConfig) == LaunchImage(m.imageConfig)))
  {
    assert LaunchImage(m.imageConfig) != Err(MetadataNotFound);
    assert Launch(None) == Err(MetadataNotFound);
  }

  /** The image on offer is the one that is installed already. */
  predicate AlreadyInstalled(lib: Lib, file: File, env: Env) {
    && env.registry.Some? && RequiredAnnotations(lib, env.registry.value).Ok? && TryRead(file, env.readable).Some?
    && var a, m := RequiredAnnotations(lib, env.registry.value).value, TryRead(file, env.readable).value;
       m.vendorCert == [a.vendorPub, a.vendorPubSignature] && m.configHash == lib.hash(env.registry.value.config)
  }

  /** A new image can be taken: it is signed, put into place, can be parsed, and its record is written. */
  predicate Takes(lib: Lib, ca: Key, env: Env) {
    && env.registry.Some? && RequiredAnnotations(lib, env.registry.value).Ok?
    && Signed(lib, ca, RequiredAnnotations(lib, env.registry.value).value, env.registry.value.config)
    && Placed(env) && lib.parse(env.registry.value.config).Some? && env.write.Written?
  }

  /**
    An install succeeds exactly if client and version are in order and either the registry is out of
    reach and a record can be read, or its image is installed already, or it can be taken.
   */
  lemma InstallOkIff(lib: Lib, ca: Key, before: File, env: Env)
    ensures Installed(lib, ca, before, env).0.Ok? <==>
      && env.client && env.version
      && (|| (env.registry.None? && TryRead(Mounted(before, env), env.readable).Some?)
          || AlreadyInstalled(lib, Mounted(before, env), env)
          || Takes(lib, ca, env))
  {
    if env.registry.Some? && RequiredAnnotations(lib, env.registry.value).Ok? {
      RefusedIff(lib, ca, RequiredAnnotations(lib, env.registry.value).value, env.registry.value.config);
    }
  }

  /** After a save that was torn nothing can be read any more, so the next install needs the registry. */
  lemma TornSaveLosesTheRecord(lib: Lib, ca: Key, before: File, env: Env, next: Env)
    ensures Takes(lib, ca, env.(write := Written)) && env.client && env.version && !AlreadyInstalled(lib, Mounted(before, env), env) && env.write.Torn?
      ==> var file := Installed(lib, ca, before, env).1;
          !file.Holds? && (next.registry.None? ==> Installed(lib, ca, file, next).0.Err?)
  {
    if env.registry.Some? && RequiredAnnotations(lib, env.registry.value).Ok? {
      RefusedIff(lib, ca, RequiredAnnotations(lib, env.registry.value).value, env.registry.value.config);
    }
  }

  /** On a partition formatted anew nothing is installed: without the registry there is no result and no record. */
  lemma FormattedNeedsTheRegistry(lib: Lib, ca: Key, before: File, env: Env)
    ensures env.formatted && env.registry.None? ==>
      Installed(lib, ca, before, env).0.Err? && Installed(lib, ca, before, env).1 == Absent
    ensures env.formatted && Installed(lib, ca, before, env).0.Ok? ==> Takes(lib, ca, env)
  {
    InstallOkIff(lib, ca, before, env);
  }

  /** A save that reports failure after writing leaves a record that the next install returns without the registry. */
  lemma LateFailureIsInstalled(lib: Lib, ca: Key, before: File, env: Env, next: Env)
    ensures Takes(lib, ca, env.(write := Written)) && env.client && env.version && !AlreadyInstalled(lib, Mounted(before, env), env) && env.write.FailedAfter?
      ==> var (r, file) := Installed(lib, ca, before, env);
          && r == Err(MetadataNotSaved) && file.Holds? && file.metadata.configHash == lib.hash(env.registry.value.config)
          && (next.client && next.version && next.readable && !next.formatted && next.registry.None?
              ==> Installed(lib, ca, file, next) == (Ok(Pair(file.metadata)), file))
  {
    if env.registry.Some? && RequiredAnnotations(lib, env.registry.value).Ok? {
      RefusedIff(lib, ca, RequiredAnnotations(lib, env.registry.value).value, env.registry.value.config);
    }
  }

  /** An error names its cause. */
  lemma InstallErrors(lib: Lib, ca: Key, before: File, env: Env)
    ensures var r := Installed(lib, ca, before, env).0;
      && (r == Err(ClientCreation) ==> !env.client)
      && (r == Err(InvalidVersion) ==> !env.version)
      && (r == Err(RegistryUnreachable) ==> env.registry.None? && TryRead(Mounted(before, env), env.readable).None?)
      && (r == Err(Directories) ==> !env.directories)
      && (r == Err(Unpacking) ==> !env.unpacks)
      && (r == Err(Moving) ==> !env.moves)
      && (r == Err(ConfigUnreadable) ==> env.registry.Some? && lib.parse(env.registry.value.config).None?)
      && (r == Err(MetadataNotSaved) ==> !env.write.Written?)
      && (r == Err(NoAnnotations) ==> env.registry.Some? && env.registry.value.annotations.None?)
      && r != Err(MetadataNotFound) && r != Err(RuntimeConfigMissing) && r != Err(EntryPointCmdMissing)
  {}

  /** A launch runs the entry point with its arguments, and the command behind them. */
  lemma LaunchRuns(image: ImageConfig)
    ensures image.runtime.Some? ==>
      var entry := if image.runtime.value.entrypoint.Some? then image.runtime.value.entrypoint.value else [];
      var cmd := if image.runtime.value.cmd.Some? then image.runtime.value.cmd.value else [];
      && (LaunchImage(image).Ok? <==> |entry| + |cmd| > 0)
      && (LaunchImage(image).Ok? ==>
            var e := LaunchImage(image).value;
            entry <= e.argv && e.argv[|entry|..] == cmd && e.exec == e.argv[0] && e.chdir == image.runtime.value.workingDir)
    ensures image.runtime.None? ==> LaunchImage(image) == Err(RuntimeConfigMissing)
  {}

  /** With the registry in reach, success means the registry's image, never an older one. */
  lemma RegistryWins(lib: Lib, ca: Key, before: File, env: Env)
    requires env.registry.Some? && Installed(lib, ca, before, env).0.Ok?
    ensures var required := RequiredAnnotations(lib, env.registry.value);
      && required.Ok?
      && Installed(lib, ca, before, env).0.value ==
           ApplicationMetadata([required.value.vendorPub, required.value.vendorPubSignature], lib.hash(env.registry.value.config))
  {}

  /** An image that is not accepted leaves the record as it was. */
  lemma RefusedLeavesTheRecord(lib: Lib, ca: Key, before: File, env: Env)
    requires env.registry.Some?
    requires var required := RequiredAnnotations(lib, env.registry.value);
      required.Err? || !Signed(lib, ca, required.value, env.registry.value.config)
    ensures Installed(lib, ca, before, env).1 == Mounted(before, env)
  {}

  /** An installed image launches again, offline or with an unchanged registry, whatever else fails. */
  lemma InstalledStaysUsable(lib: Lib, ca: Key, before: File, env: Env, again: Env)
    requires Installed(lib, ca, before, env).0.Ok?
    requires !again.formatted && again.client && again.version && again.readable
    requires again.registry.None? || (again.registry == env.registry && env.registry.Some?)
    ensures Installed(lib, ca, Installed(lib, ca, before, env).1, again) == Installed(lib, ca, before, env)
  {
    InstallStep(lib, ca, before, env);
    if env.registry.Some? { RegistryWins(lib, ca, before, env); }
  }
}
