/**
 * The chain-of-trust task feature of the generic worker: when a task asks for
 * it, the worker checks at task start that the task user cannot read the
 * private signing key, and at task end copies the task log to a certified
 * log, uploads it, hashes every S3 artifact, builds a certificate of the run,
 * clearsigns it (section 7 of RFC 4880) and uploads the signed certificate.
 *
 * SHA-256, JSON serialisation and the clearsign encoder are foreign code: they
 * enter as the uninterpreted functions of `Primitives`. File-system and upload
 * failures enter as the oracle `Faults`. Files are keyed by their path relative
 * to the task directory.
 */
module ChainOfTrust {
  import opened Wrappers
  import Hex

  type Byte = Hex.Byte

  /** A SHA-256 digest: 32 bytes. */
  type Digest = s: seq<Byte> | |s| == 32 witness seq(32, _ => 0)

  /** The task definition as the queue returned it; copied into the certificate verbatim. */
  type TaskDefinition(==)

  /** The OpenPGP private signing key the worker loaded at start-up. */
  type PrivateKey(==)

  const Newline: Byte := 10

  // The feature's two reserved artifacts: their paths under the task
  // directory and their published names.
  const CertifiedLogPath := "generic-worker/certified.log"
  const CertifiedLogName := "public/logs/certified.log"
  const SignedCertPath := "generic-worker/chainOfTrust.json.asc"
  const SignedCertName := "public/chainOfTrust.json.asc"

  // ---------------------------------------------------------------- data model

  datatype Error = Error(message: string)

  datatype FailureReason = MalformedPayload | OtherReason(name: string)

  /** What a task feature reports back to the task run. */
  datatype CommandExecutionError = CommandExecutionError(reason: FailureReason, cause: Error)

  /** The error a feature returns when the task definition is at fault; it keeps the cause. */
  function MalformedPayloadError(cause: Error): (r: CommandExecutionError)
    ensures r.reason.MalformedPayload? && r.cause == cause
  {
    CommandExecutionError(MalformedPayload, cause)
  }

  /** The kinds of artifact a task run declares; only S3 artifacts have content to hash. */
  datatype Artifact =
    | S3Artifact(name: string, path: string)
    | RedirectArtifact(name: string, url: string)
    | ErrorArtifact(name: string, path: string, message: string)

  datatype Features = Features(chainOfTrust: bool)

  datatype Payload = Payload(features: Features)

  datatype TaskRun = TaskRun(
    taskId: string,
    runId: nat,
    definition: TaskDefinition,
    payload: Payload,
    artifacts: seq<Artifact>)

  /** The worker configuration fields the certificate copies. */
  datatype Config = Config(
    workerGroup: string,
    workerId: string,
    publicIP: string,
    privateIP: string,
    instanceId: string,
    instanceType: string,
    region: string)

  datatype ArtifactHash = ArtifactHash(sha256: string)

  datatype CoTEnvironment = CoTEnvironment(
    publicIpAddress: string,
    privateIpAddress: string,
    instanceId: string,
    instanceType: string,
    region: string)

  /** The certificate body. */
  datatype ChainOfTrustData = ChainOfTrustData(
    version: int,
    artifacts: map<string, ArtifactHash>,
    task: TaskDefinition,
    taskId: string,
    runId: nat,
    workerGroup: string,
    workerId: string,
    environment: CoTEnvironment)

  /** The worker-wide feature: it holds the key loaded once at start-up. */
  datatype ChainOfTrustFeature = ChainOfTrustFeature(privateKey: PrivateKey)

  /** The per-task feature. */
  datatype ChainOfTrustTaskFeature = ChainOfTrustTaskFeature(task: TaskRun, privKey: PrivateKey)

  /**
   * Foreign code, uninterpreted. `clearsign.Encode` is given a nil config, so
   * the signature carries the current time: `clearsign` stands for one run's
   * envelope, and envelopes of the same bytes differ from run to run.
   */
  datatype Primitives = Primitives(
    sha256: seq<Byte> -> Digest,                            // SHA-256 (FIPS 180-4)
    marshal: ChainOfTrustData -> Result<seq<Byte>, Error>,  // json.MarshalIndent(cert, "", "  ")
    encode: PrivateKey -> Option<Error>,                    // the error of clearsign.Encode(out, key, nil)
    clearsign: (PrivateKey, seq<Byte>) -> seq<Byte>)        // what the clearsign writer emits up to Close

  /** Which file-system and upload operations fail, and with what error. */
  datatype Faults = Faults(
    open: string -> Option<Error>,                             // os.Open, other than a missing file
    read: string -> Option<Error>,                             // io.Copy from an artifact into the hasher
    copy: (string, string) -> Option<Error>,                   // copyFileContents(src, dst) once src is open
    create: string -> Option<Error>,                           // os.Create
    upload: (string, string) -> Option<CommandExecutionError>, // task.uploadLog(name, path)
    signWrite: Option<Error>)                                  // io.Copy of the certificate into the clearsign writer

  /** Everything Stop reads besides the task feature: the worker config, the task log's path, foreign code, faults. */
  datatype Env = Env(config: Config, logPath: string, prims: Primitives, faults: Faults)

  /** The task directory's files and the artifacts published to the queue. */
  datatype HostState = HostState(files: map<string, seq<Byte>>, published: map<string, seq<Byte>>)

  /** One attempted step of Stop, in the order attempted. */
  datatype Effect =
    | CopyLog(src: string, dst: string)
    | Upload(name: string, path: string)
    | HashArtifact(name: string, path: string)
    | Marshal(cert: ChainOfTrustData)
    | CreateFile(path: string)
    | ClearsignEncode
    | ClearsignCopy(plaintext: seq<Byte>)
    | CloseEnvelope

  /** Stop either returns nil, returns an upload error, or panics. */
  datatype Outcome = Ok | UploadErr(err: CommandExecutionError) | Panic(cause: Error)

  datatype StopResult = StopResult(outcome: Outcome, trace: seq<Effect>, state: HostState)

  // ------------------------------------------------------- pure feature surface

  /** The feature is on for a task exactly when its payload sets the flag. */
  function IsEnabled(feature: ChainOfTrustFeature, task: TaskRun): (r: bool)
    ensures r <==> task.payload.features.chainOfTrust
  {
    task.payload.features.chainOfTrust
  }

  /** Every task feature gets the task and the worker's one key, unchanged. */
  function NewTaskFeature(feature: ChainOfTrustFeature, task: TaskRun): (r: ChainOfTrustTaskFeature)
    ensures r.task == task
    ensures r.privKey == feature.privateKey
  {
    ChainOfTrustTaskFeature(task, feature.privateKey)
  }

  /** The artifact names the task itself may not use: the signed certificate, then the certified log. */
  function ReservedArtifacts(cot: ChainOfTrustTaskFeature): (r: seq<string>)
    ensures r == ["public/chainOfTrust.json.asc", "public/logs/certified.log"]
  {
    [SignedCertName, CertifiedLogName]
  }

  /**
   * Start, given the result of the platform check that the task user cannot
   * read the key: any error from that check fails the task as a malformed
   * payload, and only then.
   */
  function Start(cot: ChainOfTrustTaskFeature, keyCheck: Option<Error>): (r: Option<CommandExecutionError>)
    ensures r.None? <==> keyCheck.None?
    ensures keyCheck.Some? ==> r.value.reason == MalformedPayload && r.value.cause == keyCheck.value
  {
    if keyCheck.Some? then Some(MalformedPayloadError(keyCheck.value)) else None
  }

  // ------------------------------------------------------ file and upload steps

  /** os.Open followed by reading the whole file. */
  function OpenFile(files: map<string, seq<Byte>>, faults: Faults, path: string): (r: Result<seq<Byte>, Error>)
    ensures r.Success? <==> path in files && faults.open(path).None?
    ensures r.Success? ==> r.value == files[path]
  {
    if faults.open(path).Some? then Failure(faults.open(path).value)
    else if path !in files then Failure(Error("open " + path + ": no such file or directory"))
    else Success(files[path])
  }

  /** copyFileContents(src, dst): on success dst holds exactly the bytes of src. */
  function CopyFile(files: map<string, seq<Byte>>, faults: Faults, src: string, dst: string)
    : (r: Result<map<string, seq<Byte>>, Error>)
    ensures r.Success? <==> src in files && faults.open(src).None? && faults.copy(src, dst).None?
    ensures r.Success? ==> r.value == files[dst := files[src]]
  {
    match OpenFile(files, faults, src)
    case Failure(e) => Failure(e)
    case Success(content) =>
      if faults.copy(src, dst).Some? then Failure(faults.copy(src, dst).value)
      else Success(files[dst := content])
  }

  /** task.uploadLog(name, path): on success the file at path is published under name. */
  function UploadStep(s: HostState, faults: Faults, name: string, path: string)
    : (r: Result<HostState, CommandExecutionError>)
    requires path in s.files
    ensures r.Failure? <==> faults.upload(name, path).Some?
    ensures r.Failure? ==> r.error == faults.upload(name, path).value
    ensures r.Success? ==> r.value == s.(published := s.published[name := s.files[path]])
  {
    match faults.upload(name, path)
    case Some(e) => Failure(e)
    case None => Success(s.(published := s.published[name := s.files[path]]))
  }

  // ------------------------------------------------------------------- hashing

  /** calculateHash's results: an open error is returned, a read error panics inside calculateHash. */
  datatype HashResult = Hashed(hash: string) | OpenFailed(err: Error) | CopyPanicked(err: Error)

  /** calculateHash(artifact) for an S3 artifact stored at `path`. */
  function HashFile(files: map<string, seq<Byte>>, faults: Faults, prims: Primitives, path: string): (r: HashResult)
    ensures r.Hashed? <==> path in files && faults.open(path).None? && faults.read(path).None?
    ensures r.Hashed? ==> r.hash == Hex.EncodeToString(prims.sha256(files[path]))
    ensures r.Hashed? ==> |r.hash| == 64 && forall i :: 0 <= i < 64 ==> Hex.IsLowerHexChar(r.hash[i])
  {
    match OpenFile(files, faults, path)
    case Failure(e) => OpenFailed(e)
    case Success(content) =>
      if faults.read(path).Some? then CopyPanicked(faults.read(path).value)
      else Hashed(Hex.EncodeToString(prims.sha256(content)))
  }

  /** The state of Stop's hashing loop after some artifacts: the map so far, the error that panicked, the steps. */
  datatype HashRun = HashRun(hashes: map<string, ArtifactHash>, failure: Option<Error>, trace: seq<Effect>)

  /** Stop's hashing loop over `arts`, as a fold over its prefixes; it stops at the first failure. */
  function HashArtifacts(arts: seq<Artifact>, files: map<string, seq<Byte>>, faults: Faults, prims: Primitives)
    : (r: HashRun)
    ensures |r.trace| <= |arts|
    ensures forall e | e in r.trace :: e.HashArtifact?
    decreases |arts|
  {
    if arts == [] then HashRun(map[], None, [])
    else
      var prev := HashArtifacts(arts[..|arts| - 1], files, faults, prims);
      var a := arts[|arts| - 1];
      if prev.failure.Some? || !a.S3Artifact? then prev
      else
        var trace := prev.trace + [HashArtifact(a.name, a.path)];
        match HashFile(files, faults, prims, a.path)
        case Hashed(h) => HashRun(prev.hashes[a.name := ArtifactHash(h)], None, trace)
        case OpenFailed(e) => HashRun(prev.hashes, Some(e), trace)
        case CopyPanicked(e) => HashRun(prev.hashes, Some(e), trace)
  }

  /** Once the loop has panicked, the rest of the artifacts change nothing. */
  lemma {:induction false} FailurePersists(arts: seq<Artifact>, n: nat, files: map<string, seq<Byte>>, faults: Faults, prims: Primitives)
    requires n <= |arts|
    requires HashArtifacts(arts[..n], files, faults, prims).failure.Some?
    ensures HashArtifacts(arts, files, faults, prims) == HashArtifacts(arts[..n], files, faults, prims)
    decreases |arts| - n
  {
    if n < |arts| {
      assert arts[..|arts| - 1][..n] == arts[..n];
      FailurePersists(arts[..|arts| - 1], n, files, faults, prims);
    } else {
      assert arts[..n] == arts;
    }
  }

  /** The streaming SHA-256 state of sha256.New(). */
  class Hasher {
    const sha256: seq<Byte> -> Digest
    var absorbed: seq<Byte>

    constructor (sha256: seq<Byte> -> Digest)
      ensures this.sha256 == sha256 && absorbed == []
    {
      this.sha256 := sha256;
      absorbed := [];
    }

    method Write(data: seq<Byte>)
      modifies this
      ensures absorbed == old(absorbed) + data
    {
      absorbed := absorbed + data;
    }

    /** h.Sum(nil): the digest of everything written since the hasher was made. */
    function Sum(): (d: Digest)
      reads this
      ensures d == sha256(absorbed)
    {
      sha256(absorbed)
    }
  }

  /** calculateHash: open the artifact's file, stream it into a hasher, hex-encode the digest. */
  method CalculateHash(files: map<string, seq<Byte>>, faults: Faults, prims: Primitives, path: string)
    returns (r: HashResult)
    ensures r == HashFile(files, faults, prims, path)
  {
    var file := OpenFile(files, faults, path);
    if file.Failure? {
      return OpenFailed(file.error);
    }
    var hasher := new Hasher(prims.sha256);
    if faults.read(path).Some? {
      return CopyPanicked(faults.read(path).value);
    }
    hasher.Write(file.value);
    assert hasher.absorbed == file.value;
    var digest := hasher.Sum();
    r := Hashed(Hex.EncodeToString(digest));
  }

  /** Stop's loop over the task's artifacts, filling the name-to-hash map in place. */
  method CollectArtifactHashes(arts: seq<Artifact>, files: map<string, seq<Byte>>, faults: Faults, prims: Primitives)
    returns (hashes: map<string, ArtifactHash>, failure: Option<Error>, trace: seq<Effect>)
    ensures HashRun(hashes, failure, trace) == HashArtifacts(arts, files, faults, prims)
  {
    hashes, failure, trace := map[], None, [];
    var i := 0;
    while i < |arts|
      invariant 0 <= i <= |arts|
      invariant HashRun(hashes, None, trace) == HashArtifacts(arts[..i], files, faults, prims)
    {
      assert arts[..i + 1][..i] == arts[..i];
      var a := arts[i];
      if a.S3Artifact? {
        trace := trace + [HashArtifact(a.name, a.path)];
        var r := CalculateHash(files, faults, prims, a.path);
        if r.Hashed? {
          hashes := hashes[a.name := ArtifactHash(r.hash)];
        } else {
          // calculateHash's error, or its own panic: either way the loop panics here
          failure := Some(r.err);
          FailurePersists(arts, i + 1, files, faults, prims);
          return;
        }
      }
      i := i + 1;
    }
    assert arts[..i] == arts;
  }

  // ------------------------------------------------------- certificate and Stop

  /** The certificate of a finished run. */
  function BuildCertificate(task: TaskRun, config: Config, hashes: map<string, ArtifactHash>): (r: ChainOfTrustData)
    ensures r.version == 1 && r.artifacts == hashes
    ensures r.task == task.definition && r.taskId == task.taskId && r.runId == task.runId
    ensures r.workerGroup == config.workerGroup && r.workerId == config.workerId
    ensures r.environment == CoTEnvironment(config.publicIP, config.privateIP, config.instanceId,
                                            config.instanceType, config.region)
  {
    ChainOfTrustData(
      version := 1,
      artifacts := hashes,
      task := task.definition,
      taskId := task.taskId,
      runId := task.runId,
      workerGroup := config.workerGroup,
      workerId := config.workerId,
      environment := CoTEnvironment(
        publicIpAddress := config.publicIP,
        privateIpAddress := config.privateIP,
        instanceId := config.instanceId,
        instanceType := config.instanceType,
        region := config.region))
  }

  /** Stop, as a function of the state before it: steps 1 and 2, the log copy and its upload. */
  function StopRun(cot: ChainOfTrustTaskFeature, env: Env, s: HostState): (r: StopResult)
    ensures r.trace != [] && r.trace[0] == CopyLog(env.logPath, CertifiedLogPath)
    ensures forall e | e in r.trace && e.Upload? ::
              e == Upload(CertifiedLogName, CertifiedLogPath) || e == Upload(SignedCertName, SignedCertPath)
    ensures r.outcome.Panic? && |r.trace| == 1 ==>
              CopyFile(s.files, env.faults, env.logPath, CertifiedLogPath) == Failure(r.outcome.cause)
  {
    var t1 := [CopyLog(env.logPath, CertifiedLogPath)];
    match CopyFile(s.files, env.faults, env.logPath, CertifiedLogPath)
    case Failure(e) => StopResult(Panic(e), t1, s)
    case Success(files1) =>
      var s1 := s.(files := files1);
      var t2 := [CopyLog(env.logPath, CertifiedLogPath), Upload(CertifiedLogName, CertifiedLogPath)];
      match UploadStep(s1, env.faults, CertifiedLogName, CertifiedLogPath)
      case Failure(e) => StopResult(UploadErr(e), t2, s1)
      case Success(s2) => CertifyRun(cot, env, s2, t2)
  }

  /** Stop after the certified log is up: hash the artifacts, build and serialise the certificate. */
  function CertifyRun(cot: ChainOfTrustTaskFeature, env: Env, s: HostState, t: seq<Effect>): (r: StopResult)
    ensures |r.trace| >= |t| && r.trace[..|t|] == t
    ensures forall e | e in r.trace && e.Upload? :: e in t || e == Upload(SignedCertName, SignedCertPath)
    ensures !r.outcome.Ok? ==> r.state.published == s.published
  {
    var h := HashArtifacts(cot.task.artifacts, s.files, env.faults, env.prims);
    var t3 := t + h.trace;
    if h.failure.Some? then StopResult(Panic(h.failure.value), t3, s)
    else
      var cert := BuildCertificate(cot.task, env.config, h.hashes);
      var t4 := t3 + [Marshal(cert)];
      match env.prims.marshal(cert)
      case Failure(e) => StopResult(Panic(e), t4, s)
      case Success(json) => SignAndUpload(cot, env, s, t4, json + [Newline])
  }

  /** Stop's last part: write the clearsigned certificate plus a newline, then upload it. */
  function SignAndUpload(cot: ChainOfTrustTaskFeature, env: Env, s: HostState, t: seq<Effect>, certBytes: seq<Byte>)
    : (r: StopResult)
    ensures |r.trace| > |t| && r.trace[..|t|] == t
    ensures forall e | e in r.trace ::
              e in t || e == CreateFile(SignedCertPath) || e == ClearsignEncode || e == ClearsignCopy(certBytes) ||
              e == CloseEnvelope || e == Upload(SignedCertName, SignedCertPath)
    ensures r.outcome.Panic? ==>
              var last := r.trace[|r.trace| - 1];
              (last == CreateFile(SignedCertPath) && env.faults.create(SignedCertPath) == Some(r.outcome.cause)) ||
              (last == ClearsignEncode && env.prims.encode(cot.privKey) == Some(r.outcome.cause)) ||
              (last == ClearsignCopy(certBytes) && env.faults.signWrite == Some(r.outcome.cause))
    ensures !r.outcome.Ok? ==> r.state.published == s.published
  {
    var t5 := t + [CreateFile(SignedCertPath)];
    match env.faults.create(SignedCertPath)
    case Some(e) => StopResult(Panic(e), t5, s)
    case None =>
      var s1 := s.(files := s.files[SignedCertPath := []]);
      var t6 := t5 + [ClearsignEncode];
      match env.prims.encode(cot.privKey)
      case Some(e) => StopResult(Panic(e), t6, s1)
      case None =>
        var t7 := t6 + [ClearsignCopy(certBytes)];
        match env.faults.signWrite
        case Some(e) => StopResult(Panic(e), t7, s1)
        case None =>
          var envelope := env.prims.clearsign(cot.privKey, certBytes) + [Newline];
          var s2 := s1.(files := s1.files[SignedCertPath := envelope]);
          var t8 := t7 + [CloseEnvelope, Upload(SignedCertName, SignedCertPath)];
          match UploadStep(s2, env.faults, SignedCertName, SignedCertPath)
          case Failure(e) => StopResult(UploadErr(e), t8, s2)
          case Success(s3) => StopResult(Ok, t8, s3)
  }

  /** The task directory and the queue, as Stop changes them. */
  class Host {
    var files: map<string, seq<Byte>>
    var published: map<string, seq<Byte>>

    constructor (files: map<string, seq<Byte>>, published: map<string, seq<Byte>>)
      ensures this.files == files && this.published == published
    {
      this.files := files;
      this.published := published;
    }

    function State(): HostState
      reads this
    {
      HostState(files, published)
    }

    /** copyFileContents(src, dst). */
    method CopyFileContents(src: string, dst: string, faults: Faults) returns (err: Option<Error>)
      modifies this
      ensures published == old(published)
      ensures match CopyFile(old(files), faults, src, dst)
              case Success(f) => err.None? && files == f
              case Failure(e) => err == Some(e) && files == old(files)
    {
      var r := CopyFile(files, faults, src, dst);
      match r
      case Failure(e) => err := Some(e);
      case Success(f) => files := f; err := None;
    }

    /** task.uploadLog(name, path). */
    method UploadLog(name: string, path: string, faults: Faults) returns (err: Option<CommandExecutionError>)
      requires path in files
      modifies this
      ensures files == old(files)
      ensures match UploadStep(old(State()), faults, name, path)
              case Success(s) => err.None? && State() == s
              case Failure(e) => err == Some(e) && published == old(published)
    {
      err := faults.upload(name, path);
      if err.None? {
        published := published[name := files[path]];
      }
    }

    /** os.Create(path): on success an empty file. */
    method Create(path: string, faults: Faults) returns (err: Option<Error>)
      modifies this
      ensures published == old(published)
      ensures err == faults.create(path)
      ensures files == if err.None? then old(files)[path := []] else old(files)
    {
      err := faults.create(path);
      if err.None? {
        files := files[path := []];
      }
    }

    /** Write data at the end of an open file. */
    method Append(path: string, data: seq<Byte>)
      requires path in files
      modifies this
      ensures published == old(published)
      ensures files == old(files)[path := old(files)[path] + data]
    {
      files := files[path := files[path] + data];
    }
  }

  /** Stop: the method, tied to StopRun. */
  method Stop(cot: ChainOfTrustTaskFeature, env: Env, host: Host) returns (outcome: Outcome, trace: seq<Effect>)
    modifies host
    ensures StopRun(cot, env, old(host.State())) == StopResult(outcome, trace, host.State())
  {
    ghost var s0 := host.State();
    // 1. copy the task log to the certified log
    trace := [CopyLog(env.logPath, CertifiedLogPath)];
    var e := host.CopyFileContents(env.logPath, CertifiedLogPath, env.faults);
    if e.Some? {
      return Panic(e.value), trace;
    }
    // 2. upload the certified log
    trace := [CopyLog(env.logPath, CertifiedLogPath), Upload(CertifiedLogName, CertifiedLogPath)];
    var uploadErr := host.UploadLog(CertifiedLogName, CertifiedLogPath, env.faults);
    if uploadErr.Some? {
      return UploadErr(uploadErr.value), trace;
    }
    ghost var s2 := host.State();
    ghost var t2 := trace;
    assert StopRun(cot, env, s0) == CertifyRun(cot, env, s2, t2);
    // 3. hash the S3 artifacts
    var hashes, failure, hashTrace := CollectArtifactHashes(cot.task.artifacts, host.files, env.faults, env.prims);
    trace := trace + hashTrace;
    if failure.Some? {
      return Panic(failure.value), trace;
    }
    // 4. build and serialise the certificate, one newline after the JSON
    var cert := BuildCertificate(cot.task, env.config, hashes);
    trace := trace + [Marshal(cert)];
    var json := env.prims.marshal(cert);
    if json.Failure? {
      return Panic(json.error), trace;
    }
    var certBytes := json.value + [Newline];
    assert StopRun(cot, env, s0) == SignAndUpload(cot, env, s2, trace, certBytes);
    ghost var t4 := trace;
    // 5. clearsign it into the signed-certificate file
    trace := trace + [CreateFile(SignedCertPath)];
    e := host.Create(SignedCertPath, env.faults);
    if e.Some? {
      return Panic(e.value), trace;
    }
    ghost var s5 := host.State();
    assert s5 == s2.(files := s2.files[SignedCertPath := []]);
    trace := trace + [ClearsignEncode];
    e := env.prims.encode(cot.privKey);
    if e.Some? {
      return Panic(e.value), trace;
    }
    trace := trace + [ClearsignCopy(certBytes)];
    if env.faults.signWrite.Some? {
      return Panic(env.faults.signWrite.value), trace;
    }
    ghost var signed := env.prims.clearsign(cot.privKey, certBytes);
    assert [] + signed == signed;
    host.Append(SignedCertPath, env.prims.clearsign(cot.privKey, certBytes));  // w.Close()
    assert host.files == s5.files[SignedCertPath := signed];
    host.Append(SignedCertPath, [Newline]);                                      // out.Write
    assert host.files == s2.files[SignedCertPath := []][SignedCertPath := signed + [Newline]];
    // 6. upload the signed certificate
    trace := trace + [CloseEnvelope, Upload(SignedCertName, SignedCertPath)];
    ghost var s6 := host.State();
    uploadErr := host.UploadLog(SignedCertName, SignedCertPath, env.faults);
    if uploadErr.Some? {
      return UploadErr(uploadErr.value), trace;
    }
    outcome := Ok;
  }
}
