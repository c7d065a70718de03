/**
 * What the chain-of-trust feature promises, proved about the model in
 * ChainOfTrust: which artifacts get hashed and how, what the certificate
 * binds, how the signed file is framed, the order of Stop's steps, and that
 * every failure stops the steps that follow it.
 */
module ChainOfTrustProperties {
  import opened Wrappers
  import Hex
  import opened ChainOfTrust

  // ------------------------------------------------------ reference definitions

  /** One hash step per S3 artifact, in declaration order; other artifacts have none. */
  function S3HashSteps(arts: seq<Artifact>): seq<Effect>
    decreases |arts|
  {
    if arts == [] then []
    else
      var a := arts[|arts| - 1];
      S3HashSteps(arts[..|arts| - 1]) + (if a.S3Artifact? then [HashArtifact(a.name, a.path)] else [])
  }

  /** arts[j] is an S3 artifact and no later S3 artifact has its name, so its hash is the one the map keeps. */
  ghost predicate LastS3Named(arts: seq<Artifact>, j: int)
    requires 0 <= j < |arts|
  {
    arts[j].S3Artifact? &&
    forall j' :: j < j' < |arts| && arts[j'].S3Artifact? ==> arts[j'].name != arts[j].name
  }

  /** The task directory once the task log has been copied to the certified log. */
  function CopiedFiles(s: HostState, env: Env): map<string, seq<Byte>>
    requires env.logPath in s.files
  {
    s.files[CertifiedLogPath := s.files[env.logPath]]
  }

  /** The certificate Stop builds for this run. */
  function CertificateOf(cot: ChainOfTrustTaskFeature, env: Env, s: HostState): ChainOfTrustData
    requires env.logPath in s.files
  {
    BuildCertificate(cot.task, env.config,
      HashArtifacts(cot.task.artifacts, CopiedFiles(s, env), env.faults, env.prims).hashes)
  }

  /** Stop's first two steps: the log copy and the certified-log upload. */
  function LogSteps(env: Env): seq<Effect> {
    [CopyLog(env.logPath, CertifiedLogPath), Upload(CertifiedLogName, CertifiedLogPath)]
  }

  /** The host once the certified log is copied and published. */
  function LoggedState(s: HostState, env: Env): HostState
    requires env.logPath in s.files
  {
    HostState(CopiedFiles(s, env), s.published[CertifiedLogName := s.files[env.logPath]])
  }

  /** The signed-certificate file: JSON, one newline, clearsigned, one more newline. */
  function SignedFile(prims: Primitives, key: PrivateKey, json: seq<Byte>): seq<Byte> {
    prims.clearsign(key, json + [Newline]) + [Newline]
  }

  /** Stop gets as far as signing: the log copy, its upload, every hash and the serialisation succeed. */
  ghost predicate ReachesSigning(cot: ChainOfTrustTaskFeature, env: Env, s: HostState) {
    CopyFile(s.files, env.faults, env.logPath, CertifiedLogPath).Success? &&
    env.faults.upload(CertifiedLogName, CertifiedLogPath).None? &&
    env.logPath in s.files &&
    HashArtifacts(cot.task.artifacts, CopiedFiles(s, env), env.faults, env.prims).failure.None? &&
    env.prims.marshal(CertificateOf(cot, env, s)).Success?
  }

  /** A Stop that reaches signing is the signing stage after the log steps, the hashes and the serialisation. */
  lemma StopReachingSigning(cot: ChainOfTrustTaskFeature, env: Env, s: HostState)
    requires ReachesSigning(cot, env, s)
    ensures var cert := CertificateOf(cot, env, s);
            StopRun(cot, env, s) ==
              SignAndUpload(cot, env, LoggedState(s, env),
                LogSteps(env) + HashArtifacts(cot.task.artifacts, CopiedFiles(s, env), env.faults, env.prims).trace
                  + [Marshal(cert)],
                env.prims.marshal(cert).value + [Newline])
  {
    var s2 := LoggedState(s, env);
    assert StopRun(cot, env, s) == CertifyRun(cot, env, s2, LogSteps(env));
  }

  /** A Stop that does not reach signing fails, and attempts only log steps, hashes and serialisation. */
  lemma StopNotReachingSigning(cot: ChainOfTrustTaskFeature, env: Env, s: HostState)
    requires !ReachesSigning(cot, env, s)
    ensures !StopRun(cot, env, s).outcome.Ok?
    ensures StopRun(cot, env, s).state.published == s.published ||
            (env.logPath in s.files &&
             StopRun(cot, env, s).state.published == s.published[CertifiedLogName := s.files[env.logPath]])
    ensures forall e | e in StopRun(cot, env, s).trace ::
              e.CopyLog? || e == Upload(CertifiedLogName, CertifiedLogPath) || e.HashArtifact? || e.Marshal?
  {
    if CopyFile(s.files, env.faults, env.logPath, CertifiedLogPath).Success? &&
       env.faults.upload(CertifiedLogName, CertifiedLogPath).None? {
      var s2 := LoggedState(s, env);
      assert StopRun(cot, env, s) == CertifyRun(cot, env, s2, LogSteps(env));
      var h := HashArtifacts(cot.task.artifacts, s2.files, env.faults, env.prims);
      HashTraceSteps(cot.task.artifacts, s2.files, env.faults, env.prims);
      if h.failure.Some? {
        assert StopRun(cot, env, s).trace == LogSteps(env) + h.trace;
      } else {
        var cert := BuildCertificate(cot.task, env.config, h.hashes);
        assert StopRun(cot, env, s).trace == LogSteps(env) + h.trace + [Marshal(cert)];
      }
    }
  }

  // ------------------------------------------------------------ hashing loop

  /** The hashing loop attempts only hash steps; on success exactly one per S3 artifact, in order;
      on failure its last step is the S3 artifact whose hash failed. */
  lemma {:induction false} HashTraceSteps(arts: seq<Artifact>, files: map<string, seq<Byte>>, faults: Faults, prims: Primitives)
    ensures var h := HashArtifacts(arts, files, faults, prims);
            forall e | e in h.trace :: e.HashArtifact?
    ensures var h := HashArtifacts(arts, files, faults, prims);
            h.failure.None? ==> h.trace == S3HashSteps(arts)
    ensures var h := HashArtifacts(arts, files, faults, prims);
            h.failure.Some? ==>
              h.trace != [] &&
              var last := h.trace[|h.trace| - 1];
              last.HashArtifact? && !HashFile(files, faults, prims, last.path).Hashed? &&
              HashFile(files, faults, prims, last.path).err == h.failure.value
    decreases |arts|
  {
    if arts != [] {
      HashTraceSteps(arts[..|arts| - 1], files, faults, prims);
    }
  }

  /** The hashing loop fails exactly when the file of some S3 artifact cannot be hashed. */
  lemma {:induction false} HashFailureIff(arts: seq<Artifact>, files: map<string, seq<Byte>>, faults: Faults, prims: Primitives)
    ensures HashArtifacts(arts, files, faults, prims).failure.Some? <==>
            exists j :: 0 <= j < |arts| && arts[j].S3Artifact? && !HashFile(files, faults, prims, arts[j].path).Hashed?
    decreases |arts|
  {
    if arts != [] {
      var init := arts[..|arts| - 1];
      HashFailureIff(init, files, faults, prims);
      if HashArtifacts(init, files, faults, prims).failure.Some? {
        var j :| 0 <= j < |init| && init[j].S3Artifact? && !HashFile(files, faults, prims, init[j].path).Hashed?;
        assert arts[j] == init[j];
      } else {
        forall j | 0 <= j < |init|
          ensures arts[j].S3Artifact? ==> HashFile(files, faults, prims, arts[j].path).Hashed?
        {
          assert arts[j] == init[j];
        }
      }
    }
  }

  /** When no hash fails, the map has a key for each S3 artifact's name and no other, and the
      value under a name is the lowercase hex SHA-256 of the file of the last S3 artifact so named. */
  lemma HashMapContents(arts: seq<Artifact>, files: map<string, seq<Byte>>, faults: Faults, prims: Primitives)
    requires HashArtifacts(arts, files, faults, prims).failure.None?
    ensures var h := HashArtifacts(arts, files, faults, prims);
            forall k :: k in h.hashes <==> exists j :: 0 <= j < |arts| && arts[j].S3Artifact? && arts[j].name == k
    ensures var h := HashArtifacts(arts, files, faults, prims);
            forall j :: 0 <= j < |arts| && LastS3Named(arts, j) ==>
              arts[j].path in files &&
              h.hashes[arts[j].name] == ArtifactHash(Hex.EncodeToString(prims.sha256(files[arts[j].path])))
    ensures var h := HashArtifacts(arts, files, faults, prims);
            forall k | k in h.hashes :: |h.hashes[k].sha256| == 64 &&
              forall i :: 0 <= i < 64 ==> Hex.IsLowerHexChar(h.hashes[k].sha256[i])
  {
    HashMapKeys(arts, files, faults, prims);
    HashMapValues(arts, files, faults, prims);
    HashMapDigests(arts, files, faults, prims);
  }

  /** The first half of HashMapContents: the keys. */
  lemma {:induction false} HashMapKeys(arts: seq<Artifact>, files: map<string, seq<Byte>>, faults: Faults, prims: Primitives)
    requires HashArtifacts(arts, files, faults, prims).failure.None?
    ensures var h := HashArtifacts(arts, files, faults, prims);
            forall k :: k in h.hashes <==> exists j :: 0 <= j < |arts| && arts[j].S3Artifact? && arts[j].name == k
    decreases |arts|
  {
    if arts != [] {
      var init := arts[..|arts| - 1];
      var n := |arts| - 1;
      var prev := HashArtifacts(init, files, faults, prims);
      var h := HashArtifacts(arts, files, faults, prims);
      assert prev.failure.None?;
      HashMapKeys(init, files, faults, prims);
      forall k
        ensures k in h.hashes <==> exists j :: 0 <= j < |arts| && arts[j].S3Artifact? && arts[j].name == k
      {
        if k in prev.hashes {
          var j :| 0 <= j < |init| && init[j].S3Artifact? && init[j].name == k;
          assert arts[j] == init[j];
        }
        if exists j :: 0 <= j < |arts| && arts[j].S3Artifact? && arts[j].name == k {
          var j :| 0 <= j < |arts| && arts[j].S3Artifact? && arts[j].name == k;
          if j < n {
            assert init[j] == arts[j];
          }
        }
      }
    }
  }

  /** The second half of HashMapContents: the value under each name. */
  lemma {:induction false} HashMapValues(arts: seq<Artifact>, files: map<string, seq<Byte>>, faults: Faults, prims: Primitives)
    requires HashArtifacts(arts, files, faults, prims).failure.None?
    ensures var h := HashArtifacts(arts, files, faults, prims);
            forall j :: 0 <= j < |arts| && LastS3Named(arts, j) ==>
              arts[j].path in files && arts[j].name in h.hashes &&
              h.hashes[arts[j].name] == ArtifactHash(Hex.EncodeToString(prims.sha256(files[arts[j].path])))
    decreases |arts|
  {
    if arts != [] {
      var init := arts[..|arts| - 1];
      var n := |arts| - 1;
      var h := HashArtifacts(arts, files, faults, prims);
      assert HashArtifacts(init, files, faults, prims).failure.None?;
      HashMapValues(init, files, faults, prims);
      forall j | 0 <= j < |arts| && LastS3Named(arts, j)
        ensures arts[j].path in files && arts[j].name in h.hashes &&
                h.hashes[arts[j].name] == ArtifactHash(Hex.EncodeToString(prims.sha256(files[arts[j].path])))
      {
        if j < n {
          assert init[j] == arts[j];
          assert LastS3Named(init, j);
        }
      }
    }
  }

  /** Every value in the map is a 64-character lowercase hex digest. */
  lemma {:induction false} HashMapDigests(arts: seq<Artifact>, files: map<string, seq<Byte>>, faults: Faults, prims: Primitives)
    ensures forall k | k in HashArtifacts(arts, files, faults, prims).hashes ::
              var d := HashArtifacts(arts, files, faults, prims).hashes[k].sha256;
              |d| == 64 && forall i :: 0 <= i < 64 ==> Hex.IsLowerHexChar(d[i])
    decreases |arts|
  {
    if arts != [] {
      HashMapDigests(arts[..|arts| - 1], files, faults, prims);
    }
  }

  // ------------------------------------------------------------------- Stop

  /** Stop uploads only the two reserved artifacts, each from its fixed path. */
  lemma StopUploadsOnlyReservedNames(cot: ChainOfTrustTaskFeature, env: Env, s: HostState)
    ensures forall e | e in StopRun(cot, env, s).trace && e.Upload? ::
              e.name in ReservedArtifacts(cot) &&
              (e.name == CertifiedLogName ==> e.path == CertifiedLogPath) &&
              (e.name == SignedCertName ==> e.path == SignedCertPath)
  {

  }

  /** On success Stop has done, in this order: the log copy, the certified-log upload, one hash per
      S3 artifact, serialisation, file creation, clearsigning of the JSON plus one newline, and the
      signed-certificate upload. */
  lemma StopSuccessOrder(cot: ChainOfTrustTaskFeature, env: Env, s: HostState)
    requires StopRun(cot, env, s).outcome.Ok?
    ensures env.logPath in s.files
    ensures var cert := CertificateOf(cot, env, s);
            env.prims.marshal(cert).Success? &&
            StopRun(cot, env, s).trace ==
              [CopyLog(env.logPath, CertifiedLogPath), Upload(CertifiedLogName, CertifiedLogPath)]
              + S3HashSteps(cot.task.artifacts)
              + [Marshal(cert), CreateFile(SignedCertPath), ClearsignEncode,
                 ClearsignCopy(env.prims.marshal(cert).value + [Newline]),
                 CloseEnvelope, Upload(SignedCertName, SignedCertPath)]
  {
    if ReachesSigning(cot, env, s) {
      StopReachingSigning(cot, env, s);
      HashTraceSteps(cot.task.artifacts, CopiedFiles(s, env), env.faults, env.prims);
    } else {
      StopNotReachingSigning(cot, env, s);
    }
  }

  /** On success both reserved artifacts are published and nothing else is: the certified log is the
      task log byte for byte, and the certificate is the framed clearsigned JSON of the run's certificate. */
  lemma PublishedOnSuccess(cot: ChainOfTrustTaskFeature, env: Env, s: HostState)
    requires StopRun(cot, env, s).outcome.Ok?
    ensures env.logPath in s.files
    ensures var cert := CertificateOf(cot, env, s);
            env.prims.marshal(cert).Success? &&
            StopRun(cot, env, s).state.published ==
              s.published[CertifiedLogName := s.files[env.logPath]]
                         [SignedCertName := SignedFile(env.prims, cot.privKey, env.prims.marshal(cert).value)]
  {
    if ReachesSigning(cot, env, s) {
      StopReachingSigning(cot, env, s);
    } else {
      StopNotReachingSigning(cot, env, s);
    }
  }

  /** Whenever the envelope was written, the signed-certificate file is exactly
      clearsign(marshal(cert) + newline) + newline, and what was streamed into the signer is
      marshal(cert) + newline. */
  lemma SignedCertificateFraming(cot: ChainOfTrustTaskFeature, env: Env, s: HostState)
    requires CloseEnvelope in StopRun(cot, env, s).trace
    ensures env.logPath in s.files
    ensures var cert := CertificateOf(cot, env, s);
            env.prims.marshal(cert).Success? &&
            var json := env.prims.marshal(cert).value;
            ClearsignCopy(json + [Newline]) in StopRun(cot, env, s).trace &&
            SignedCertPath in StopRun(cot, env, s).state.files &&
            StopRun(cot, env, s).state.files[SignedCertPath] == SignedFile(env.prims, cot.privKey, json)
  {
    if ReachesSigning(cot, env, s) {
      StopReachingSigning(cot, env, s);
      var h := HashArtifacts(cot.task.artifacts, CopiedFiles(s, env), env.faults, env.prims);
      HashTraceSteps(cot.task.artifacts, CopiedFiles(s, env), env.faults, env.prims);
      var cert := CertificateOf(cot, env, s);
      assert CloseEnvelope !in h.trace;
      EnvelopeFraming(cot, env, LoggedState(s, env), LogSteps(env) + h.trace + [Marshal(cert)],
                      env.prims.marshal(cert).value + [Newline]);
    } else {
      StopNotReachingSigning(cot, env, s);
    }
  }

  /** SignedCertificateFraming for the signing stage alone. */
  lemma EnvelopeFraming(cot: ChainOfTrustTaskFeature, env: Env, s: HostState, t: seq<Effect>, certBytes: seq<Byte>)
    requires CloseEnvelope !in t
    requires CloseEnvelope in SignAndUpload(cot, env, s, t, certBytes).trace
    ensures var r := SignAndUpload(cot, env, s, t, certBytes);
            ClearsignCopy(certBytes) in r.trace &&
            SignedCertPath in r.state.files &&
            r.state.files[SignedCertPath] == env.prims.clearsign(cot.privKey, certBytes) + [Newline]
  {
  }


  /** Stop returns nil exactly when it attempted the signed-certificate upload and that upload
      succeeded; the certified-log upload had succeeded before. */
  lemma StopOkIff(cot: ChainOfTrustTaskFeature, env: Env, s: HostState)
    ensures StopRun(cot, env, s).outcome.Ok? <==>
            Upload(SignedCertName, SignedCertPath) in StopRun(cot, env, s).trace &&
            env.faults.upload(SignedCertName, SignedCertPath).None?
    ensures StopRun(cot, env, s).outcome.Ok? ==>
            Upload(CertifiedLogName, CertifiedLogPath) in StopRun(cot, env, s).trace &&
            env.faults.upload(CertifiedLogName, CertifiedLogPath).None?
  {
    if ReachesSigning(cot, env, s) {
      StopReachingSigning(cot, env, s);
      HashTraceSteps(cot.task.artifacts, CopiedFiles(s, env), env.faults, env.prims);
    } else {
      StopNotReachingSigning(cot, env, s);
    }
  }

  /** If the certified-log upload fails, Stop returns its error and does nothing more. */
  lemma CertifiedLogUploadFailure(cot: ChainOfTrustTaskFeature, env: Env, s: HostState, e: CommandExecutionError)
    requires CopyFile(s.files, env.faults, env.logPath, CertifiedLogPath).Success?
    requires env.faults.upload(CertifiedLogName, CertifiedLogPath) == Some(e)
    ensures StopRun(cot, env, s).outcome == UploadErr(e)
    ensures StopRun(cot, env, s).trace ==
              [CopyLog(env.logPath, CertifiedLogPath), Upload(CertifiedLogName, CertifiedLogPath)]
    ensures StopRun(cot, env, s).state.published == s.published
  {
  }

  /** `step` is a step of Stop that panics, and it panicked with `cause`: the log copy, a hash of the
      copied task directory's file, serialisation, file creation, clearsign set-up, or the copy into
      the signer. Uploads and the close of the envelope never panic. */
  ghost predicate StepFailedWith(cot: ChainOfTrustTaskFeature, env: Env, s: HostState, step: Effect, cause: Error) {
    match step
    case CopyLog(_, _) => CopyFile(s.files, env.faults, env.logPath, CertifiedLogPath) == Failure(cause)
    case HashArtifact(_, path) =>
      env.logPath in s.files &&
      var hashed := HashFile(CopiedFiles(s, env), env.faults, env.prims, path);
      !hashed.Hashed? && hashed.err == cause
    case Marshal(cert) => env.prims.marshal(cert) == Failure(cause)
    case CreateFile(path) => env.faults.create(path) == Some(cause)
    case ClearsignEncode => env.prims.encode(cot.privKey) == Some(cause)
    case ClearsignCopy(_) => env.faults.signWrite == Some(cause)
    case _ => false
  }

  /** FailureStopsAtFailingStep's conclusion about a result `r` of Stop. */
  ghost predicate EndsAtFailingStep(cot: ChainOfTrustTaskFeature, env: Env, s: HostState, r: StopResult) {
    r.trace != [] &&
    var last := r.trace[|r.trace| - 1];
    (r.outcome.Panic? <==> !last.Upload?) &&
    last != CloseEnvelope &&
    (r.outcome.Panic? ==> Upload(SignedCertName, SignedCertPath) !in r.trace) &&
    (r.outcome.Panic? ==> StepFailedWith(cot, env, s, last, r.outcome.cause)) &&
    (r.outcome.UploadErr? ==> env.faults.upload(last.name, last.path) == Some(r.outcome.err))
  }

  /** Stop ends at the step that failed, if any: a panic is raised by the step it attempted last,
      with the error that step failed with, and the signed certificate is then never uploaded; an
      upload error comes from the last step, an upload the oracle failed. */
  lemma FailureStopsAtFailingStep(cot: ChainOfTrustTaskFeature, env: Env, s: HostState)
    ensures var r := StopRun(cot, env, s);
            r.trace != [] &&
            var last := r.trace[|r.trace| - 1];
            (r.outcome.Panic? <==> !last.Upload?) &&
            last != CloseEnvelope &&
            (r.outcome.Panic? ==> Upload(SignedCertName, SignedCertPath) !in r.trace) &&
            (r.outcome.Panic? ==> StepFailedWith(cot, env, s, last, r.outcome.cause)) &&
            (r.outcome.UploadErr? ==> env.faults.upload(last.name, last.path) == Some(r.outcome.err))
  {
    if ReachesSigning(cot, env, s) {
      LateFailureStopsAtFailingStep(cot, env, s);
    } else {
      EarlyFailureStopsAtFailingStep(cot, env, s);
    }
  }

  /** FailureStopsAtFailingStep for a Stop that reaches signing. */
  lemma LateFailureStopsAtFailingStep(cot: ChainOfTrustTaskFeature, env: Env, s: HostState)
    requires ReachesSigning(cot, env, s)
    ensures EndsAtFailingStep(cot, env, s, StopRun(cot, env, s))
  {
    StopReachingSigning(cot, env, s);
    var h := HashArtifacts(cot.task.artifacts, CopiedFiles(s, env), env.faults, env.prims);
    HashTraceSteps(cot.task.artifacts, CopiedFiles(s, env), env.faults, env.prims);
    var cert := CertificateOf(cot, env, s);
    var t4 := LogSteps(env) + h.trace + [Marshal(cert)];
    assert CloseEnvelope !in h.trace && Upload(SignedCertName, SignedCertPath) !in h.trace;
    SignStopsAtFailingStep(cot, env, s, LoggedState(s, env), t4, env.prims.marshal(cert).value + [Newline]);
  }

  /** FailureStopsAtFailingStep for a Stop that fails before signing. */
  lemma EarlyFailureStopsAtFailingStep(cot: ChainOfTrustTaskFeature, env: Env, s: HostState)
    requires !ReachesSigning(cot, env, s)
    ensures EndsAtFailingStep(cot, env, s, StopRun(cot, env, s))
  {
    StopNotReachingSigning(cot, env, s);
    if CopyFile(s.files, env.faults, env.logPath, CertifiedLogPath).Success? &&
       env.faults.upload(CertifiedLogName, CertifiedLogPath).None? {
      var s2 := LoggedState(s, env);
      assert StopRun(cot, env, s) == CertifyRun(cot, env, s2, LogSteps(env));
      var h := HashArtifacts(cot.task.artifacts, s2.files, env.faults, env.prims);
      HashTraceSteps(cot.task.artifacts, s2.files, env.faults, env.prims);
      if h.failure.Some? {
        assert StopRun(cot, env, s).trace == LogSteps(env) + h.trace;
        assert StopRun(cot, env, s).trace[|StopRun(cot, env, s).trace| - 1] == h.trace[|h.trace| - 1];
      } else {
        assert StopRun(cot, env, s).trace == LogSteps(env) + h.trace + [Marshal(CertificateOf(cot, env, s))];
      }
    }
  }

  /** FailureStopsAtFailingStep once the certificate is serialised. */
  lemma SignStopsAtFailingStep(cot: ChainOfTrustTaskFeature, env: Env, s: HostState, s2: HostState,
                               t: seq<Effect>, certBytes: seq<Byte>)
    requires CloseEnvelope !in t && Upload(SignedCertName, SignedCertPath) !in t
    ensures EndsAtFailingStep(cot, env, s, SignAndUpload(cot, env, s2, t, certBytes))
  {
  }

  /** A Stop that does not return nil never publishes the signed certificate: at most the
      certified log, a copy of the task log, has been published. */
  lemma FailureNeverPublishesCertificate(cot: ChainOfTrustTaskFeature, env: Env, s: HostState)
    requires !StopRun(cot, env, s).outcome.Ok?
    ensures var r := StopRun(cot, env, s);
            r.state.published == s.published ||
            (env.logPath in s.files && r.state.published == s.published[CertifiedLogName := s.files[env.logPath]])
  {
    if ReachesSigning(cot, env, s) {
      StopReachingSigning(cot, env, s);
    } else {
      StopNotReachingSigning(cot, env, s);
    }
  }

  /** Stop's panics: a failed log copy, hash, serialisation, file creation, clearsign set-up or copy
      into the signer each panics, and each leaves the signed certificate unpublished. */
  lemma PanicCauses(cot: ChainOfTrustTaskFeature, env: Env, s: HostState)
    ensures var r := StopRun(cot, env, s);
            r.outcome.Panic? <==>
              CopyFile(s.files, env.faults, env.logPath, CertifiedLogPath).Failure? ||
              (env.logPath in s.files && env.faults.upload(CertifiedLogName, CertifiedLogPath).None? &&
               var cert := CertificateOf(cot, env, s);
               (HashArtifacts(cot.task.artifacts, CopiedFiles(s, env), env.faults, env.prims).failure.Some? ||
                env.prims.marshal(cert).Failure? ||
                env.faults.create(SignedCertPath).Some? ||
                env.prims.encode(cot.privKey).Some? ||
                env.faults.signWrite.Some?))
  {
    if ReachesSigning(cot, env, s) {
      StopReachingSigning(cot, env, s);
    } else {
      StopNotReachingSigning(cot, env, s);
    }
  }

  /** What Stop serialises binds this run: version 1, the task definition, task and run ids, the
      worker's group, id and environment, and a hash for exactly the S3 artifacts, all computed. */
  lemma MarshalledCertificate(cot: ChainOfTrustTaskFeature, env: Env, s: HostState, cert: ChainOfTrustData)
    requires Marshal(cert) in StopRun(cot, env, s).trace
    ensures env.logPath in s.files
    ensures HashArtifacts(cot.task.artifacts, CopiedFiles(s, env), env.faults, env.prims).failure.None?
    ensures cert == CertificateOf(cot, env, s)
    ensures cert.version == 1
    ensures cert.task == cot.task.definition && cert.taskId == cot.task.taskId && cert.runId == cot.task.runId
    ensures cert.workerGroup == env.config.workerGroup && cert.workerId == env.config.workerId
    ensures cert.environment == CoTEnvironment(env.config.publicIP, env.config.privateIP,
                                               env.config.instanceId, env.config.instanceType, env.config.region)
    ensures forall k :: k in cert.artifacts <==>
              exists j :: 0 <= j < |cot.task.artifacts| && cot.task.artifacts[j].S3Artifact? &&
                          cot.task.artifacts[j].name == k
  {
    SerialisedIsCertificateOf(cot, env, s, cert);
    HashMapKeys(cot.task.artifacts, CopiedFiles(s, env), env.faults, env.prims);
  }

  /** The one certificate Stop serialises is the run's, and it is serialised only when every hash succeeded. */
  lemma SerialisedIsCertificateOf(cot: ChainOfTrustTaskFeature, env: Env, s: HostState, cert: ChainOfTrustData)
    requires Marshal(cert) in StopRun(cot, env, s).trace
    ensures env.logPath in s.files
    ensures HashArtifacts(cot.task.artifacts, CopiedFiles(s, env), env.faults, env.prims).failure.None?
    ensures cert == CertificateOf(cot, env, s)
  {
    if CopyFile(s.files, env.faults, env.logPath, CertifiedLogPath).Success? &&
       env.faults.upload(CertifiedLogName, CertifiedLogPath).None? {
      var s2 := LoggedState(s, env);
      assert StopRun(cot, env, s) == CertifyRun(cot, env, s2, LogSteps(env));
      var h := HashArtifacts(cot.task.artifacts, s2.files, env.faults, env.prims);
      HashTraceSteps(cot.task.artifacts, s2.files, env.faults, env.prims);
      if h.failure.None? {
        if ReachesSigning(cot, env, s) {
          StopReachingSigning(cot, env, s);
        } else {
          assert StopRun(cot, env, s).trace == LogSteps(env) + h.trace + [Marshal(CertificateOf(cot, env, s))];
        }
      }
    }
  }


  /** Every task feature of one worker signs with the key the worker loaded. */
  lemma EveryRunSignsWithWorkerKey(feature: ChainOfTrustFeature, task: TaskRun, env: Env, s: HostState)
    requires StopRun(NewTaskFeature(feature, task), env, s).outcome.Ok?
    ensures env.logPath in s.files
    ensures var cot := NewTaskFeature(feature, task);
            var cert := CertificateOf(cot, env, s);
            env.prims.marshal(cert).Success? &&
            StopRun(cot, env, s).state.published[SignedCertName] ==
              SignedFile(env.prims, feature.privateKey, env.prims.marshal(cert).value)
  {
    var cot := NewTaskFeature(feature, task);
    if ReachesSigning(cot, env, s) {
      StopReachingSigning(cot, env, s);
    } else {
      StopNotReachingSigning(cot, env, s);
    }
  }

  /** The certified log and the certificate are not published together or not at all: when the
      certificate upload fails, the certified log, uploaded first, stays published alone. */
  lemma CertifiedLogPublishedAlone(cot: ChainOfTrustTaskFeature, env: Env, s: HostState)
    requires CopyFile(s.files, env.faults, env.logPath, CertifiedLogPath).Success?
    requires env.faults.upload(CertifiedLogName, CertifiedLogPath).None?
    requires env.faults.upload(SignedCertName, SignedCertPath).Some?
    requires SignedCertName !in s.published
    ensures !StopRun(cot, env, s).outcome.Ok?
    ensures CertifiedLogName in StopRun(cot, env, s).state.published
    ensures SignedCertName !in StopRun(cot, env, s).state.published
  {
    if ReachesSigning(cot, env, s) {
      StopReachingSigning(cot, env, s);
    } else {
      StopNotReachingSigning(cot, env, s);
    }
  }
}
