# Chain of trust: a Dafny model

This project models the chain-of-trust task feature of the generic worker (`chain_of_trust.go`).
A task can ask for a chain of trust. The worker then checks at task start that the task user
cannot read the worker's private OpenPGP signing key. At task end (`Stop`) it does six things in order:

1. it copies the task log to `generic-worker/certified.log`;
2. it uploads that copy as `public/logs/certified.log`;
3. it computes the SHA-256 of every S3 artifact;
4. it builds the certificate (`ChainOfTrustData`, version 1) and serialises it as JSON;
5. it clearsigns the JSON plus one newline (section 7 of RFC 4880) and adds one more newline;
6. it uploads the result as `public/chainOfTrust.json.asc`.

Files:

- `Wrappers.dfy`: `Option` and `Result`.
- `Hex.dfy`: lowercase Base16 (section 8 of RFC 4648), as Go's `hex.EncodeToString` writes it. It
  has a decoder and the round-trip proof.
- `ChainOfTrust.dfy`: the data types, the pure feature functions (`IsEnabled`, `NewTaskFeature`,
  `ReservedArtifacts`, `Start`) and the file and upload steps. It also holds the hashing loop
  (`CollectArtifactHashes`, with `CalculateHash` streaming into a `Hasher` object), the certificate
  assembly and `Stop`. `Stop` changes a `Host` object, which holds the task directory's files and the
  published artifacts. It returns an `Outcome` (`Ok`, `UploadErr(e)` or `Panic(e)`) and the trace of
  the steps it attempted. Its postcondition equates all of this with the function `StopRun` of the
  state before the call.
- `Properties.dfy`: lemmas about `StopRun` and the hashing loop.

Foreign code is uninterpreted. SHA-256, `json.MarshalIndent`, `clearsign.Encode` and the clearsign
envelope are the function-valued fields of `Primitives`. An oracle, `Faults`, decides which file-system and
upload operations fail. The private key and the task definition are opaque types.

The certified log and the signed certificate are not published together or not at all. The code
uploads the certified log before it hashes anything. So a later panic, or a failed certificate upload,
leaves the certified log published on its own. `CertifiedLogPublishedAlone` states this.

## Model

| member | source | states |
|---|---|---|
| `Hex.EncodeToString` | chain_of_trust.go:223 | the digest text is lowercase Base16: two characters per byte, high nibble first, so twice as long as the input |
| `Hex.DecodeEncode` | chain_of_trust.go:223 | decoding the hex text of any byte string gives that byte string back |
| `Hex.EncodeInjective` | chain_of_trust.go:223 | two byte strings with the same hex text are equal, so a digest's hex names that digest alone |
| `ChainOfTrust.IsEnabled` | chain_of_trust.go:99-101 | the feature is on for a task exactly when the payload's chain-of-trust flag is set |
| `ChainOfTrust.NewTaskFeature` | chain_of_trust.go:103-108 | the task feature keeps the task and gets the worker's loaded private key unchanged |
| `ChainOfTrust.ReservedArtifacts` | chain_of_trust.go:110-115 | the reserved names are exactly `public/chainOfTrust.json.asc` then `public/logs/certified.log` |
| `ChainOfTrust.MalformedPayloadError` | chain_of_trust.go:130 | the error has the malformed-payload reason and keeps the given cause |
| `ChainOfTrust.Start` | chain_of_trust.go:122-133 | Start fails exactly when the key-readability check returns an error; the failure is a malformed payload whose cause is that error |
| `ChainOfTrust.OpenFile` | chain_of_trust.go:212-216 | opening succeeds exactly when the file exists and no open fault occurs, and yields the file's bytes |
| `ChainOfTrust.CopyFile` | chain_of_trust.go:139-142 | copying succeeds exactly when the source opens and the copy does not fault; the destination then holds the source's bytes |
| `ChainOfTrust.UploadStep` | chain_of_trust.go:143-146 | an upload fails exactly when the transport fails, with its error; otherwise the file is published under the name |
| `ChainOfTrust.HashFile` | chain_of_trust.go:211-225 | a hash exists exactly when the file opens and reads; it is the 64 lowercase hex characters of SHA-256 of the file's bytes |
| `ChainOfTrust.CalculateHash` | chain_of_trust.go:211-225 | opening, streaming into a hasher and hex-encoding give HashFile's result, including its two distinct failures |
| `ChainOfTrust.Hasher.constructor` | chain_of_trust.go:218 | a new hasher has absorbed nothing |
| `ChainOfTrust.Hasher.Write` | chain_of_trust.go:219 | writing appends the bytes to what the hasher has absorbed |
| `ChainOfTrust.Hasher.Sum` | chain_of_trust.go:223 | the digest is SHA-256 of everything written since the hasher was made |
| `ChainOfTrust.HashArtifacts` | chain_of_trust.go:147-160 | hashing attempts only hash steps, at most one per artifact |
| `ChainOfTrust.FailurePersists` | chain_of_trust.go:152-155 | once a hash panics, the remaining artifacts change nothing |
| `ChainOfTrust.CollectArtifactHashes` | chain_of_trust.go:147-160 | the loop's map, failure and steps equal the fold HashArtifacts over all artifacts, stopping at the first panic |
| `ChainOfTrust.BuildCertificate` | chain_of_trust.go:162-177 | version 1, the computed map, the task definition, task id, run id, worker group, worker id and the five environment fields of config |
| `ChainOfTrust.Host.CopyFileContents` | chain_of_trust.go:139 | the host's files change exactly as CopyFile says, and nothing is published |
| `ChainOfTrust.Host.UploadLog` | chain_of_trust.go:143 | the host's published artifacts change exactly as UploadStep says, and the files do not |
| `ChainOfTrust.Host.Create` | chain_of_trust.go:187-190 | on success the file is now empty; on failure nothing changes |
| `ChainOfTrust.Host.Append` | chain_of_trust.go:201-202 | the bytes are added at the end of the file, and nothing else changes |
| `ChainOfTrust.StopRun` | chain_of_trust.go:135-209 | the log copy is always the first step; only the certified log and the signed certificate are ever uploaded, each from its fixed path; a run that stops after one step panics with the copy's error |
| `ChainOfTrust.CertifyRun` | chain_of_trust.go:147-208 | the steps before it are kept as a prefix; beyond them only the signed certificate is uploaded; a run that does not return nil publishes nothing more |
| `ChainOfTrust.SignAndUpload` | chain_of_trust.go:185-208 | at least one step is added after the prefix, each one of create, clearsign set-up, signer copy, close or certificate upload; a panic is the step that failed with that step's error (create, set-up or signer copy); a run that does not return nil publishes nothing more |
| `ChainOfTrust.Stop` | chain_of_trust.go:135-209 | the outcome, the trace and the host's new files and published artifacts are those of StopRun on the old state |
| `ChainOfTrustProperties.HashTraceSteps` | chain_of_trust.go:147-160 | hashing attempts only hash steps; without failure there is one per S3 artifact in order, with failure the last is the artifact whose hash failed and the failure is that file's hashing error |
| `ChainOfTrustProperties.HashFailureIff` | chain_of_trust.go:147-160 | hashing panics exactly when some S3 artifact's file cannot be opened or read |
| `ChainOfTrustProperties.HashMapContents` | chain_of_trust.go:147-160 | the map's keys are exactly the S3 artifacts' names; the value under a name is the hex SHA-256 of the file of the last S3 artifact so named; every value is 64 lowercase hex characters |
| `ChainOfTrustProperties.StopUploadsOnlyReservedNames` | chain_of_trust.go:139-208 | Stop uploads only the two reserved names, each from its fixed path |
| `ChainOfTrustProperties.StopSuccessOrder` | chain_of_trust.go:139-208 | on success the steps are: log copy, certified-log upload, one hash per S3 artifact, serialisation, creation, clearsign set-up, signing of JSON plus newline, close, certificate upload |
| `ChainOfTrustProperties.PublishedOnSuccess` | chain_of_trust.go:139-208 | on success exactly two artifacts are added: the log copied byte for byte, and clearsign(marshal(cert) + newline) + newline |
| `ChainOfTrustProperties.SignedCertificateFraming` | chain_of_trust.go:179-202 | once the envelope is written, the file is clearsign(marshal(cert) + newline) + newline, and the signer was fed marshal(cert) + newline |
| `ChainOfTrustProperties.StopOkIff` | chain_of_trust.go:204-208 | Stop returns nil exactly when the certificate upload was attempted and succeeded; the certified-log upload then succeeded too |
| `ChainOfTrustProperties.CertifiedLogUploadFailure` | chain_of_trust.go:143-146 | a failed certified-log upload is returned as the error, and no hashing, signing or certificate upload follows |
| `ChainOfTrustProperties.FailureStopsAtFailingStep` | chain_of_trust.go:139-207 | the last step attempted is the failing one and the cause is that step's error: the log copy's, the hash of that artifact's file, serialisation's, os.Create's, clearsign set-up's or the signer copy's; a panic never comes from an upload and never precedes a certificate upload; a returned upload error is the last upload's transport error |
| `ChainOfTrustProperties.FailureNeverPublishesCertificate` | chain_of_trust.go:139-207 | a Stop that does not return nil publishes at most the certified log |
| `ChainOfTrustProperties.PanicCauses` | chain_of_trust.go:139-200 | Stop panics exactly when one of these fails: the log copy, a hash, serialisation, creation, clearsign set-up, or the copy into the signer |
| `ChainOfTrustProperties.MarshalledCertificate` | chain_of_trust.go:162-179 | what Stop serialises is the run's certificate: version 1, the copied task and worker fields, and a hash for exactly the S3 artifacts |
| `ChainOfTrustProperties.EveryRunSignsWithWorkerKey` | chain_of_trust.go:103-108 | every task feature made from one worker feature publishes a certificate signed with that worker's key |
| `ChainOfTrustProperties.CertifiedLogPublishedAlone` | chain_of_trust.go:139-207 | when the certificate upload fails, the certified log stays published without a certificate |

## Left out

- `Initialise` and `readPrivateKey` (chain_of_trust.go:71-97) are left out. They parse an armored OpenPGP key ring with a foreign library. `secureSigningKey` is not part of this model. The model takes the loaded key as an opaque value.
- `Name`, `PersistState` and `RequiredScopes` are left out. They return constants: the display name, nil and an empty scope set.
- `ensureTaskUserCantReadPrivateCotKey` is platform code and is not part of this model. Its result is `Start`'s input. The message constant `ChainOfTrustKeyNotSecureMessage` is used only by that code.
- SHA-256, `json.MarshalIndent` and the clearsign encoder are uninterpreted. The exact JSON layout and the armor format are not modelled.
- Paths are relative to the task directory. The model does not show joining them onto the task directory, and it ignores the path separator. The task log's path is a parameter, because it is defined outside this file.
- `copyFileContents` and `uploadLog` are abstract fallible steps. When they fail, the destination is left as it was. Any partial write they make is not modelled.
- After `os.Create`, a panic leaves the signed-certificate file empty in the model. Its real partial content is not modelled.
- The source ignores the errors of `w.Close()`, `out.Write` and `out.Close()`. The model treats these calls as always succeeding, so it does not capture a truncated envelope being uploaded.
- Streaming the file into the hasher is one write. Whether that copy fails is decided per file; chunking is not modelled.
- `config.PublicIP.String()` and `config.PrivateIP.String()`: the model's config holds the formatted address strings.
- `RunID` is a Go `uint`. The model uses `nat`, because it is only copied and no arithmetic is done on it.
- In the model a panic is an `Outcome` value and does not unwind the process. Deferred `Close` calls are not modelled.
- The task lifecycle state machine and the general upload path, which rejects task artifacts that reuse the reserved names, are outside this file and are not part of this model.
- The artifact list is a sequence fixed when `Stop` starts, walked in the order of `task.Artifacts`. The model does not capture `uploadLog` adding the certified log to `task.Artifacts` (that code is outside this file), so the hashed set is the list as it stood before the first upload. If `uploadLog` appends an S3 artifact, the real certificate has one more entry than the model's.
- `clearsign.Encode` gets a nil config, so the signature holds the current time. `clearsign` stands for one run's envelope; that envelopes of the same bytes differ between runs is not modelled.
- `process/process_linux.go`, `os_groups_test.go` and `helper_darwin_test.go` are Docker plumbing and integration-test helpers. They are not part of this model.
