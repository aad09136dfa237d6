# Proofline evidence server: verified model

This project models the parts of the Proofline evidence server that decide
whether recorded evidence is stored once, stored whole and found again, and
proves what they promise. It is written in Dafny 4.11; to verify it, use
`dafny verify dfyconfig.toml`. It contains no part of the server's own code.

## What is modelled

**Upload commit** (`Store`, `Protocol`, `Invariant`, `Safety`, `Replay`,
`Acceptance`, `Matching`, `Orphans`, `Ambiguity`, `Lifecycle`, `Quota`). Direct uploads and relay
commits are requests that run the steps of `uploadChunk` and `relayCommit` one
shared operation at a time: incident check, upload check, lease, key
reservation, duplicate check, quota check, blob commit, row insert, rollback,
replay, key completion. Any number of requests interleave with each other, with
stream and incident changes and with incident deletion; a request can stop for
good at any step; every operation can fail, and writes can fail after they took
effect. A run is any sequence of enabled steps from an empty server, and the
theorems are about every state of every run. The repository's transactions are
written out from the SQLite repository, with the precision of stored instants
as the one difference of the PostgreSQL backend.

**Leases** (`Coordination`). The compare-and-delete protocol over a store whose
keys expire. No theorem about uploads uses a lease.

**Keys and encodings** (`Text`, `Keys`, `Chunks`, `Fingerprint`, `Envelope`).
Stored paths, idempotency and limiter keys, the comparison of instants in
64-bit durations, the length-prefixed fingerprint text with a decoder, and the
v1 chunk envelope. SHA-256 is a function about which nothing is assumed;
AES-256-GCM, JSON and base64url are function pairs assumed inverse, where a
theorem says so.

**Desktop recorder** (`Desktop`, `Resume`, `Staging`, `EndToEnd`). The
crash/resume client composed with the whole upload protocol: staging, attempts,
lost responses, process stops between any two durable writes, resume from the
manifest, completion; and on to the bundle a client verifies.

**Relay objects** (`Fanout`, `FanoutRuns`, `InFlight`, `Multipart`,
`MultipartRuns`). The fan-out
hub as objects and as a state machine in which receives interleave with the
channel operations of a broadcast or termination; the in-flight limiter; the
two multipart loops that own staged files and slots, each as a method, and the
relay's also as a state machine of any number of uploads at once.

**Rate limiters** (`RateLimiter`), **completion and bundles** (`Bundle`,
`Archive`) and the **migration runner** (`Migrations`).

## Assumptions

- `CreateChunk` reports no error once its transaction committed. `Atomic` runs
  state this; `Ambiguity` proves that it is exactly what the row/blob law needs
  and gives a run without it that loses a blob.
- Removing a blob takes effect at most once, when it is called. Random ids,
  lease tokens and temp file names do not repeat.
- Requests reach the protocol with their body staged and `size` counted from it.
- A stored time is a whole microsecond under PostgreSQL and exact under SQLite.
- In the recorder's theorems nobody else uploads to the recorder's own stream.
- Rate limiter runs have clock readings that do not decrease;
  `RateLimiter.PruningNeedsForwardClock` shows that the assumption is used.
- Identifiers of incidents, streams and relay sessions are made by the server
  from letters, digits, '_' and '-' (`Keys.ServerId`). Only the theorems that
  name it use this.

## What turned out not to hold

- `metadataTimesEqual` accepts instants centuries apart when the stored one is
  2^63 ns or more before the input, because the saturated difference negates to
  itself. `Chunks.TimesEqualCorrectIff` gives the exact condition, and
  `Matching.WrongReplayIsReachable` a run in which a chunk of 2000 is answered
  with one of 1700.
- A row can lose its blob after a commit that took effect and was reported as
  failed (`Ambiguity.InsertBackedIff`, `Ambiguity.LostBlobIsReachable`).
- A request that stops between blob commit and row insert blocks its chunk for
  good: no upload to that path ever succeeds, and not even the deletion of the
  incident removes the blob (`Orphans.CrashedUploadBlocksItsChunk`, with the run
  `Orphans.OrphanIsReachable`). An otherwise admissible upload is created if
  there is no blob at its path (`Acceptance.AdmissibleUploadIsCreated`) and
  refused as a duplicate if there is one (`Orphans.OrphanRefusesUpload`).
- Giving a legacy incident an owner checks no quota: `Quota.ReassignWithinIff`
  gives the exact condition, `Quota.OverQuotaIsReachable` a run for every quota.
- A chunk file that a recorder wrote before it stopped need not be in the stream
  a later run completes: it is left out exactly when a process stopped between
  a file and its manifest entry (`Staging.CompletedHoldsAllFilesIff`, with the
  execution `Staging.LostFileIsReachable`).

## Conditions the server's identifiers meet

- A fan-out key is some other subscription's key too exactly when a part holds a
  NUL byte (`Keys.FanoutKeySharedIff`); server-made identifiers never do.
- An identifier is its own directory name in an incident bundle exactly when it
  is plain (`Archive.SegmentStaysIff`); any other one shares the directory of a
  plain one, or has an empty name. Server-made identifiers are plain.

## Model

| member | source | states |
|---|---|---|
| Safety.RowsAreBacked | internal/httpapi/chunk_handlers.go:140-233 | in every run, the row of a live incident names a present blob of its size and hash, at the path of its coordinates |
| Safety.RemovalsAreSafe | internal/httpapi/chunk_handlers.go:595-601 | whatever blob a rollback or a deletion takes away was no live row's before the step and is none after it |
| Safety.BlobsLeaveBy | internal/retention/deletion_worker.go:189-236 | blobs leave only by a request's rollback of its own path or by a deletion snapshot |
| Safety.DoomedIsSafe | internal/incidents/deletion.go:664-689 | a path snapshotted for deletion is no path of a live incident's row |
| Safety.OneRowPerIdentity | internal/incidents/chunks.go:100-176 | over a whole run a chunk identity, and a chunk id, gets at most one row |
| Safety.RepliesAreTrue | internal/httpapi/chunk_handlers.go:235-244 | a 201 is only for a row this upload created, a replayed 200 only for one that matches it, and both with the upload's bytes |
| Safety.ReplaysAreExact | internal/httpapi/idempotency.go:90-108 | a replayed row is the same upload to the microsecond exactly when it is not centuries older |
| Safety.KeySuccessesAgree | internal/httpapi/chunk_handlers.go:110-138 | all successes under one key of an incident return one chunk and carry one fingerprint |
| Safety.RequestStepKeeps | internal/httpapi/relay_core.go:156-270 | every step of a direct or relay request keeps the invariant |
| Safety.StepKeeps | internal/httpapi/chunk_handlers.go:73-245 | every step of the system keeps the invariant |
| Safety.RunInv | internal/httpapi/chunk_handlers.go:73-245 | the invariant holds in every state of every run |
| Safety.RunGrows | internal/incidents/upload_operations.go:18-98 | over a run rows ever inserted and key bindings only grow, and incidents only move towards deletion and the pruning of their tombstone |
| Invariant.ReserveSound | internal/incidents/upload_operations.go:18-98 | a reservation binds the key to these inputs or finds it bound to them, and changes nothing else |
| Invariant.CommitKeeps | internal/storage/committed_blobs.go:15-43 | create-if-absent, with any outcome, keeps the invariant: a blob has at most one owner |
| Invariant.InsertKeeps | internal/incidents/chunks.go:100-176 | the insert, refused or not, keeps rows backed, unique and within their streams |
| Invariant.RollbackIsSafe | internal/httpapi/chunk_handlers.go:595-601 | a request that rolls back owns its blob and no live row refers to it |
| Invariant.RemoveKeeps | internal/httpapi/chunk_handlers.go:595-601 | the rollback, effective or not, keeps the invariant |
| Invariant.LeaseKeeps | internal/httpapi/upload_coordination.go:20-42 | taking, missing or failing to take a lease keeps the invariant |
| Invariant.LeasesDoNotMatter | internal/httpapi/upload_coordination.go:20-63 | the invariant is independent of all leases and of the clock |
| Invariant.CompleteKeeps | internal/incidents/upload_operations.go:102-137 | completing a key keeps what it is bound to |
| Invariant.RequestDeletionKeeps | internal/incidents/deletion.go:19-172 | a deletion request, with its snapshot of paths, keeps the invariant |
| Invariant.PruneKeeps | internal/incidents/deletion.go:527-618 | finishing a deletion keeps the invariant |
| Protocol.Lookup | internal/incidents/chunks.go:52-74 | finds a row with the identity, or there is none |
| Replay.RetryIsReplayed | internal/httpapi/chunk_handlers.go:126-153 | once a row exists, a faithful retry while the stream is open is never answered with anything but a replay of it, and is answered within eight own steps, whatever other requests do |
| Replay.AnsweredUploadCanBeRetried | internal/httpapi/idempotency.go:49-108 | whatever was answered 201 under a key can be retried that way, on either backend |
| Replay.RetryCanMove | internal/httpapi/chunk_handlers.go:563-593 | a retry on its way always has an enabled next step |
| Replay.FindsRow | internal/incidents/chunks.go:52-74 | the row a retry matches is the one the identity look-up returns |
| Replay.KeyStays | internal/incidents/upload_operations.go:18-137 | while the incident lives a bound key reserves and completes again for the same inputs |
| Acceptance.AdmissibleUploadIsCreated | internal/httpapi/chunk_handlers.go:73-245 | an admissible upload's nine steps are enabled in turn and end in a 201 for a new row whose blob is the uploaded bytes |
| Acceptance.ReserveFree | internal/incidents/upload_operations.go:18-98 | a key that is new, or reserved for these inputs, is reserved without disturbing anything else |
| Matching.MatchingUploadIsReplayed | internal/httpapi/chunk_handlers.go:110-154 | in every reachable state an upload under a new key that matches a stored row is answered with it after eight own steps |
| Matching.WrongReplayIsReachable | internal/httpapi/idempotency.go:102-108 | a run in which an upload is answered with a row recorded three centuries earlier |
| Orphans.CrashOrphans | internal/httpapi/chunk_handlers.go:160-188 | a request that stops while it holds its blob leaves a blob that no row names and no request holds |
| Orphans.OrphanStays | internal/httpapi/chunk_handlers.go:160-188 | such a blob stays so in every continuation, incident deletion included |
| Orphans.CrashedUploadBlocksItsChunk | internal/httpapi/chunk_handlers.go:160-188 | after such a stop no upload to that path is ever answered with success, no row names the blob and nothing removes it |
| Orphans.OrphanRefusesUpload | internal/httpapi/chunk_handlers.go:160-170 | an otherwise admissible upload to that path is refused as a duplicate, with or without a key |
| Orphans.OrphanIsReachable | internal/httpapi/chunk_handlers.go:160-188 | a run of commit, crash and refused retry |
| Ambiguity.InsertBackedIff | internal/httpapi/chunk_handlers.go:176-233 | an insert leaves all rows backed exactly when a committed transaction is not reported as failed |
| Ambiguity.LostBlobIsReachable | internal/httpapi/chunk_handlers.go:176-233 | a run in which such a report loses a live row's blob |
| Ambiguity.HolderIsNeverDuplicate | internal/httpapi/chunk_handlers.go:189-199 | a request that holds the blob can never be refused as a duplicate |
| Lifecycle.StreamsMove | internal/incidents/streams.go:157-291 | over a run a stream of a live incident keeps its media type and leaves only the open state |
| Lifecycle.CompleteStreamsAreFrozen | internal/incidents/streams.go:157-212 | a completed stream stays complete with the same count and not one of its rows is added, changed or lost |
| Lifecycle.CompletedIsPositive | internal/httpapi/streams.go:69-121 | a completed stream has a positive count |
| Quota.Exceeds | internal/httpapi/chunk_handlers.go:247-265 | the subtraction form stays within 64 bits and means used + additional > quota |
| Quota.ExceedsIsQuotaRefuses | internal/incidents/chunks.go:256-278 | the handler's and the repository's comparison agree |
| Quota.QuotaHolds | internal/httpapi/relay_core.go:196-247 | while owners do not change, no account's committed bytes exceed the quota in any run, although the early read is stale |
| Quota.OverQuotaIsReachable | internal/incidents/legacy_reassignment.go:75-130 | for every quota and owner, a run that ends with that account over it |
| Quota.ReassignWithinIff | internal/incidents/legacy_reassignment.go:75-130 | reassigning keeps the quota exactly when the incident's bytes still fit |
| Coordination.HoldersExclude | internal/coordination/coordinator.go:115-134 | at every moment a key has at most one unexpired holder |
| Coordination.LateReleaseIsHarmless | internal/coordination/coordinator.go:137-148 | a late release leaves every other holder's entry in place |
| Coordination.RunConsistent | internal/coordination/valkey.go:54-84 | the store has the entry of every unexpired grant, over every run |
| Coordination.Valkey.constructor | internal/coordination/coordinator.go:79-84 | starts with an empty, consistent store |
| Coordination.Valkey.AcquireUploadLease | internal/coordination/coordinator.go:115-134 | the object takes the acquire step of the protocol, and grants without a key when leases are off |
| Coordination.Valkey.ReleaseUploadLease | internal/coordination/coordinator.go:137-148 | the object takes the release step, or none for a lease without key or token |
| Keys.StoredBlobPathInjective | internal/storage/paths.go:9-22 | distinct coordinates have distinct stored paths |
| Keys.RelayChunkKeyInjective | cmd/stream-ingress/upload.go:581-583 | distinct session and index give distinct in-flight keys |
| Keys.FanoutKeyInjective | cmd/stream-ingress/fanout.go:199-201 | two keys are equal only for equal triples when the first two parts of both hold no NUL, whatever the third |
| Keys.FanoutKeySharedIff | cmd/stream-ingress/fanout.go:199-201 | a triple shares its key with another exactly when a part holds a NUL |
| Keys.FanoutKeyCollides | cmd/stream-ingress/fanout.go:199-201 | such a pair |
| Keys.NewIdIsServerId | internal/incidents/ids.go:15-21 | ids made from a lower-case prefix and hexadecimal digits are server identifiers |
| Keys.ServerIdsHaveOwnKeys | internal/relaycap/capability.go:55-61 | subscriptions of server-made identifiers share their key with no other triple |
| Keys.DesktopIdempotencyKeyInjective | cmd/simclient/desktop_stage.go:313-324 | each chunk of a recording has its own key |
| Chunks.PathDeterminesCoordinates | internal/storage/paths.go:9-42 | a stored path determines coordinates and identity |
| Chunks.TimesEqualExactly | internal/httpapi/idempotency.go:102-108 | when the 64-bit comparison accepts: within a microsecond, or 2^63 ns or more older |
| Chunks.TimesEqualCorrectIff | internal/httpapi/idempotency.go:102-108 | the comparison is right exactly when the stored instant is less than 2^63 ns before the input |
| Chunks.TimesEqualAcceptsCenturies | internal/postgresdb/upload_operations.go:177-183 | 1700 and 2000 compare equal, in that order only |
| Chunks.RetryMatches | internal/postgresdb/upload_operations.go:162-183 | truncation by the backend never makes a faithful retry differ |
| Chunks.UploadMatchesExactly | internal/httpapi/idempotency.go:90-100 | what a match guarantees, as an if-and-only-if |
| Chunks.MismatchedFields | internal/httpapi/chunk_handlers.go:392-413 | names exactly the differing fields, and none exactly when a retry would match |
| Fingerprint.Builder.constructor | internal/httpapi/idempotency.go:66-67 | an empty builder of no fields |
| Fingerprint.Builder.AppendField | internal/httpapi/idempotency.go:81-88 | appends one field's encoding to the encoding of the fields so far |
| Fingerprint.DecodeUndoesEncode | internal/httpapi/idempotency.go:66-88 | a decoder undoes the encoding for all values, with '=', ':' or newlines |
| Fingerprint.DecodeSound | internal/httpapi/idempotency.go:81-88 | whatever decodes is the encoding of what was read |
| Fingerprint.FingerprintPreimage | internal/httpapi/idempotency.go:66-79 | the appends build the encoding of the nine fields |
| Fingerprint.LeasePreimage | internal/httpapi/upload_coordination.go:55-63 | the appends build the encoding of the four coordinates |
| Fingerprint.FingerprintInjective | internal/httpapi/idempotency.go:66-79 | equal pre-images mean equal uploads |
| Fingerprint.LeaseKeyInjective | internal/httpapi/upload_coordination.go:55-63 | equal lease pre-images mean equal coordinates |
| Envelope.AssociatedDataInjective | internal/envelope/associated_data.go:9-36 | two accepted contexts never share associated data |
| Envelope.Read32Injective | internal/envelope/headers.go:26-26 | four bytes and the length they denote determine each other |
| Envelope.ParserInvertsFrame | internal/envelope/headers.go:19-51 | the parser accepts exactly magic, length, valid header, ciphertext, and returns the parts that concatenate back |
| Envelope.EncryptChunk | internal/envelope/chunks.go:15-57 | when encryption is refused, and the frame it builds by appends |
| Envelope.DecryptUndoesEncrypt | internal/envelope/chunks.go:15-91 | decrypting under the same key and context returns the plaintext |
| Envelope.OneContextPerEnvelope | internal/envelope/chunks.go:60-91 | any bytes decrypt under at most one context and key id, whatever the cipher does |
| Desktop.ValidateManifest | cmd/simclient/desktop_stage.go:118-153 | the checks and the two passes accept exactly manifests with the right version, identity and media type whose valid entries have distinct indexes that cover 1..n |
| Desktop.ValidIndexesAreContiguous | cmd/simclient/desktop_stage.go:118-153 | so the indexes of an accepted manifest are within 1..n |
| Desktop.ServerStepKeeps | internal/httpapi/chunk_handlers.go:73-245 | server steps keep every request to, and row of, the stream one that the manifest describes |
| Desktop.StepKeepsSystem | cmd/simclient/desktop_recorder.go:201-243 | every step of recorder or server keeps the composed invariant |
| Desktop.ExecutionOk | cmd/simclient/desktop_recorder.go:12-94 | the composed invariant holds in every state of every execution |
| Desktop.StagedManifestsLoad | cmd/simclient/desktop_stage.go:76-181 | wherever the recorder stopped, its manifest loads again |
| Desktop.CompletionSucceeds | cmd/simclient/desktop_recorder.go:57-72 | when all staged chunks count as uploaded, the stream holds exactly rows 1..n with the staged hash, size and name and blobs to match, and completion with n is accepted exactly when the stream is open |
| Resume.ServerRun | cmd/simclient/desktop_recorder.go:201-243 | an execution of recorder and server projects to a run of the server |
| Resume.RecorderRetries | cmd/simclient/desktop_stage.go:183-207 | whatever the recorder sends for a chunk that has a row is a faithful retry of it |
| Resume.ResentChunkIsReplayed | cmd/simclient/desktop_recorder.go:216-243 | a chunk sent again after its row was stored is only ever answered with a replay, within eight steps |
| Staging.EntriesAreSaves | cmd/simclient/desktop_stage.go:155-181 | over every execution the manifest on disk has one entry for each chunk ever saved |
| Staging.CompletedHoldsAllFilesIff | cmd/simclient/desktop_recorder.go:96-152 | a completed stream has as many chunks as entries were saved, and holds every file ever written exactly when no process stopped between a file and its entry |
| Staging.LostFileIsReachable | cmd/simclient/desktop_stage.go:155-181 | an execution that writes two files, stops, resumes and completes with one chunk |
| EndToEnd.CompletedRecordingStays | cmd/simclient/desktop_recorder.go:57-72 | once completed, a recording's stream stays complete with exactly the rows it had |
| EndToEnd.RecordingVerifies | cmd/simclient/bundle_verify.go:25-69 | at any later moment the bundle of a completed recording can be written and verifies, and lists the staged chunks one for one |
| EndToEnd.RecordingDecrypts | internal/envelope/chunks.go:60-91 | if each file seals its plaintext for its own chunk and SHA-256 does not collide on them, the bundle verifies for the key's holder and decrypts to the recorded plaintexts |
| Fanout.RegistrationsChange | cmd/stream-ingress/fanout.go:203-226 | registering and unregistering change one registration and leave no empty key |
| Fanout.EventChannel.SendTerminal | cmd/stream-ingress/fanout.go:256-270 | undisturbed, the terminal event is last and at most the oldest event made room |
| Fanout.RelayFanoutHub.constructor | cmd/stream-ingress/fanout.go:55-59 | an empty valid hub |
| Fanout.RelayFanoutHub.Register | cmd/stream-ingress/fanout.go:203-217 | a fresh id and a channel of its own are added under the key |
| Fanout.RelayFanoutHub.Unregister | cmd/stream-ingress/fanout.go:219-226 | removes that registration, and the key with the last one |
| Fanout.RelayFanoutHub.HasSubscribers | cmd/stream-ingress/fanout.go:228-232 | true exactly when someone is registered under the key |
| Fanout.RelayFanoutHub.Broadcast | cmd/stream-ingress/fanout.go:234-243 | every subscriber of the key gets the event unless its buffer is full, and no other channel changes |
| Fanout.RelayFanoutHub.Terminate | cmd/stream-ingress/fanout.go:245-254 | every subscriber of the key ends with the event and is closed, and the key is forgotten |
| FanoutRuns.StepKeeps | cmd/stream-ingress/fanout.go:203-270 | every step, receives included, keeps the hub's invariant |
| FanoutRuns.NeverPanics | cmd/stream-ingress/fanout.go:234-254 | no interleaving sends on a closed channel or closes one twice |
| FanoutRuns.SubscriptionsAreSound | cmd/stream-ingress/fanout.go:203-232 | keys are present exactly while used, and ids are never reused |
| FanoutRuns.DeliveredInOrder | cmd/stream-ingress/fanout.go:234-243 | received and buffered events are an in-order subsequence of those published under the key since registering |
| FanoutRuns.TerminalArrivesLast | cmd/stream-ingress/fanout.go:245-270 | a closed channel ends with its one terminal event, and at most one accepted event was lost to make room |
| FanoutRuns.NobodyIsForgotten | cmd/stream-ingress/fanout.go:219-254 | at rest, who has not left is registered or closed |
| FanoutRuns.TerminatedIsClosed | cmd/stream-ingress/fanout.go:245-270 | every channel registered under a key when it was terminated is closed once the hub is at rest, whatever its subscriber did; the last event received or buffered is the one of that termination, and at most one accepted event was lost |
| FanoutRuns.LateUnregisterIsHarmless | cmd/stream-ingress/fanout.go:219-226 | over every run, the release of a subscriber whose key was terminated changes nothing, whoever registered under the key since |
| FanoutRuns.UnregisterTakesOnlyItsOwn | cmd/stream-ingress/fanout.go:203-226 | no release changes the registration of another subscriber |
| InFlight.GrantCounts | cmd/stream-ingress/upload.go:622-640 | incrementing keeps the counters equal to the slots out |
| InFlight.ReleaseCounts | cmd/stream-ingress/upload.go:642-656 | decrement-or-delete keeps them equal, with no zero left |
| InFlight.RelayInFlightLimiter.constructor | cmd/stream-ingress/upload.go:612-620 | an empty limiter with these limits |
| InFlight.RelayInFlightLimiter.Acquire | cmd/stream-ingress/upload.go:622-640 | grants exactly when the chunk is free and both limits leave room, refuses for the first reason, and a refusal changes nothing |
| InFlight.RelayInFlightLimiter.Release | cmd/stream-ingress/upload.go:642-656 | takes exactly this slot back |
| InFlight.RelayInFlightLimiter.AllReleased | cmd/stream-ingress/upload.go:642-656 | when all slots are back all three collections are empty |
| Multipart.TakeFile | cmd/stream-ingress/upload.go:146-169 | a file is staged exactly when metadata parses, a slot is free, preflight agrees and staging works; the slot taken is reported |
| Multipart.ReadParts | cmd/stream-ingress/upload.go:128-190 | for every part sequence the loop ends with one staged file exactly for well-shaped requests, and otherwise with none |
| Multipart.UploadCompleteChunk | cmd/stream-ingress/upload.go:110-209 | always ends with no staged file and its slot returned, and commits exactly with one file, all metadata before it, and matching size and hash |
| MultipartRuns.StepKeeps | cmd/stream-ingress/upload.go:110-209 | every step of any of the uploads keeps slots, files, limits and results in order |
| MultipartRuns.NothingLeaks | cmd/stream-ingress/upload.go:110-209 | in every interleaving the slots out and the files staged are exactly those of uploads under way |
| MultipartRuns.AllEnded | cmd/stream-ingress/upload.go:110-209 | when all uploads have ended, in whatever way, no slot and no file is left |
| MultipartRuns.StepsTouchOnlyTheirOwn | cmd/stream-ingress/upload.go:110-209 | no step of one upload changes the slot or the file of another |
| MultipartRuns.LimitsHold | cmd/stream-ingress/upload.go:622-640 | neither limit is ever exceeded |
| MultipartRuns.CommitsAreSound | cmd/stream-ingress/upload.go:128-209 | whatever is committed came from one file after all its metadata, with declared size and hash |
| Multipart.ReadChunkUpload | internal/httpapi/upload.go:31-138 | for every part sequence a failure leaves no staged file and success exactly one, and which sequences succeed |
| RateLimiter.MemoryRateLimiter.constructor | internal/httpapi/public_rate_limit.go:38-43 | no entries |
| RateLimiter.MemoryRateLimiter.PruneExpired | internal/httpapi/public_rate_limit.go:76-82 | exactly the live entries remain |
| RateLimiter.MemoryRateLimiter.Allow | internal/httpapi/public_rate_limit.go:51-74 | the object decides and counts as the pruning limiter of the theorems |
| RateLimiter.PruningRefinesKeeping | internal/httpapi/public_rate_limit.go:51-82 | over any calls on any keys, pruning changes no decision of a limiter that never deletes |
| RateLimiter.PruningNeedsForwardClock | internal/httpapi/public_rate_limit.go:51-82 | three calls that show it does when the clock goes back |
| RateLimiter.BackendsAgree | internal/coordination/coordinator.go:99-111 | the shared limiter decides alike when windows are whole milliseconds |
| RateLimiter.WindowBound | internal/httpapi/public_rate_limit.go:51-74 | a window admits at most `limit` calls of its key |
| RateLimiter.SlidingBound | internal/httpapi/public_rate_limit.go:51-74 | every half-open interval of one window's length admits at most 2·limit − 1 |
| RateLimiter.SlidingBoundIsTight | internal/httpapi/public_rate_limit.go:51-74 | and that many are admitted, for every limit and window longer than a tick |
| Bundle.ValidateCompleteRows | internal/incidents/streams.go:214-247 | the cursor accepts exactly listings that are 1..n of one media type |
| Bundle.CompletionCheckIsContiguity | internal/incidents/streams.go:214-247 | for a sorted listing that is exactly: the stream's rows are the indexes 1..n |
| Bundle.MakeManifest | internal/evidencebundle/bundle.go:98-126 | one entry per row in order, the count and the total of sizes |
| Bundle.BuildBundle | internal/httpapi/bundles.go:134-158 | the builder accepts exactly complete, non-empty, contiguous listings whose blobs have their size and hash |
| Bundle.CompletedStreamsBundle | internal/httpapi/bundles.go:134-158 | in every reachable state every completed stream of a live incident passes all of that |
| Archive.DownloadFilename | internal/httpapi/bundle_zip.go:95-109 | a usable name of safe characters, and the value itself when it already is one |
| Archive.SafeDownloadFilename | internal/httpapi/bundle_zip.go:95-109 | the loop computes that name |
| Archive.SegmentStaysIff | internal/httpapi/bundle_zip.go:111-113 | an identifier is its own segment exactly when it is plain |
| Archive.OthersShareASegment | internal/httpapi/bundle_zip.go:111-113 | any other one whose segment is not empty shares it with the plain identifier of that name |
| Archive.UnsafeSegmentsCollide | internal/httpapi/bundle_zip.go:111-113 | such a pair |
| Archive.ServerIdsArePlain | internal/incidents/ids.go:15-21 | server-made identifiers are plain |
| Archive.WriteBundle | internal/httpapi/bundle_zip.go:32-43 | the manifest first, then each chunk's bytes under its name; stops exactly if a blob is missing |
| Archive.EntryNamesDistinct | internal/httpapi/bundle_zip.go:32-43 | no two entries of a stream bundle share a name |
| Archive.EntriesCollideIff | internal/httpapi/bundles.go:168-190 | for all stream ids, two entries of an incident bundle share a name exactly when the segments and the names within them are equal |
| Archive.StreamDirectoriesDistinct | internal/httpapi/bundles.go:168-190 | for plain identifiers: exactly when stream and name are equal |
| Archive.ReadEntries | cmd/simclient/bundle_verify.go:71-85 | the map holds for each name the last entry's content |
| Archive.VerifyBundle | cmd/simclient/bundle_verify.go:25-69 | accepts exactly bundles whose manifest fits and whose every chunk checks out and counts right, and returns their number |
| Archive.ServerBundleVerifies | cmd/simclient/bundle_verify.go:25-123 | what the server writes from a verified listing the client verifies, chunk for chunk |
| Archive.CompletedStreamVerifies | internal/httpapi/bundles.go:134-166 | in every reachable state a completed stream's bundle can be written, verifies, and counts `expected` |
| Migrations.Database.constructor | internal/db/migrate.go:37-40 | a schema with no records |
| Migrations.Database.Apply | internal/db/migrate.go:109-143 | skips a recorded step, refuses a changed one, else applies and records together or not at all |
| Migrations.Database.Migrate | internal/db/migrate.go:37-52 | runs the steps in order and stops at the first failure |
| Migrations.RerunEqualsUninterrupted | internal/db/migrate.go:37-52 | a rerun from wherever a run stopped ends where one uninterrupted run ends |
| Migrations.MismatchStops | internal/db/migrate.go:109-120 | a changed recorded step stops the run: nothing from it on is applied or recorded |
| Migrations.RunAppliesUnrecorded | internal/db/migrate.go:109-143 | a run skips what is recorded and applies the rest in list order |
| Migrations.UpgradeAppends | internal/db/migrate.go:54-83 | after an upgrade that puts new steps before old ones, a run ends like one run of the old steps done so far followed by the unrecorded ones |
| Migrations.AlwaysAPrefix | internal/db/migrate.go:37-143 | with any number of crashing, interleaved runners the records are a prefix of the list, the schema those steps once each in order, and a finished runner leaves the uninterrupted result |

## Left out

- HTTP routing, JSON field parsing, response bodies and logging: decisions enter as parse functions or as the codes of replies.
- SQL text and engines, S3 and file system calls: their contracts are written out as transactions and steps; retried S3 deletes are not modelled.
- Accounts, sessions, second factors, grants, relay capabilities and the post-quantum envelope: no part of this model; the envelope check of an upload is a free outcome.
- The strength of hashes and ciphers: only inverses are assumed, and collisions of the idempotency key, fingerprint or lease hash are allowed.
- `reconcileChunk` beyond the field comparison, chunk listing and byte download: they only read.
- Error codes of the multipart loops, and the text of refusals outside the upload protocol.
- Multipart.UploadCompleteChunk: other uploads at the same time are the subject of `MultipartRuns`; the fan-out events before and after the commit are not modelled.
- Multipart.ReadChunkUpload: modelled one request at a time.
- Bundle.MakeManifest: label, status, encryption hint and timestamps of the manifest are copied or constant and not modelled.
- Invariant.ReserveSound: the source re-reads an existing operation after ending its transaction, so a reservation may be answered although deletion began in between; the model makes it one step, and the theorems are about that.
- Desktop.ValidateManifest: white space outside ASCII is not trimmed; time stamps and the source kind are not validated by the source either.
- Incident-level manifest totals and check-in summaries, `retryAfterSeconds`, route classes: easy arithmetic and selection.
- Trimming of non-ASCII white space in staged file names, and names of media types, which are taken as given strings.
- Bounded retries and delays of the recorder: attempts may be repeated without limit.
- uint64 wrap-around of hub ids and int overflow of limiter counts.
- Clock instants before year 1 in the rate limiter.
