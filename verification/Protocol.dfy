/** The upload-commit protocol: any number of direct and relay requests over
    one metadata repository, one blob store and one coordination store. Every
    shared operation is one atomic step; steps of different requests interleave
    freely, a request can stop for good at any of them, and every operation can
    fail, before or after it took effect. */
module Protocol {
  import opened Text
  import opened Chunks
  import opened Store
  import opened Coordination

  datatype Reply =
    | Created(chunk: Row)
    | Replayed(chunk: Row)
    | Refused(status: nat, code: string)

  const INTERNAL := Refused(500, "internal_error")
  const DUPLICATE := Refused(409, "duplicate_chunk")
  const CONFLICT := Refused(409, "idempotency_conflict")
  const DELETING := Refused(409, "incident_deleting")
  const CLOSED := Refused(409, "incident_closed")
  const NOT_OPEN := Refused(409, "stream_not_open")
  const OVER_QUOTA := Refused(507, "account_storage_quota_exceeded")

  /** Where a request stands: the name of each point says what is behind it. */
  datatype Pc =
    | Received
    | Admitted                                     // the incident was open
    | Validated                                    // hash, stream and envelope were right
    | Leased                                       // a lease was taken, if leases are used
    | Reserved                                     // the key, if any, is bound to these inputs
    | Unseen                                       // no row had this identity
    | UnderQuota                                   // the usage read then left room
    | Holding(path: string)                        // this request created the blob
    | Inserted(chunk: Row)                         // this request created the row
    | RollingBack(path: string, next: Pc)          // the row was refused; the blob goes next
    | Replaying(missing: Reply, different: Reply)  // looking for a row to replay
    | Matched(chunk: Row)                          // a row equal to this upload was read
    | Opened(chunk: Row)                           // and its blob opened
    | Done(reply: Reply)                           // the response is written
    | Finished(reply: Reply)                       // and the lease given back
    | Crashed

  /** One request. `key` is the hash of its idempotency key, `size` the byte
      size a relay declares in advance, `owner` the incident owner read when
      the request was admitted. */
  datatype Request = Request(relay: bool, key: Option<string>, meta: Meta, body: Bytes, size: int,
                             owner: string, pc: Pc)

  /** The shared state. Requests are never forgotten, so the replies of a run
      are in `reqs`. `doomed` holds the stored paths snapshotted by a deletion
      decision, `removed` those its worker has already removed once. */
  datatype World = World(db: Db, blobs: map<string, Bytes>, leases: Coordination.Keys<nat>, now: int,
                         reqs: map<nat, Request>, doomed: map<string, set<string>>,
                         removed: map<string, set<string>>)

  /** How a write can go wrong: an error with no effect, or an error reported
      although the effect took place. */
  datatype Fault = NoFault | FaultBefore | FaultAfter

  /** CommitTemp: placed, failed cleanly, failed after placing the blob, or
      reported as existing after placing it (a store that retries internally). */
  datatype Commit = Place | Fail | PlaceThenFail | PlaceThenExists

  datatype Label =
    | Spawn(q: nat, relay: bool, key: Option<string>, meta: Meta, body: Bytes, size: int)
    | CheckIncident(q: nat, fault: bool)
    | CheckUpload(q: nat, fault: bool, envelopeOk: bool)
    | TakeLease(q: nat, fault: bool)
    | ReserveKey(q: nat, failing: Fault)
    | CheckDuplicate(q: nat, fault: bool)
    | CheckQuota(q: nat, fault: bool)
    | CommitBlob(q: nat, commit: Commit)
    | InsertRow(q: nat, id: nat, failing: Fault)
    | RemoveBlob(q: nat, effective: bool)
    | FindRow(q: nat, fault: bool)
    | OpenBlob(q: nat, fault: bool)
    | CompleteKey(q: nat, failing: Fault)
    | ReleaseLease(q: nat, fault: bool)
    | Crash(q: nat)
    | Tick(elapsed: nat)
    | NewIncident(incident: string, owner: string)
    | CloseIncident(incident: string)
    | Reassign(incident: string, owner: string)
    | NewStream(incident: string, stream: string, media: string)
    | FinishStream(incident: string, stream: string, n: nat)
    | AbortStream(incident: string, stream: string)
    | RequestDeletion(incident: string)
    | RemoveItem(incident: string, path: string)
    | FinishDeletion(incident: string)
    | PruneTombstone(incident: string)

  // --------------------------------------------------- decisions of a request

  function Say(r: Request, reply: Reply): Request {
    r.(pc := Done(reply))
  }

  /** authorizeIncident, or the incident checks of validateRelayChunkRequest. */
  function AfterIncident(db: Db, r: Request): Request {
    if !Exists(db, r.meta.incident) then Say(r, Refused(404, "incident_not_found"))
    else
      var incident := db.incidents[r.meta.incident];
      if incident.deletion != Active then Say(r, DELETING)
      else if !incident.open then Say(r, CLOSED)
      else r.(pc := Admitted, owner := incident.owner)
  }

  /** validateChunkStream, or the stream checks of validateRelayChunkRequest. */
  function StreamRefusal(db: Db, m: Meta): Option<Reply> {
    if m.stream == "" then None
    else if (m.incident, m.stream) !in db.streams then Some(Refused(404, "stream_not_found"))
    else
      var stream := db.streams[(m.incident, m.stream)];
      if stream.status != StreamOpen then Some(NOT_OPEN)
      else if stream.media != m.media then Some(Refused(400, "stream_media_type_mismatch"))
      else None
  }

  /** The staged bytes against the declared hash and, for a relay, size. */
  function BodyRefusal(cfg: Config, r: Request): Option<Reply> {
    if r.relay && |r.body| != r.size then Some(Refused(400, "byte_size_mismatch"))
    else if cfg.sha(r.body) != r.meta.sha then Some(Refused(400, "hash_mismatch"))
    else None
  }

  /** A direct upload checks the body first, a relay the stream first. */
  function AfterUpload(cfg: Config, db: Db, r: Request, envelopeOk: bool): Request {
    var body, stream := BodyRefusal(cfg, r), StreamRefusal(db, r.meta);
    if !r.relay && body.Some? then Say(r, body.value)
    else if stream.Some? then Say(r, stream.value)
    else if body.Some? then Say(r, body.value)
    else if !envelopeOk then Say(r, Refused(400, "invalid_envelope"))
    else r.(pc := Validated)
  }

  /** What follows ErrAlreadyExists, or an existing row: a replay needs a key. */
  function OnDuplicate(r: Request): Pc {
    if r.key.Some? then Replaying(DUPLICATE, DUPLICATE) else Done(DUPLICATE)
  }

  /** After ReserveUploadOperation. A committed operation is replayed at once. */
  function AfterReserve(op: Operation): Pc {
    if op.chunk.Some? then Replaying(INTERNAL, CONFLICT) else Reserved
  }

  function ReserveRefusal(e: Error): Reply {
    if e == IdempotencyConflict then CONFLICT else if e == IncidentDeleting then DELETING else INTERNAL
  }

  /** What is said once the blob of a refused row has been rolled back. */
  function AfterInsertError(r: Request, e: Error): Pc {
    match e
    case Duplicate => OnDuplicate(r)
    case IncidentClosed => Done(CLOSED)
    case IncidentDeleting => Done(DELETING)
    case InvalidState => Done(NOT_OPEN)
    case QuotaExceeded => Done(OVER_QUOTA)
    case NotFound => Done(Refused(404, if r.meta.stream != "" then "stream_not_found" else "incident_not_found"))
    case IdempotencyConflict => Done(INTERNAL)
  }

  /** GetChunkByIdentity. */
  function Lookup(rows: seq<Row>, identity: Identity): (found: Option<Row>)
    ensures found.Some? ==> found.value in rows && IdentityOf(found.value.meta) == identity
    ensures found.None? ==> !IdentityTaken(rows, identity)
  {
    if rows == [] then None
    else
      var r := rows[|rows| - 1];
      assert rows == rows[..|rows| - 1] + [r];
      if IdentityOf(r.meta) == identity then Some(r) else Lookup(rows[..|rows| - 1], identity)
  }

  /** The first half of replayEquivalentChunkIfPresent. */
  function AfterLookup(db: Db, r: Request, missing: Reply, different: Reply): Pc {
    match Lookup(db.rows, IdentityOf(r.meta))
    case None => Done(missing)
    case Some(row) => if UploadMatches(row.meta, r.meta) then Matched(row) else Done(different)
  }

  /** The chunk CreateChunk returns: the row, with the instants as uploaded. */
  function Returned(row: Row, m: Meta): Row {
    row.(meta := m)
  }

  // ------------------------------------------------------------------- steps

  function Put(w: World, q: nat, r: Request): World {
    w.(reqs := w.reqs[q := r])
  }

  /** ReserveUploadOperation by request `q`. */
  function NextReserve(cfg: Config, w: World, q: nat, r: Request, fault: Fault): World {
    if r.key.None? then Put(w, q, r.(pc := Reserved))
    else if fault == FaultBefore then Put(w, q, Say(r, INTERNAL))
    else
      match Reserve(cfg, w.db, r.key.value, r.meta)
      case Err(e) => Put(w, q, Say(r, ReserveRefusal(e)))
      case Ok((db, op)) =>
        Put(w.(db := db), q, if fault == FaultAfter then Say(r, INTERNAL) else r.(pc := AfterReserve(op)))
  }

  /** CommitTemp by request `q`: create-if-absent at the chunk's own path. */
  function NextCommit(w: World, q: nat, r: Request, commit: Commit): World {
    var path := PathOf(r.meta);
    if path.None? || commit == Fail then Put(w, q, Say(r, INTERNAL))
    else if path.value in w.blobs then
      Put(w, q, if commit == PlaceThenFail then Say(r, INTERNAL) else r.(pc := OnDuplicate(r)))
    else
      var placed := w.(blobs := w.blobs[path.value := r.body]);
      match commit
      case Place => Put(placed, q, r.(pc := Holding(path.value)))
      case PlaceThenExists => Put(placed, q, r.(pc := OnDuplicate(r)))
      case _ => Put(placed, q, Say(r, INTERNAL))
  }

  /** CreateChunk by request `q`, which holds the blob at `path`. */
  function NextInsert(cfg: Config, w: World, q: nat, r: Request, path: string, id: nat, fault: Fault): World {
    if fault == FaultBefore then Put(w, q, r.(pc := RollingBack(path, Done(INTERNAL))))
    else
      match CreateChunk(cfg, w.db, r.meta, path, id)
      case Err(e) => Put(w, q, r.(pc := RollingBack(path, AfterInsertError(r, e))))
      case Ok(db) =>
        var row := Row(id, Stored(cfg.backend, r.meta), path);
        Put(w.(db := db), q,
            r.(pc := if fault == FaultAfter then RollingBack(path, Done(INTERNAL))
                     else Inserted(Returned(row, r.meta))))
  }

  /** CompleteUploadOperation by request `q` for `chunk`, then `reply`. */
  function NextComplete(cfg: Config, w: World, q: nat, r: Request, chunk: nat, reply: Reply, fault: Fault): World {
    if r.key.None? then Put(w, q, Say(r, reply))
    else if fault == FaultBefore then Put(w, q, Say(r, INTERNAL))
    else
      match Complete(cfg, w.db, r.key.value, r.meta, chunk)
      case Err(e) => Put(w, q, Say(r, if e == IdempotencyConflict then CONFLICT else INTERNAL))
      case Ok(db) => Put(w.(db := db), q, Say(r, if fault == FaultAfter then INTERNAL else reply))
  }

  /** acquireUploadCoordinationLease. */
  function AfterLease(cfg: Config, w: World, r: Request, fault: bool): Request {
    if cfg.leaseTtl <= 0 then r.(pc := Leased)
    else if fault then Say(r, Refused(503, "upload_coordination_unavailable"))
    else if Live(w.leases, cfg.leaseKey(r.meta), w.now) then Say(r, Refused(409, "upload_in_progress"))
    else r.(pc := Leased)
  }

  function LeasesTaken(cfg: Config, w: World, q: nat, r: Request, fault: bool): Coordination.Keys<nat> {
    if cfg.leaseTtl <= 0 || fault then w.leases
    else SetNX(w.leases, cfg.leaseKey(r.meta), q, cfg.leaseTtl, w.now)
  }

  /** releaseUploadCoordinationLease: compare-and-delete with this request's token. */
  function LeasesReleased(cfg: Config, w: World, q: nat, r: Request, fault: bool): Coordination.Keys<nat> {
    if cfg.leaseTtl <= 0 || fault then w.leases else DeleteIfValue(w.leases, cfg.leaseKey(r.meta), q, w.now)
  }

  function AfterDuplicateCheck(db: Db, r: Request): Request {
    if IdentityTaken(db.rows, IdentityOf(r.meta)) then r.(pc := OnDuplicate(r)) else r.(pc := Unseen)
  }

  /** checkAccountBlobQuota: against the owner read at admission and the usage read now. */
  function AfterQuotaCheck(cfg: Config, db: Db, r: Request): Request {
    var used := CommittedBytes(db.incidents, db.rows, r.owner);
    if QuotaRefuses(r.owner, used, r.meta.size, cfg.quota) then Say(r, OVER_QUOTA) else r.(pc := UnderQuota)
  }

  /** removeCommittedBlobAfterMetadataFailure: best effort, then on to `next`. */
  function NextRemove(w: World, q: nat, r: Request, path: string, next: Pc, effective: bool): World {
    Put(if effective then w.(blobs := w.blobs - {path}) else w, q, r.(pc := next))
  }

  function AfterOpen(blobs: map<string, Bytes>, r: Request, chunk: Row): Request {
    if chunk.path in blobs then r.(pc := Opened(chunk)) else Say(r, INTERNAL)
  }

  /** A request that stops after writing its response keeps that response. */
  function AfterCrash(r: Request): Request {
    if r.pc.Done? then r.(pc := Finished(r.pc.reply)) else r.(pc := Crashed)
  }

  /** The label is the next step of a request standing at `pc`. */
  predicate Ready(l: Label, pc: Pc) {
    match l
    case CheckIncident(_, _) => pc.Received?
    case CheckUpload(_, _, _) => pc.Admitted?
    case TakeLease(_, _) => pc.Validated?
    case ReserveKey(_, _) => pc.Leased?
    case CheckDuplicate(_, _) => pc.Reserved?
    case CheckQuota(_, _) => pc.Unseen?
    case CommitBlob(_, _) => pc.UnderQuota?
    case InsertRow(_, _, _) => pc.Holding?
    case RemoveBlob(_, _) => pc.RollingBack?
    case FindRow(_, _) => pc.Replaying?
    case OpenBlob(_, _) => pc.Matched?
    case CompleteKey(_, _) => pc.Opened? || pc.Inserted?
    case ReleaseLease(_, _) => pc.Done?
    case Crash(_) => !pc.Finished?
    case _ => false
  }

  predicate ReadsOnly(l: Label) {
    l.CheckIncident? || l.CheckUpload? || l.CheckDuplicate? || l.CheckQuota? || l.FindRow? || l.OpenBlob? || l.Crash?
  }

  /** The request after a step that only reads shared state. */
  function AfterRead(cfg: Config, db: Db, blobs: map<string, Bytes>, r: Request, l: Label): Request
    requires ReadsOnly(l) && Ready(l, r.pc)
  {
    if !l.Crash? && l.fault then Say(r, INTERNAL)
    else
      match l
      case CheckIncident(_, _) => AfterIncident(db, r)
      case CheckUpload(_, _, envelopeOk) => AfterUpload(cfg, db, r, envelopeOk)
      case CheckDuplicate(_, _) => AfterDuplicateCheck(db, r)
      case CheckQuota(_, _) => AfterQuotaCheck(cfg, db, r)
      case FindRow(_, _) => r.(pc := AfterLookup(db, r, r.pc.missing, r.pc.different))
      case OpenBlob(_, _) => AfterOpen(blobs, r, r.pc.chunk)
      case Crash(_) => AfterCrash(r)
  }

  function RequestStep(cfg: Config, w: World, q: nat, r: Request, l: Label): World
    requires Ready(l, r.pc)
  {
    if ReadsOnly(l) then Put(w, q, AfterRead(cfg, w.db, w.blobs, r, l))
    else
      match l
      case TakeLease(_, fault) =>
        Put(w.(leases := LeasesTaken(cfg, w, q, r, fault)), q, AfterLease(cfg, w, r, fault))
      case ReleaseLease(_, fault) =>
        Put(w.(leases := LeasesReleased(cfg, w, q, r, fault)), q, r.(pc := Finished(r.pc.reply)))
      case ReserveKey(_, failing) => NextReserve(cfg, w, q, r, failing)
      case CommitBlob(_, commit) => NextCommit(w, q, r, commit)
      case InsertRow(_, id, failing) => NextInsert(cfg, w, q, r, r.pc.path, id, failing)
      case RemoveBlob(_, effective) => NextRemove(w, q, r, r.pc.path, r.pc.next, effective)
      case CompleteKey(_, failing) =>
        NextComplete(cfg, w, q, r, r.pc.chunk.id,
                     if r.pc.Opened? then Replayed(r.pc.chunk) else Created(r.pc.chunk), failing)
  }

  /** A new request. A relay has a stream and no idempotency key. */
  function NextSpawn(w: World, q: nat, relay: bool, key: Option<string>, m: Meta, body: Bytes, size: int): Option<World>
  {
    if q in w.reqs || m.size != |body| || (relay && (key.Some? || m.stream == "")) then None
    else Some(Put(w, q, Request(relay, key, m, body, size, "", Received)))
  }

  /** Everything else that happens to the tables, the blobs and the clock.
      Identifiers of incidents and streams are random and do not repeat. */
  ghost function EnvironmentStep(w: World, l: Label): Option<World> {
    match l
    case Tick(elapsed) => Some(w.(now := w.now + elapsed))
    case NewIncident(i, owner) =>
      if i in w.db.incidents then None
      else Some(w.(db := w.db.(incidents := w.db.incidents[i := Incident(true, Active, owner)])))
    case CloseIncident(i) =>
      if !IsActive(w.db, i) then None
      else Some(w.(db := w.db.(incidents := w.db.incidents[i := w.db.incidents[i].(open := false)])))
    case Reassign(i, owner) =>
      if !IsActive(w.db, i) || w.db.incidents[i].owner != "" then None
      else Some(w.(db := w.db.(incidents := w.db.incidents[i := w.db.incidents[i].(owner := owner)])))
    case NewStream(i, s, media) =>
      var created := CreateStream(w.db, i, s, media);
      if s == "" || (i, s) in w.db.streams || created.Err? then None else Some(w.(db := created.value))
    case FinishStream(i, s, n) =>
      var finished := CompleteStream(w.db, i, s, n);
      if n == 0 || finished.Err? then None else Some(w.(db := finished.value))
    case AbortStream(i, s) =>
      var failed := FailStream(w.db, i, s);
      if failed.Err? then None else Some(w.(db := failed.value))
    case RequestDeletion(i) =>
      if !IsActive(w.db, i) then None
      else Some(w.(db := w.db.(incidents := w.db.incidents[i := w.db.incidents[i].(deletion := Deleting)]),
                   doomed := w.doomed[i := PathsOf(w.db.rows, i)],
                   removed := w.removed[i := {}]))
    case RemoveItem(i, path) =>
      if i !in w.doomed || i !in w.removed || path !in w.doomed[i] then None
      else Some(w.(blobs := w.blobs - {path}, removed := w.removed[i := w.removed[i] + {path}]))
    case FinishDeletion(i) =>
      if i !in w.db.incidents || w.db.incidents[i].deletion != Deleting
         || i !in w.doomed || i !in w.removed || !(w.doomed[i] <= w.removed[i]) then None
      else Some(w.(db := PruneIncident(w.db, i)))
    case PruneTombstone(i) =>
      if i !in w.db.incidents || w.db.incidents[i].deletion != Deleted then None
      else Some(w.(db := w.db.(incidents := w.db.incidents[i := w.db.incidents[i].(deletion := Forgotten)])))
    case _ => None
  }

  /** deletionStoredPaths. */
  ghost function PathsOf(rows: seq<Row>, incident: string): set<string> {
    set r | r in rows && r.meta.incident == incident :: r.path
  }

  predicate IsRequestLabel(l: Label) {
    !l.Spawn? && !l.Tick? && !l.NewIncident? && !l.CloseIncident? && !l.Reassign? && !l.NewStream?
    && !l.FinishStream? && !l.AbortStream? && !l.RequestDeletion? && !l.RemoveItem? && !l.FinishDeletion?
    && !l.PruneTombstone?
  }

  /** A random chunk id does not repeat one that was ever used. */
  ghost predicate FreshId(db: Db, l: Label) {
    l.InsertRow? ==> forall r :: r in db.ever ==> r.id != l.id
  }

  /** One step of the system; None when the label is not enabled. */
  ghost function Next(cfg: Config, w: World, l: Label): Option<World> {
    if l.Spawn? then NextSpawn(w, l.q, l.relay, l.key, l.meta, l.body, l.size)
    else if IsRequestLabel(l) then
      if l.q !in w.reqs || !Ready(l, w.reqs[l.q].pc) || !FreshId(w.db, l) then None
      else Some(RequestStep(cfg, w, l.q, w.reqs[l.q], l))
    else EnvironmentStep(w, l)
  }

  ghost predicate Init(w: World) {
    && w.db == Db(map[], map[], [], map[], {}, map[])
    && w.blobs == map[] && w.leases == map[] && w.reqs == map[]
    && w.doomed == map[] && w.removed == map[]
  }

  /** A run: any interleaving of enabled steps from an empty server. */
  ghost predicate Run(cfg: Config, ws: seq<World>, ls: seq<Label>) {
    && |ws| == |ls| + 1
    && Init(ws[0])
    && forall i :: 0 <= i < |ls| ==> Next(cfg, ws[i], ls[i]) == Some(ws[i + 1])
  }

  /** CreateChunk reports no error once its transaction has committed. */
  predicate Atomic(l: Label) {
    l.InsertRow? ==> l.failing != FaultAfter
  }

  ghost predicate AtomicRun(cfg: Config, ws: seq<World>, ls: seq<Label>) {
    Run(cfg, ws, ls) && forall i :: 0 <= i < |ls| ==> Atomic(ls[i])
  }
}
