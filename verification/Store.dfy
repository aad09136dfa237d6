/** The metadata repository: its tables and its transactions, each one atomic.
    The tables are those of the SQLite repository; the PostgreSQL one takes row
    locks and differs only in the precision of stored instants. */
module Store {
  import opened Text
  import opened Chunks

  /** Forgotten stands for a row of the incidents table that is gone: the id was
      used and is not given again. */
  datatype DeletionState = Active | Deleting | Deleted | Forgotten

  /** `owner` is empty for a legacy incident without an account. */
  datatype Incident = Incident(open: bool, deletion: DeletionState, owner: string)

  datatype StreamStatus = StreamOpen | StreamComplete(expected: nat) | StreamFailed

  datatype Stream = Stream(media: string, status: StreamStatus)

  /** A row of the chunks table. */
  datatype Row = Row(id: nat, meta: Meta, path: string)

  /** A row of upload_operations; `chunk` is set once metadata is committed. */
  datatype Operation = Operation(meta: Meta, fingerprint: string, chunk: Option<nat>)

  /** What an idempotency key was first reserved for within an incident. */
  datatype Binding = Binding(fingerprint: string, meta: Meta)

  /** The tables, and two histories that no transaction reads: every row ever
      inserted, and what every key was ever bound to. */
  datatype Db = Db(incidents: map<string, Incident>,
                   streams: map<(string, string), Stream>,
                   rows: seq<Row>,
                   ops: map<string, Operation>,
                   ever: set<Row>,
                   bound: map<(string, string), Binding>)

  /** `sha`, `keyHash` and `fingerprint` stand for SHA-256 of a body, of an
      idempotency key and of the fingerprint pre-image, `leaseKey` for the
      hashed lease key; nothing is assumed about any of them. `quota` is AccountBlobQuotaBytes, disabled when
      not positive. `leaseTtl` is the upload lease lifetime; no lease is taken
      when it is not positive. */
  datatype Config = Config(sha: Bytes -> string, keyHash: string -> string, fingerprint: Meta -> string,
                           leaseKey: Meta -> string, backend: Backend, quota: int, leaseTtl: int)

  datatype Error = NotFound | IncidentDeleting | IncidentClosed | InvalidState | Duplicate
                 | QuotaExceeded | IdempotencyConflict

  datatype Result<+T> = Ok(value: T) | Err(error: Error)

  /** The incidents table has a row for it. */
  predicate Exists(db: Db, incident: string) {
    incident in db.incidents && db.incidents[incident].deletion != Forgotten
  }

  predicate IsActive(db: Db, incident: string) {
    incident in db.incidents && db.incidents[incident].deletion == Active
  }

  // ------------------------------------------------------------- chunk rows

  /** validateChunkInsertState: the owner of the incident, or why it refuses. */
  function InsertState(db: Db, m: Meta): Result<string> {
    if !Exists(db, m.incident) then Err(NotFound)
    else
      var incident := db.incidents[m.incident];
      if incident.deletion != Active then Err(IncidentDeleting)
      else if !incident.open then Err(IncidentClosed)
      else if m.stream == "" then Ok(incident.owner)
      else if (m.incident, m.stream) !in db.streams then Err(NotFound)
      else
        var stream := db.streams[(m.incident, m.stream)];
        if stream.status != StreamOpen || stream.media != m.media then Err(InvalidState)
        else Ok(incident.owner)
  }

  /** chunkIdentityExistsTx and ChunkExists. */
  predicate IdentityTaken(rows: seq<Row>, identity: Identity) {
    exists r :: r in rows && IdentityOf(r.meta) == identity
  }

  /** AccountCommittedBlobBytes: the bytes of all rows in incidents of `owner`. */
  function CommittedBytes(incidents: map<string, Incident>, rows: seq<Row>, owner: string): nat {
    if rows == [] then 0
    else
      var r := rows[|rows| - 1];
      CommittedBytes(incidents, rows[..|rows| - 1], owner)
      + (if r.meta.incident in incidents && incidents[r.meta.incident].owner == owner then r.meta.size else 0)
  }

  /** enforceAccountBlobQuotaTx, and checkAccountBlobQuota over a usage read earlier. */
  predicate QuotaRefuses(owner: string, used: int, additional: int, quota: int) {
    && owner != "" && quota > 0 && additional > 0
    && (additional > quota || used > quota - additional)
  }

  /** CreateChunk: one transaction that rechecks the state, the identity and
      the quota before it inserts. `id` is the new random chunk id. */
  function CreateChunk(cfg: Config, db: Db, m: Meta, path: string, id: nat): Result<Db>
  {
    var state := InsertState(db, m);
    if state.Err? then Err(state.error)
    else if IdentityTaken(db.rows, IdentityOf(m)) then Err(Duplicate)
    else if QuotaRefuses(state.value, CommittedBytes(db.incidents, db.rows, state.value), m.size, cfg.quota) then
      Err(QuotaExceeded)
    else
      var row := Row(id, Stored(cfg.backend, m), path);
      Ok(db.(rows := db.rows + [row], ever := db.ever + {row}))
  }

  // ------------------------------------------------------ upload operations

  /** ReserveUploadOperation: binds a key to its first inputs, returns the
      existing operation for the same inputs and refuses any others. */
  function Reserve(cfg: Config, db: Db, key: string, m: Meta): Result<(Db, Operation)>
  {
    if !Exists(db, m.incident) then Err(NotFound)
    else if db.incidents[m.incident].deletion != Active then Err(IncidentDeleting)
    else if key !in db.ops then
      var op := Operation(Stored(cfg.backend, m), cfg.fingerprint(m), None);
      Ok((db.(ops := db.ops[key := op],
              bound := db.bound[(m.incident, key) := Binding(cfg.fingerprint(m), op.meta)]), op))
    else if OperationMatches(cfg.backend, db.ops[key].meta, m) && db.ops[key].fingerprint == cfg.fingerprint(m) then
      Ok((db, db.ops[key]))
    else Err(IdempotencyConflict)
  }

  /** CompleteUploadOperation: updates the operation with this key and fingerprint. */
  function Complete(cfg: Config, db: Db, key: string, m: Meta, chunk: nat): Result<Db> {
    if key !in db.ops then Err(NotFound)
    else if db.ops[key].fingerprint != cfg.fingerprint(m) then Err(IdempotencyConflict)
    else Ok(db.(ops := db.ops[key := db.ops[key].(chunk := Some(chunk))]))
  }

  // ---------------------------------------------------------- media streams

  predicate InStream(r: Row, incident: string, stream: string) {
    stream != "" && r.meta.incident == incident && r.meta.stream == stream
  }

  /** The rows of a stream are exactly the indexes 1..n, all of its media type. */
  predicate Contiguous(rows: seq<Row>, incident: string, stream: string, media: string, n: nat) {
    && (forall r :: r in rows && InStream(r, incident, stream) ==> 1 <= r.meta.index <= n && r.meta.media == media)
    && (forall x :: 1 <= x <= n ==> IdentityTaken(rows, Streamed(incident, stream, x)))
  }

  /** CompleteMediaStream: the rows are validated inside the update's transaction. */
  ghost function CompleteStream(db: Db, incident: string, stream: string, n: nat): Result<Db> {
    if !Exists(db, incident) then Err(NotFound)
    else if db.incidents[incident].deletion != Active then Err(IncidentDeleting)
    else if (incident, stream) !in db.streams then Err(NotFound)
    else
      var s := db.streams[(incident, stream)];
      if s.status != StreamOpen then Err(InvalidState)
      else if !Contiguous(db.rows, incident, stream, s.media, n) then Err(InvalidState)
      else Ok(db.(streams := db.streams[(incident, stream) := s.(status := StreamComplete(n))]))
  }

  function FailStream(db: Db, incident: string, stream: string): Result<Db> {
    if !Exists(db, incident) then Err(NotFound)
    else if db.incidents[incident].deletion != Active then Err(IncidentDeleting)
    else if (incident, stream) !in db.streams then Err(NotFound)
    else
      var s := db.streams[(incident, stream)];
      if s.status != StreamOpen then Err(InvalidState)
      else Ok(db.(streams := db.streams[(incident, stream) := s.(status := StreamFailed)]))
  }

  function CreateStream(db: Db, incident: string, stream: string, media: string): Result<Db> {
    if !Exists(db, incident) then Err(NotFound)
    else if db.incidents[incident].deletion != Active then Err(IncidentDeleting)
    else Ok(db.(streams := db.streams[(incident, stream) := Stream(media, StreamOpen)]))
  }

  // --------------------------------------------------------------- deletion

  function Without(rows: seq<Row>, incident: string): (kept: seq<Row>)
    ensures forall r :: r in kept <==> r in rows && r.meta.incident != incident
  {
    if rows == [] then []
    else
      var r := rows[|rows| - 1];
      assert rows == rows[..|rows| - 1] + [r];
      Without(rows[..|rows| - 1], incident) + (if r.meta.incident != incident then [r] else [])
  }

  /** CompleteIncidentDeletion: prunes the rows, operations and streams of the
      incident and leaves a closed tombstone. */
  function PruneIncident(db: Db, incident: string): Db
    requires incident in db.incidents
  {
    db.(incidents := db.incidents[incident := db.incidents[incident].(open := false, deletion := Deleted)],
        streams := map k | k in db.streams && k.0 != incident :: db.streams[k],
        rows := Without(db.rows, incident),
        ops := map k | k in db.ops && db.ops[k].meta.incident != incident :: db.ops[k])
  }
}
