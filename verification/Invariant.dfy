/** What every step of the upload protocol keeps. */
module Invariant {
  import opened Text
  import opened Chunks
  import opened Store
  import opened Protocol

  // ---------------------------------------------------------- the invariant

  /** Rows are history restricted to incidents that are not yet pruned; every
      identity and every id was inserted at most once. */
  ghost predicate HistorySound(db: Db) {
    && (forall r :: r in db.rows ==> r in db.ever)
    && (forall r :: r in db.ever && IsActive(db, r.meta.incident) ==> r in db.rows)
    && (forall r :: r in db.ever ==> r.meta.incident in db.incidents && PathOf(r.meta) == Some(r.path))
    && (forall r, t :: r in db.ever && t in db.ever && IdentityOf(r.meta) == IdentityOf(t.meta) ==> r == t)
    && (forall r, t :: r in db.ever && t in db.ever && r.id == t.id ==> r == t)
  }

  /** The bytes at a row's path are the bytes the row describes. */
  predicate Describes(cfg: Config, r: Row, blobs: map<string, Bytes>) {
    r.path in blobs && |blobs[r.path]| == r.meta.size && cfg.sha(blobs[r.path]) == r.meta.sha
  }

  ghost predicate Backed(cfg: Config, db: Db, blobs: map<string, Bytes>) {
    forall r :: r in db.rows && IsActive(db, r.meta.incident) ==> Describes(cfg, r, blobs)
  }

  /** Keys never change what they are bound to while their incident lives. */
  ghost predicate KeysSound(db: Db) {
    && (forall k :: k in db.ops ==>
          && (db.ops[k].meta.incident, k) in db.bound
          && db.bound[(db.ops[k].meta.incident, k)] == Binding(db.ops[k].fingerprint, db.ops[k].meta))
    && (forall b :: b in db.bound ==> b.0 in db.incidents)
    && (forall b :: b in db.bound && IsActive(db, b.0) ==> b.1 in db.ops && db.ops[b.1].meta.incident == b.0)
  }

  ghost predicate StreamsSound(db: Db) {
    && (forall k :: k in db.streams ==> k.0 in db.incidents && k.1 != "")
    && (forall r :: r in db.rows && r.meta.stream != "" && IsActive(db, r.meta.incident) ==>
          && (r.meta.incident, r.meta.stream) in db.streams
          && db.streams[(r.meta.incident, r.meta.stream)].media == r.meta.media)
    && (forall k :: k in db.streams && IsActive(db, k.0) && db.streams[k].status.StreamComplete? ==>
          Contiguous(db.rows, k.0, k.1, db.streams[k].media, db.streams[k].status.expected))
  }

  /** Only blobs of incidents under deletion are ever marked for removal. */
  ghost predicate DoomedSound(db: Db, doomed: map<string, set<string>>) {
    forall i :: i in doomed ==>
      && i in db.incidents && !IsActive(db, i)
      && forall p :: p in doomed[i] ==> exists r :: r in db.ever && r.meta.incident == i && r.path == p
  }

  predicate Owns(pc: Pc) {
    pc.Holding? || pc.RollingBack?
  }

  predicate BodyChecked(pc: Pc) {
    pc.Validated? || pc.Leased? || pc.Reserved? || pc.Unseen? || pc.UnderQuota? || Owns(pc)
  }

  /** The inputs are those a key was reserved for. */
  predicate Fits(cfg: Config, b: Binding, m: Meta) {
    b.fingerprint == cfg.fingerprint(m) && OperationMatches(cfg.backend, b.meta, m)
  }

  /** The request's key, if it has one, is bound to the request's inputs. */
  ghost predicate BoundTo(cfg: Config, bound: map<(string, string), Binding>, r: Request) {
    r.key.Some? ==>
      && (r.meta.incident, r.key.value) in bound
      && Fits(cfg, bound[(r.meta.incident, r.key.value)], r.meta)
  }

  /** `chunk` is what CreateChunk returned for this upload. */
  ghost predicate CreatedBy(cfg: Config, ever: set<Row>, r: Request, chunk: Row) {
    chunk.meta == r.meta && chunk.(meta := Stored(cfg.backend, r.meta)) in ever
  }

  /** `chunk` is a stored row that matches this upload. */
  ghost predicate MatchedBy(ever: set<Row>, r: Request, chunk: Row) {
    chunk in ever && UploadMatches(chunk.meta, r.meta)
  }

  ghost predicate ReplyOk(cfg: Config, ever: set<Row>, bound: map<(string, string), Binding>, r: Request, reply: Reply)
  {
    match reply
    case Created(chunk) => CreatedBy(cfg, ever, r, chunk) && BoundTo(cfg, bound, r)
    case Replayed(chunk) => MatchedBy(ever, r, chunk) && BoundTo(cfg, bound, r) && r.key.Some?
    case Refused(_, _) => true
  }

  /** What the program counter of a request entitles it to. Only the two
      histories appear here, and they only grow. */
  ghost predicate PcOk(cfg: Config, ever: set<Row>, bound: map<(string, string), Binding>, r: Request, pc: Pc) {
    match pc
    case Reserved | Unseen | UnderQuota | Holding(_) => BoundTo(cfg, bound, r)
    case Inserted(chunk) => CreatedBy(cfg, ever, r, chunk) && BoundTo(cfg, bound, r)
    case RollingBack(_, next) =>
      || (next.Done? && next.reply.Refused?)
      || (next.Replaying? && next.missing.Refused? && next.different.Refused? && BoundTo(cfg, bound, r) && r.key.Some?)
    case Replaying(missing, different) =>
      missing.Refused? && different.Refused? && BoundTo(cfg, bound, r) && r.key.Some?
    case Matched(chunk) => MatchedBy(ever, r, chunk) && BoundTo(cfg, bound, r) && r.key.Some?
    case Opened(chunk) => MatchedBy(ever, r, chunk) && BoundTo(cfg, bound, r) && r.key.Some?
    case Done(reply) => ReplyOk(cfg, ever, bound, r, reply)
    case Finished(reply) => ReplyOk(cfg, ever, bound, r, reply)
    case _ => true
  }

  /** A blob this request created is intact and no row refers to it. */
  ghost predicate OwnOk(db: Db, blobs: map<string, Bytes>, r: Request) {
    Owns(r.pc) ==>
      && PathOf(r.meta) == Some(r.pc.path)
      && (IsActive(db, r.meta.incident) ==>
            && r.pc.path in blobs && blobs[r.pc.path] == r.body
            && forall t :: t in db.rows ==> t.path != r.pc.path)
  }

  ghost predicate RequestOk(cfg: Config, db: Db, blobs: map<string, Bytes>, r: Request) {
    && r.meta.size == |r.body|
    && (BodyChecked(r.pc) ==> cfg.sha(r.body) == r.meta.sha)
    && (BodyChecked(r.pc) || r.pc.Admitted? ==> r.meta.incident in db.incidents)
    && PcOk(cfg, db.ever, db.bound, r, r.pc)
    && OwnOk(db, blobs, r)
  }

  ghost predicate RequestsOk(cfg: Config, db: Db, blobs: map<string, Bytes>, reqs: map<nat, Request>) {
    forall q :: q in reqs ==> RequestOk(cfg, db, blobs, reqs[q])
  }

  /** No two requests hold the same blob. */
  ghost predicate Exclusive(db: Db, reqs: map<nat, Request>) {
    forall p, q ::
      (p in reqs && q in reqs && p != q && Owns(reqs[p].pc) && Owns(reqs[q].pc) && IsActive(db, reqs[p].meta.incident))
      ==> reqs[p].pc.path != reqs[q].pc.path
  }

  ghost predicate DbSound(db: Db) {
    HistorySound(db) && KeysSound(db) && StreamsSound(db)
  }

  ghost predicate Inv(cfg: Config, w: World) {
    && DbSound(w.db)
    && Backed(cfg, w.db, w.blobs)
    && DoomedSound(w.db, w.doomed)
    && RequestsOk(cfg, w.db, w.blobs, w.reqs)
    && Exclusive(w.db, w.reqs)
  }

  lemma InvParts(cfg: Config, w: World)
    requires Inv(cfg, w)
    ensures DbSound(w.db) && Backed(cfg, w.db, w.blobs) && DoomedSound(w.db, w.doomed)
    ensures RequestsOk(cfg, w.db, w.blobs, w.reqs) && Exclusive(w.db, w.reqs)
  {
  }

  lemma InvKeys(cfg: Config, w: World)
    requires Inv(cfg, w)
    ensures KeysSound(w.db)
  {
  }

  lemma InvRequest(cfg: Config, w: World, q: nat)
    requires Inv(cfg, w) && q in w.reqs
    ensures RequestOk(cfg, w.db, w.blobs, w.reqs[q])
  {
  }

  // ------------------------------------------------------- what only grows

  ghost predicate Grows(bound: map<(string, string), Binding>, later: map<(string, string), Binding>) {
    forall b :: b in bound ==> b in later && later[b] == bound[b]
  }

  lemma PcOkGrows(cfg: Config, ever: set<Row>, later: set<Row>,
                  bound: map<(string, string), Binding>, laterBound: map<(string, string), Binding>, r: Request, pc: Pc)
    requires PcOk(cfg, ever, bound, r, pc) && ever <= later && Grows(bound, laterBound)
    ensures PcOk(cfg, later, laterBound, r, pc)
  {
  }

  // ------------------------------------------------------ one request moves

  /** A request may move to any point it is entitled to, if it holds no blob
      there that it did not hold before. */
  lemma PutKeeps(cfg: Config, w: World, q: nat, r: Request)
    requires Inv(cfg, w) && RequestOk(cfg, w.db, w.blobs, r)
    requires Owns(r.pc) ==>
               q in w.reqs && Owns(w.reqs[q].pc) && w.reqs[q].pc.path == r.pc.path && w.reqs[q].meta == r.meta
    ensures Inv(cfg, Put(w, q, r))
  {
  }

  /** The same for a blob nobody held. */
  lemma PutHolderKeeps(cfg: Config, w: World, q: nat, r: Request)
    requires Inv(cfg, w) && RequestOk(cfg, w.db, w.blobs, r) && Owns(r.pc)
    requires forall p :: p in w.reqs && p != q && Owns(w.reqs[p].pc)
                         && (IsActive(w.db, w.reqs[p].meta.incident) || IsActive(w.db, r.meta.incident))
                         ==> w.reqs[p].pc.path != r.pc.path
    ensures Inv(cfg, Put(w, q, r))
  {
  }

  lemma SayKeeps(cfg: Config, w: World, q: nat, r: Request, reply: Reply)
    requires Inv(cfg, w) && q in w.reqs && w.reqs[q] == r && ReplyOk(cfg, w.db.ever, w.db.bound, r, reply)
    ensures Inv(cfg, Put(w, q, Say(r, reply)))
  {
    PutKeeps(cfg, w, q, Say(r, reply));
  }

  lemma SpawnKeeps(cfg: Config, w: World, l: Label)
    requires Inv(cfg, w) && l.Spawn? && Next(cfg, w, l).Some?
    ensures Inv(cfg, Next(cfg, w, l).value)
  {
    PutKeeps(cfg, w, l.q, Request(l.relay, l.key, l.meta, l.body, l.size, "", Received));
  }

  lemma RefusalOk(cfg: Config, db: Db, blobs: map<string, Bytes>, r: Request, reply: Reply)
    requires RequestOk(cfg, db, blobs, r) && reply.Refused?
    ensures RequestOk(cfg, db, blobs, Say(r, reply))
  {
  }

  lemma UploadCheckOk(cfg: Config, db: Db, blobs: map<string, Bytes>, r: Request, envelopeOk: bool)
    requires RequestOk(cfg, db, blobs, r) && r.pc.Admitted?
    ensures RequestOk(cfg, db, blobs, AfterUpload(cfg, db, r, envelopeOk))
    ensures !Owns(AfterUpload(cfg, db, r, envelopeOk).pc)
  {
    hide StreamRefusal, BoundTo;
    StreamRefuses(db, r.meta);
  }

  lemma StreamRefuses(db: Db, m: Meta)
    ensures StreamRefusal(db, m).Some? ==> StreamRefusal(db, m).value.Refused?
  {
  }

  lemma IncidentCheckOk(cfg: Config, db: Db, blobs: map<string, Bytes>, r: Request)
    requires RequestOk(cfg, db, blobs, r) && r.pc.Received?
    ensures RequestOk(cfg, db, blobs, AfterIncident(db, r)) && !Owns(AfterIncident(db, r).pc)
  {
  }

  lemma DuplicateCheckOk(cfg: Config, db: Db, blobs: map<string, Bytes>, r: Request)
    requires RequestOk(cfg, db, blobs, r) && r.pc.Reserved?
    ensures RequestOk(cfg, db, blobs, AfterDuplicateCheck(db, r)) && !Owns(AfterDuplicateCheck(db, r).pc)
  {
  }

  lemma QuotaCheckOk(cfg: Config, db: Db, blobs: map<string, Bytes>, r: Request)
    requires RequestOk(cfg, db, blobs, r) && r.pc.Unseen?
    ensures RequestOk(cfg, db, blobs, AfterQuotaCheck(cfg, db, r)) && !Owns(AfterQuotaCheck(cfg, db, r).pc)
  {
  }

  lemma OpenOk(cfg: Config, db: Db, blobs: map<string, Bytes>, r: Request)
    requires RequestOk(cfg, db, blobs, r) && r.pc.Matched?
    ensures RequestOk(cfg, db, blobs, AfterOpen(blobs, r, r.pc.chunk)) && !Owns(AfterOpen(blobs, r, r.pc.chunk).pc)
  {
  }

  lemma LookupOk(cfg: Config, db: Db, blobs: map<string, Bytes>, r: Request)
    requires RequestOk(cfg, db, blobs, r) && r.pc.Replaying?
    requires forall t :: t in db.rows ==> t in db.ever
    ensures RequestOk(cfg, db, blobs, r.(pc := AfterLookup(db, r, r.pc.missing, r.pc.different)))
    ensures !Owns(AfterLookup(db, r, r.pc.missing, r.pc.different))
  {
  }

  lemma CrashOk(cfg: Config, db: Db, blobs: map<string, Bytes>, r: Request)
    requires RequestOk(cfg, db, blobs, r)
    ensures RequestOk(cfg, db, blobs, AfterCrash(r)) && !Owns(AfterCrash(r).pc)
  {
  }

  /** A request that only reads ends up entitled to where it goes. */
  lemma ReadOk(cfg: Config, db: Db, blobs: map<string, Bytes>, r: Request, l: Label)
    requires RequestOk(cfg, db, blobs, r) && ReadsOnly(l) && Ready(l, r.pc)
    requires forall t :: t in db.rows ==> t in db.ever
    ensures RequestOk(cfg, db, blobs, AfterRead(cfg, db, blobs, r, l))
    ensures !Owns(AfterRead(cfg, db, blobs, r, l).pc)
  {
    hide RequestOk, AfterIncident, AfterUpload, AfterDuplicateCheck, AfterQuotaCheck, AfterLookup,
      AfterOpen, AfterCrash;
    if l.Crash? {
      CrashOk(cfg, db, blobs, r);
    } else if l.fault {
      RefusalOk(cfg, db, blobs, r, INTERNAL);
    } else {
      match l
      case CheckIncident(_, _) => IncidentCheckOk(cfg, db, blobs, r);
      case CheckUpload(_, _, envelopeOk) => UploadCheckOk(cfg, db, blobs, r, envelopeOk);
      case CheckDuplicate(_, _) => DuplicateCheckOk(cfg, db, blobs, r);
      case CheckQuota(_, _) => QuotaCheckOk(cfg, db, blobs, r);
      case FindRow(_, _) => LookupOk(cfg, db, blobs, r);
      case OpenBlob(_, _) => OpenOk(cfg, db, blobs, r);
    }
  }

  lemma ReadKeeps(cfg: Config, w: World, q: nat, r: Request, l: Label)
    requires Inv(cfg, w) && q in w.reqs && w.reqs[q] == r && ReadsOnly(l) && Ready(l, r.pc)
    ensures Inv(cfg, Put(w, q, AfterRead(cfg, w.db, w.blobs, r, l)))
  {
    ReadOk(cfg, w.db, w.blobs, r, l);
    PutKeeps(cfg, w, q, AfterRead(cfg, w.db, w.blobs, r, l));
  }

  /** Leases and the clock play no part in the invariant: safety survives
      every lease that expires or was never taken. */
  lemma LeasesDoNotMatter(cfg: Config, w: World, leases: Coordination.Keys<nat>, now: int)
    requires Inv(cfg, w)
    ensures Inv(cfg, w.(leases := leases, now := now))
  {
  }

  lemma LeaseKeeps(cfg: Config, w: World, q: nat, r: Request, fault: bool)
    requires Inv(cfg, w) && q in w.reqs && w.reqs[q] == r && r.pc.Validated?
    ensures Inv(cfg, Put(w.(leases := LeasesTaken(cfg, w, q, r, fault)), q, AfterLease(cfg, w, r, fault)))
  {
    hide Inv;
    InvRequest(cfg, w, q);
    var v := w.(leases := LeasesTaken(cfg, w, q, r, fault));
    LeasesDoNotMatter(cfg, w, v.leases, v.now);
    PutKeeps(cfg, v, q, AfterLease(cfg, w, r, fault));
  }

  lemma ReleaseKeeps(cfg: Config, w: World, q: nat, r: Request, fault: bool)
    requires Inv(cfg, w) && q in w.reqs && w.reqs[q] == r && r.pc.Done?
    ensures Inv(cfg, Put(w.(leases := LeasesReleased(cfg, w, q, r, fault)), q, r.(pc := Finished(r.pc.reply))))
  {
    hide Inv;
    InvRequest(cfg, w, q);
    var v := w.(leases := LeasesReleased(cfg, w, q, r, fault));
    LeasesDoNotMatter(cfg, w, v.leases, v.now);
    PutKeeps(cfg, v, q, r.(pc := Finished(r.pc.reply)));
  }

  // ------------------------------------------------------ upload operations

  ghost predicate OnlyKeysChange(db: Db, later: Db) {
    later == db.(ops := later.ops, bound := later.bound) && Grows(db.bound, later.bound)
  }

  lemma RequestsOkGrow(cfg: Config, db: Db, later: Db, blobs: map<string, Bytes>, reqs: map<nat, Request>)
    requires RequestsOk(cfg, db, blobs, reqs) && OnlyKeysChange(db, later)
    ensures RequestsOk(cfg, later, blobs, reqs)
  {
    forall q | q in reqs ensures RequestOk(cfg, later, blobs, reqs[q]) {
      assert RequestOk(cfg, db, blobs, reqs[q]);
      PcOkGrows(cfg, db.ever, later.ever, db.bound, later.bound, reqs[q], reqs[q].pc);
    }
  }

  lemma KeysChangeKeeps(cfg: Config, w: World, later: Db)
    requires Inv(cfg, w) && OnlyKeysChange(w.db, later) && KeysSound(later)
    ensures Inv(cfg, w.(db := later))
  {
    hide RequestsOk, KeysSound;
    RequestsOkGrow(cfg, w.db, later, w.blobs, w.reqs);
  }

  /** A reservation binds the key, or finds it bound to these very inputs. */
  lemma ReserveSound(cfg: Config, db: Db, key: string, m: Meta)
    requires KeysSound(db) && Reserve(cfg, db, key, m).Ok?
    ensures var (later, op) := Reserve(cfg, db, key, m).value;
            && OnlyKeysChange(db, later) && KeysSound(later)
            && (m.incident, key) in later.bound
            && Fits(cfg, later.bound[(m.incident, key)], m)
  {
    if key !in db.ops {
      ReserveFresh(cfg, db, key, m);
    }
  }

  /** A key that is in no operation of a live incident was never bound there. */
  lemma BindSound(db: Db, key: string, op: Operation)
    requires KeysSound(db) && key !in db.ops && IsActive(db, op.meta.incident)
    ensures var b := (op.meta.incident, key);
            && b !in db.bound
            && KeysSound(db.(ops := db.ops[key := op], bound := db.bound[b := Binding(op.fingerprint, op.meta)]))
  {
  }

  lemma ReserveFresh(cfg: Config, db: Db, key: string, m: Meta)
    requires KeysSound(db) && key !in db.ops && IsActive(db, m.incident)
    ensures var (later, op) := Reserve(cfg, db, key, m).value;
            OnlyKeysChange(db, later) && KeysSound(later) && Fits(cfg, later.bound[(m.incident, key)], m)
  {
    hide KeysSound, UploadMatches, OperationMatches, SameUpload, PathOf, IdentityOf, StoreTime;
    RetryMatches(cfg.backend, m);
    BindSound(db, key, Operation(Stored(cfg.backend, m), cfg.fingerprint(m), None));
  }

  lemma ReserveKeeps(cfg: Config, w: World, q: nat, r: Request, failing: Fault)
    requires Inv(cfg, w) && q in w.reqs && w.reqs[q] == r && r.pc.Leased?
    ensures Inv(cfg, NextReserve(cfg, w, q, r, failing))
  {
    hide Inv, Reserve;
    InvRequest(cfg, w, q);
    if r.key.None? {
      PutKeeps(cfg, w, q, r.(pc := Reserved));
    } else if failing == FaultBefore {
      SayKeeps(cfg, w, q, r, INTERNAL);
    } else {
      match Reserve(cfg, w.db, r.key.value, r.meta)
      case Err(e) =>
        SayKeeps(cfg, w, q, r, ReserveRefusal(e));
      case Ok((later, op)) =>
        ReservedKeeps(cfg, w, q, r, failing, later, op);
    }
  }

  lemma ReservedKeeps(cfg: Config, w: World, q: nat, r: Request, failing: Fault, later: Db, op: Operation)
    requires Inv(cfg, w) && q in w.reqs && w.reqs[q] == r && r.pc.Leased? && r.key.Some?
    requires Reserve(cfg, w.db, r.key.value, r.meta) == Ok((later, op))
    ensures Inv(cfg, Put(w.(db := later), q,
                         if failing == FaultAfter then Say(r, INTERNAL) else r.(pc := AfterReserve(op))))
  {
    hide Inv, Reserve, KeysSound;
    InvKeys(cfg, w);
    InvRequest(cfg, w, q);
    ReserveSound(cfg, w.db, r.key.value, r.meta);
    KeysChangeKeeps(cfg, w, later);
    if failing == FaultAfter {
      SayKeeps(cfg, w.(db := later), q, r, INTERNAL);
    } else {
      PutKeeps(cfg, w.(db := later), q, r.(pc := AfterReserve(op)));
    }
  }

  lemma CompleteSound(cfg: Config, db: Db, key: string, m: Meta, chunk: nat)
    requires KeysSound(db) && Complete(cfg, db, key, m, chunk).Ok?
    ensures OnlyKeysChange(db, Complete(cfg, db, key, m, chunk).value)
    ensures KeysSound(Complete(cfg, db, key, m, chunk).value)
  {
  }

  lemma CompleteKeeps(cfg: Config, w: World, q: nat, r: Request, chunk: nat, reply: Reply, failing: Fault)
    requires Inv(cfg, w) && q in w.reqs && w.reqs[q] == r
    requires ReplyOk(cfg, w.db.ever, w.db.bound, r, reply)
    ensures Inv(cfg, NextComplete(cfg, w, q, r, chunk, reply, failing))
  {
    if r.key.None? {
      SayKeeps(cfg, w, q, r, reply);
    } else if failing == FaultBefore {
      SayKeeps(cfg, w, q, r, INTERNAL);
    } else {
      match Complete(cfg, w.db, r.key.value, r.meta, chunk)
      case Err(e) =>
        SayKeeps(cfg, w, q, r, if e == IdempotencyConflict then CONFLICT else INTERNAL);
      case Ok(later) =>
        CompleteSound(cfg, w.db, r.key.value, r.meta, chunk);
        KeysChangeKeeps(cfg, w, later);
        SayKeeps(cfg, w.(db := later), q, r, if failing == FaultAfter then INTERNAL else reply);
    }
  }

  // ------------------------------------------------------------------ blobs

  /** A new blob at a free path disturbs nobody. */
  lemma PlaceKeeps(cfg: Config, w: World, path: string, body: Bytes)
    requires Inv(cfg, w) && path !in w.blobs
    ensures Inv(cfg, w.(blobs := w.blobs[path := body]))
  {
    hide DbSound, DoomedSound, Exclusive;
    var blobs := w.blobs[path := body];
    forall q | q in w.reqs ensures RequestOk(cfg, w.db, blobs, w.reqs[q]) {
      assert RequestOk(cfg, w.db, w.blobs, w.reqs[q]);
    }
  }

  /** A path that is free belongs to no live holder; if the incident of its
      chunk lives, to no row and to no holder at all. */
  lemma FreePath(cfg: Config, w: World, m: Meta, path: string)
    requires Inv(cfg, w) && PathOf(m) == Some(path) && path !in w.blobs
    ensures IsActive(w.db, m.incident) ==> forall t :: t in w.db.rows ==> t.path != path
    ensures forall p :: p in w.reqs && Owns(w.reqs[p].pc)
                        && (IsActive(w.db, w.reqs[p].meta.incident) || IsActive(w.db, m.incident))
                        ==> w.reqs[p].pc.path != path
  {
    forall t | t in w.db.rows && t.path == path ensures !IsActive(w.db, m.incident) {
      PathDeterminesCoordinates(m, t.meta);
    }
    forall p | p in w.reqs && Owns(w.reqs[p].pc) && w.reqs[p].pc.path == path
      ensures !IsActive(w.db, w.reqs[p].meta.incident) && !IsActive(w.db, m.incident)
    {
      assert RequestOk(cfg, w.db, w.blobs, w.reqs[p]);
      PathDeterminesCoordinates(m, w.reqs[p].meta);
    }
  }

  lemma HoldKeeps(cfg: Config, w: World, q: nat, r: Request, path: string)
    requires Inv(cfg, w) && q in w.reqs && w.reqs[q] == r && r.pc.UnderQuota?
    requires PathOf(r.meta) == Some(path) && path !in w.blobs
    ensures Inv(cfg, Put(w.(blobs := w.blobs[path := r.body]), q, r.(pc := Holding(path))))
  {
    FreePath(cfg, w, r.meta, path);
    PlaceKeeps(cfg, w, path, r.body);
    PutHolderKeeps(cfg, w.(blobs := w.blobs[path := r.body]), q, r.(pc := Holding(path)));
  }

  lemma OnDuplicateKeeps(cfg: Config, w: World, q: nat, r: Request)
    requires Inv(cfg, w) && q in w.reqs && w.reqs[q] == r && r.pc.UnderQuota?
    ensures Inv(cfg, Put(w, q, r.(pc := OnDuplicate(r))))
  {
    PutKeeps(cfg, w, q, r.(pc := OnDuplicate(r)));
  }

  lemma CommitKeeps(cfg: Config, w: World, q: nat, r: Request, commit: Commit)
    requires Inv(cfg, w) && q in w.reqs && w.reqs[q] == r && r.pc.UnderQuota?
    ensures Inv(cfg, NextCommit(w, q, r, commit))
  {
    hide Inv;
    var path := PathOf(r.meta);
    if path.None? || commit == Fail {
      SayKeeps(cfg, w, q, r, INTERNAL);
    } else if path.value in w.blobs {
      SayKeeps(cfg, w, q, r, INTERNAL);
      OnDuplicateKeeps(cfg, w, q, r);
    } else if commit == Place {
      HoldKeeps(cfg, w, q, r, path.value);
    } else {
      PlaceKeeps(cfg, w, path.value, r.body);
      SayKeeps(cfg, w.(blobs := w.blobs[path.value := r.body]), q, r, INTERNAL);
      OnDuplicateKeeps(cfg, w.(blobs := w.blobs[path.value := r.body]), q, r);
    }
  }

  /** Taking away a blob that is not a live row's and not a live holder's. */
  lemma TakeAwayKeeps(cfg: Config, w: World, path: string)
    requires Inv(cfg, w)
    requires forall t :: t in w.db.rows && IsActive(w.db, t.meta.incident) ==> t.path != path
    requires forall p :: p in w.reqs && Owns(w.reqs[p].pc) && IsActive(w.db, w.reqs[p].meta.incident)
                         ==> w.reqs[p].pc.path != path
    ensures Inv(cfg, w.(blobs := w.blobs - {path}))
  {
    hide DbSound, DoomedSound, Exclusive;
    var blobs := w.blobs - {path};
    forall q | q in w.reqs ensures RequestOk(cfg, w.db, blobs, w.reqs[q]) {
      assert RequestOk(cfg, w.db, w.blobs, w.reqs[q]);
    }
  }

  /** A rollback removes a blob that no live row and no other live request
      depends on. */
  lemma RollbackIsSafe(cfg: Config, w: World, q: nat)
    requires Inv(cfg, w) && q in w.reqs && Owns(w.reqs[q].pc)
    ensures forall t :: t in w.db.rows && IsActive(w.db, t.meta.incident) ==> t.path != w.reqs[q].pc.path
    ensures forall p :: p in w.reqs && p != q && Owns(w.reqs[p].pc) && IsActive(w.db, w.reqs[p].meta.incident)
                        ==> w.reqs[p].pc.path != w.reqs[q].pc.path
  {
    var r := w.reqs[q];
    assert RequestOk(cfg, w.db, w.blobs, r);
    forall t | t in w.db.rows && IsActive(w.db, t.meta.incident) ensures t.path != r.pc.path {
      if t.path == r.pc.path {
        PathDeterminesCoordinates(r.meta, t.meta);
      }
    }
  }

  lemma RemoveKeeps(cfg: Config, w: World, q: nat, r: Request, effective: bool)
    requires Inv(cfg, w) && q in w.reqs && w.reqs[q] == r && r.pc.RollingBack?
    ensures Inv(cfg, NextRemove(w, q, r, r.pc.path, r.pc.next, effective))
  {
    hide Inv;
    InvRequest(cfg, w, q);
    var path, after := r.pc.path, r.(pc := r.pc.next);
    PutKeeps(cfg, w, q, after);
    if effective {
      RollbackIsSafe(cfg, w, q);
      var v := Put(w, q, after);
      TakeAwayKeeps(cfg, v, path);
      assert v.(blobs := v.blobs - {path}) == NextRemove(w, q, r, path, r.pc.next, effective);
    }
  }

  // ------------------------------------------------------------- row inserts

  function InsertedRow(cfg: Config, m: Meta, path: string, id: nat): Row {
    Row(id, Stored(cfg.backend, m), path)
  }

  function WithRow(db: Db, row: Row): Db {
    db.(rows := db.rows + [row], ever := db.ever + {row})
  }

  lemma InsertHistory(cfg: Config, db: Db, m: Meta, path: string, id: nat)
    requires HistorySound(db) && IsActive(db, m.incident) && !IdentityTaken(db.rows, IdentityOf(m))
    requires PathOf(m) == Some(path) && forall t :: t in db.ever ==> t.id != id
    ensures HistorySound(WithRow(db, InsertedRow(cfg, m, path, id)))
  {
    hide UploadMatches, OperationMatches, SameUpload, StoreTime;
    RetryMatches(cfg.backend, m);
    var row := InsertedRow(cfg, m, path, id);
    forall t | t in db.ever ensures IdentityOf(t.meta) != IdentityOf(row.meta) {
      assert t in db.rows || t.meta.incident != m.incident;
    }
  }

  lemma InsertStreams(cfg: Config, db: Db, m: Meta, path: string, id: nat)
    requires StreamsSound(db) && InsertState(db, m).Ok?
    ensures StreamsSound(WithRow(db, InsertedRow(cfg, m, path, id)))
  {
    var row := InsertedRow(cfg, m, path, id);
    var later := WithRow(db, row);
    forall k | k in db.streams && IsActive(db, k.0) && db.streams[k].status.StreamComplete?
      ensures Contiguous(later.rows, k.0, k.1, db.streams[k].media, db.streams[k].status.expected)
    {
      assert Contiguous(db.rows, k.0, k.1, db.streams[k].media, db.streams[k].status.expected);
      assert !InStream(row, k.0, k.1);
      ContiguousFrame(db.rows, row, k.0, k.1, db.streams[k].media, db.streams[k].status.expected);
    }
  }

  lemma ContiguousFrame(rows: seq<Row>, row: Row, i: string, s: string, media: string, n: nat)
    requires Contiguous(rows, i, s, media, n) && !InStream(row, i, s)
    ensures Contiguous(rows + [row], i, s, media, n)
  {
    forall x | 1 <= x <= n ensures IdentityTaken(rows + [row], Streamed(i, s, x)) {
      assert IdentityTaken(rows, Streamed(i, s, x));
      var r :| r in rows && IdentityOf(r.meta) == Streamed(i, s, x);
      assert r in rows + [row];
    }
  }

  lemma InsertDb(cfg: Config, db: Db, m: Meta, path: string, id: nat)
    requires DbSound(db) && CreateChunk(cfg, db, m, path, id).Ok?
    requires PathOf(m) == Some(path) && forall t :: t in db.ever ==> t.id != id
    ensures DbSound(WithRow(db, InsertedRow(cfg, m, path, id)))
  {
    InsertHistory(cfg, db, m, path, id);
    InsertStreams(cfg, db, m, path, id);
  }

  /** A row whose blob is held by `q` alone, and which `q` gives up by inserting it. */
  lemma InsertRequests(cfg: Config, w: World, q: nat, row: Row)
    requires Inv(cfg, w) && q in w.reqs && w.reqs[q].pc.Holding? && row.path == w.reqs[q].pc.path
    requires IsActive(w.db, w.reqs[q].meta.incident)
    ensures forall p :: p in w.reqs && p != q ==> RequestOk(cfg, WithRow(w.db, row), w.blobs, w.reqs[p])
  {
    var later := WithRow(w.db, row);
    forall p | p in w.reqs && p != q ensures RequestOk(cfg, later, w.blobs, w.reqs[p]) {
      assert RequestOk(cfg, w.db, w.blobs, w.reqs[p]);
      PcOkGrows(cfg, w.db.ever, later.ever, w.db.bound, later.bound, w.reqs[p], w.reqs[p].pc);
    }
  }

  lemma InsertOwn(cfg: Config, w: World, q: nat, id: nat)
    requires Inv(cfg, w) && q in w.reqs && w.reqs[q].pc.Holding?
    ensures var r := w.reqs[q];
            var row := InsertedRow(cfg, r.meta, r.pc.path, id);
            RequestOk(cfg, WithRow(w.db, row), w.blobs, r.(pc := Inserted(Returned(row, r.meta))))
    ensures IsActive(w.db, w.reqs[q].meta.incident) ==>
              Describes(cfg, InsertedRow(cfg, w.reqs[q].meta, w.reqs[q].pc.path, id), w.blobs)
  {
    assert RequestOk(cfg, w.db, w.blobs, w.reqs[q]);
  }

  lemma InsertOkKeeps(cfg: Config, w: World, q: nat, r: Request, id: nat)
    requires Inv(cfg, w) && q in w.reqs && w.reqs[q] == r && r.pc.Holding?
    requires CreateChunk(cfg, w.db, r.meta, r.pc.path, id).Ok? && forall t :: t in w.db.ever ==> t.id != id
    ensures var row := InsertedRow(cfg, r.meta, r.pc.path, id);
            Inv(cfg, Put(w.(db := WithRow(w.db, row)), q, r.(pc := Inserted(Returned(row, r.meta)))))
  {
    var row := InsertedRow(cfg, r.meta, r.pc.path, id);
    HeldPath(cfg, w, q);
    InsertDb(cfg, w.db, r.meta, r.pc.path, id);
    InsertRequests(cfg, w, q, row);
    InsertOwn(cfg, w, q, id);
    InsertBacked(cfg, w.db, w.blobs, row);
    ExclusiveWithout(w.db, WithRow(w.db, row), w.reqs, q, r.(pc := Inserted(Returned(row, r.meta))));
    DoomedGrows(w.db, WithRow(w.db, row), w.doomed);
  }

  lemma HeldPath(cfg: Config, w: World, q: nat)
    requires Inv(cfg, w) && q in w.reqs && Owns(w.reqs[q].pc)
    ensures PathOf(w.reqs[q].meta) == Some(w.reqs[q].pc.path)
  {
    assert RequestOk(cfg, w.db, w.blobs, w.reqs[q]);
  }

  lemma InsertBacked(cfg: Config, db: Db, blobs: map<string, Bytes>, row: Row)
    requires Backed(cfg, db, blobs) && Describes(cfg, row, blobs)
    ensures Backed(cfg, WithRow(db, row), blobs)
  {
  }

  lemma ExclusiveWithout(db: Db, later: Db, reqs: map<nat, Request>, q: nat, r: Request)
    requires Exclusive(db, reqs) && later.incidents == db.incidents && !Owns(r.pc)
    ensures Exclusive(later, reqs[q := r])
  {
  }

  lemma DoomedGrows(db: Db, later: Db, doomed: map<string, set<string>>)
    requires DoomedSound(db, doomed) && db.ever <= later.ever && later.incidents == db.incidents
    ensures DoomedSound(later, doomed)
  {
    forall i, p | i in doomed && p in doomed[i]
      ensures exists r :: r in later.ever && r.meta.incident == i && r.path == p
    {
      var r :| r in db.ever && r.meta.incident == i && r.path == p;
      assert r in later.ever;
    }
  }

  lemma RollBackKeeps(cfg: Config, w: World, q: nat, r: Request, next: Pc)
    requires Inv(cfg, w) && q in w.reqs && w.reqs[q] == r && r.pc.Holding?
    requires (next.Done? && next.reply.Refused?) || next == OnDuplicate(r)
    ensures Inv(cfg, Put(w, q, r.(pc := RollingBack(r.pc.path, next))))
  {
    PutKeeps(cfg, w, q, r.(pc := RollingBack(r.pc.path, next)));
  }

  lemma RefuseInsertKeeps(cfg: Config, w: World, q: nat, r: Request, e: Error)
    requires Inv(cfg, w) && q in w.reqs && w.reqs[q] == r && r.pc.Holding?
    ensures Inv(cfg, Put(w, q, r.(pc := RollingBack(r.pc.path, AfterInsertError(r, e)))))
  {
    RollBackKeeps(cfg, w, q, r, AfterInsertError(r, e));
  }

  lemma InsertKeeps(cfg: Config, w: World, q: nat, r: Request, id: nat, failing: Fault)
    requires Inv(cfg, w) && q in w.reqs && w.reqs[q] == r && r.pc.Holding?
    requires failing != FaultAfter && forall t :: t in w.db.ever ==> t.id != id
    ensures Inv(cfg, NextInsert(cfg, w, q, r, r.pc.path, id, failing))
  {
    hide Inv;
    if failing == FaultBefore {
      RollBackKeeps(cfg, w, q, r, Done(INTERNAL));
    } else {
      var created := CreateChunk(cfg, w.db, r.meta, r.pc.path, id);
      if created.Err? {
        RefuseInsertKeeps(cfg, w, q, r, created.error);
      } else {
        InsertOkKeeps(cfg, w, q, r, id);
      }
    }
  }

  // ------------------------------------------------------------ environment

  /** Incidents may appear, and cease to be active, but never come back. */
  ghost predicate Fades(incidents: map<string, Incident>, later: map<string, Incident>) {
    && (forall i :: i in incidents ==> i in later)
    && (forall i :: i in incidents && later[i].deletion == Active ==> incidents[i].deletion == Active)
  }

  lemma FadeDb(db: Db, incidents: map<string, Incident>)
    requires DbSound(db) && Fades(db.incidents, incidents)
    ensures DbSound(db.(incidents := incidents))
  {
  }

  lemma FadeRequests(cfg: Config, w: World, incidents: map<string, Incident>)
    requires Inv(cfg, w) && Fades(w.db.incidents, incidents)
    ensures RequestsOk(cfg, w.db.(incidents := incidents), w.blobs, w.reqs)
    ensures Exclusive(w.db.(incidents := incidents), w.reqs)
  {
    var later := w.db.(incidents := incidents);
    forall q | q in w.reqs ensures RequestOk(cfg, later, w.blobs, w.reqs[q]) {
      assert RequestOk(cfg, w.db, w.blobs, w.reqs[q]);
    }
  }

  lemma FadeKeeps(cfg: Config, w: World, incidents: map<string, Incident>)
    requires Inv(cfg, w) && Fades(w.db.incidents, incidents)
    ensures Inv(cfg, w.(db := w.db.(incidents := incidents)))
  {
    FadeDb(w.db, incidents);
    FadeRequests(cfg, w, incidents);
  }

  lemma RequestDeletionKeeps(cfg: Config, w: World, i: string)
    requires Inv(cfg, w) && EnvironmentStep(w, RequestDeletion(i)).Some?
    ensures Inv(cfg, EnvironmentStep(w, RequestDeletion(i)).value)
  {
    hide RequestsOk, Exclusive, DbSound, Backed;
    var incidents := w.db.incidents[i := w.db.incidents[i].(deletion := Deleting)];
    FadeKeeps(cfg, w, incidents);
    SnapshotSound(cfg, w, i);
  }

  lemma SnapshotSound(cfg: Config, w: World, i: string)
    requires Inv(cfg, w)
    ensures forall p :: p in PathsOf(w.db.rows, i) ==> exists r :: r in w.db.ever && r.meta.incident == i && r.path == p
  {
    forall p | p in PathsOf(w.db.rows, i)
      ensures exists r :: r in w.db.ever && r.meta.incident == i && r.path == p
    {
      var r :| r in w.db.rows && r.meta.incident == i && r.path == p;
      assert r in w.db.ever;
    }
  }

  /** The deletion worker only removes blobs of an incident that is no longer live. */
  lemma RemoveItemKeeps(cfg: Config, w: World, i: string, path: string)
    requires Inv(cfg, w) && i in w.doomed && path in w.doomed[i]
    ensures Inv(cfg, w.(blobs := w.blobs - {path}))
  {
    var d :| d in w.db.ever && d.meta.incident == i && d.path == path;
    forall t | t in w.db.rows && IsActive(w.db, t.meta.incident) ensures t.path != path {
      if t.path == path {
        PathDeterminesCoordinates(d.meta, t.meta);
      }
    }
    forall p | p in w.reqs && Owns(w.reqs[p].pc) && IsActive(w.db, w.reqs[p].meta.incident)
      ensures w.reqs[p].pc.path != path
    {
      HeldPath(cfg, w, p);
      if w.reqs[p].pc.path == path {
        PathDeterminesCoordinates(d.meta, w.reqs[p].meta);
      }
    }
    TakeAwayKeeps(cfg, w, path);
  }

  lemma PruneDb(db: Db, i: string)
    requires DbSound(db) && i in db.incidents && db.incidents[i].deletion == Deleting
    ensures DbSound(PruneIncident(db, i))
  {
    hide HistorySound, KeysSound, StreamsSound, PruneIncident;
    PruneHistory(db, i);
    PruneStreams(db, i);
  }

  lemma PruneHistory(db: Db, i: string)
    requires HistorySound(db) && KeysSound(db) && i in db.incidents && db.incidents[i].deletion == Deleting
    ensures HistorySound(PruneIncident(db, i)) && KeysSound(PruneIncident(db, i))
  {
  }

  lemma PruneStreams(db: Db, i: string)
    requires StreamsSound(db) && i in db.incidents && db.incidents[i].deletion == Deleting
    ensures StreamsSound(PruneIncident(db, i))
  {
    var later := PruneIncident(db, i);
    forall k | k in later.streams && IsActive(later, k.0) && later.streams[k].status.StreamComplete?
      ensures Contiguous(later.rows, k.0, k.1, later.streams[k].media, later.streams[k].status.expected)
    {
      assert Contiguous(db.rows, k.0, k.1, db.streams[k].media, db.streams[k].status.expected);
      ContiguousWithout(db.rows, i, k.0, k.1, db.streams[k].media, db.streams[k].status.expected);
    }
  }

  lemma ContiguousWithout(rows: seq<Row>, gone: string, i: string, s: string, media: string, n: nat)
    requires Contiguous(rows, i, s, media, n) && gone != i
    ensures Contiguous(Without(rows, gone), i, s, media, n)
  {
    forall x | 1 <= x <= n ensures IdentityTaken(Without(rows, gone), Streamed(i, s, x)) {
      assert IdentityTaken(rows, Streamed(i, s, x));
      var r :| r in rows && IdentityOf(r.meta) == Streamed(i, s, x);
      assert r in Without(rows, gone);
    }
  }

  lemma PruneRequests(cfg: Config, w: World, i: string)
    requires Inv(cfg, w) && i in w.db.incidents && w.db.incidents[i].deletion == Deleting
    ensures RequestsOk(cfg, PruneIncident(w.db, i), w.blobs, w.reqs)
    ensures Exclusive(PruneIncident(w.db, i), w.reqs)
  {
    var later := PruneIncident(w.db, i);
    forall q | q in w.reqs ensures RequestOk(cfg, later, w.blobs, w.reqs[q]) {
      assert RequestOk(cfg, w.db, w.blobs, w.reqs[q]);
    }
  }

  lemma PruneKeeps(cfg: Config, w: World, i: string)
    requires Inv(cfg, w) && i in w.db.incidents && w.db.incidents[i].deletion == Deleting
    ensures Inv(cfg, w.(db := PruneIncident(w.db, i)))
  {
    PruneDb(w.db, i);
    PruneRequests(cfg, w, i);
  }

  /** Stream transitions touch no row, no blob and no request. */
  lemma StreamsKeep(cfg: Config, w: World, streams: map<(string, string), Stream>)
    requires Inv(cfg, w) && StreamsSound(w.db.(streams := streams))
    ensures Inv(cfg, w.(db := w.db.(streams := streams)))
  {
    hide StreamsSound;
    var later := w.db.(streams := streams);
    forall q | q in w.reqs ensures RequestOk(cfg, later, w.blobs, w.reqs[q]) {
      assert RequestOk(cfg, w.db, w.blobs, w.reqs[q]);
    }
  }

  predicate MovesStream(l: Label) {
    l.NewStream? || l.FinishStream? || l.AbortStream?
  }

  lemma StreamStepSound(w: World, l: Label)
    requires StreamsSound(w.db) && MovesStream(l) && EnvironmentStep(w, l).Some?
    ensures var v := EnvironmentStep(w, l).value;
            v == w.(db := w.db.(streams := v.db.streams)) && StreamsSound(w.db.(streams := v.db.streams))
  {
  }

  lemma EnvironmentKeeps(cfg: Config, w: World, l: Label)
    requires Inv(cfg, w) && EnvironmentStep(w, l).Some?
    ensures Inv(cfg, EnvironmentStep(w, l).value)
  {
    if MovesStream(l) {
      StreamStepSound(w, l);
      StreamsKeep(cfg, w, EnvironmentStep(w, l).value.db.streams);
    } else if l.Tick? {
      LeasesDoNotMatter(cfg, w, w.leases, w.now + l.elapsed);
    } else if l.RequestDeletion? {
      RequestDeletionKeeps(cfg, w, l.incident);
    } else if l.RemoveItem? {
      RemoveItemKeeps(cfg, w, l.incident, l.path);
    } else if l.FinishDeletion? {
      PruneKeeps(cfg, w, l.incident);
    } else {
      FadeKeeps(cfg, w, EnvironmentStep(w, l).value.db.incidents);
    }
  }
}
