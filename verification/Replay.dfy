/** Replay completeness: a faithful retry of an upload whose row exists is
    answered with that row, whatever else the server is doing. */
module Replay {
  import opened Text
  import opened Chunks
  import opened Store
  import opened Protocol
  import opened Invariant
  import opened Safety

  /** The incident and, for a streamed chunk, the stream still accept uploads. */
  predicate StillOpen(db: Db, m: Meta) {
    && IsActive(db, m.incident) && db.incidents[m.incident].open
    && (m.stream != "" ==>
          (m.incident, m.stream) in db.streams && db.streams[(m.incident, m.stream)].status == StreamOpen)
  }

  /** `r` retries the upload stored as `t`: same inputs up to what the backend
      kept, intact body, and a key reserved before for these inputs. */
  ghost predicate Retries(cfg: Config, db: Db, r: Request, t: Row) {
    && !r.relay && r.key.Some?
    && cfg.sha(r.body) == r.meta.sha
    && UploadMatches(t.meta, r.meta)
    && BoundTo(cfg, db.bound, r)
  }

  /** The points of a retry on its way to the replay of `t`. */
  predicate OnTrack(pc: Pc, t: Row) {
    match pc
    case Received | Admitted | Validated | Leased | Reserved | Replaying(_, _) => true
    case Matched(chunk) => chunk == t
    case Opened(chunk) => chunk == t
    case Done(reply) => reply == Replayed(t)
    case Finished(reply) => reply == Replayed(t)
    case _ => false
  }

  function Rank(pc: Pc): nat {
    match pc
    case Received => 0
    case Admitted => 1
    case Validated => 2
    case Leased => 3
    case Reserved => 4
    case Replaying(_, _) => 5
    case Matched(_) => 6
    case Opened(_) => 7
    case Done(_) => 8
    case _ => 9
  }

  /** Nothing fails in this step, and a lease is only asked for when it is free. */
  predicate Faultless(cfg: Config, w: World, l: Label) {
    match l
    case CheckUpload(_, fault, envelopeOk) => !fault && envelopeOk
    case TakeLease(q, fault) =>
      !fault && q in w.reqs && !Coordination.Live(w.leases, cfg.leaseKey(w.reqs[q].meta), w.now)
    case ReserveKey(_, failing) => failing == NoFault
    case CompleteKey(_, failing) => failing == NoFault
    case CheckIncident(_, fault) => !fault
    case CheckDuplicate(_, fault) => !fault
    case FindRow(_, fault) => !fault
    case OpenBlob(_, fault) => !fault
    case Crash(_) => false
    case _ => true
  }

  predicate StepOf(l: Label, q: nat) {
    IsRequestLabel(l) && l.q == q
  }

  // --------------------------------------------------- each step of the retry

  /** The row's stream exists and has the right media type. */
  lemma StreamFits(cfg: Config, w: World, m: Meta, t: Row)
    requires Inv(cfg, w) && t in w.db.rows && UploadMatches(t.meta, m) && StillOpen(w.db, m)
    ensures StreamRefusal(w.db, m).None?
  {
  }

  /** The row is the only one with its identity, so it is the one found. */
  lemma FindsRow(cfg: Config, w: World, m: Meta, t: Row)
    requires Inv(cfg, w) && t in w.db.rows && UploadMatches(t.meta, m)
    ensures Lookup(w.db.rows, IdentityOf(m)) == Some(t) && IdentityTaken(w.db.rows, IdentityOf(m))
  {
    InvHistory(cfg, w);
    assert forall r :: r in w.db.rows ==> r in w.db.ever;
    hide Inv, TimesEqual, HistorySound;
    var found := Lookup(w.db.rows, IdentityOf(m));
    assert IdentityOf(t.meta) == IdentityOf(m);
    assert found.Some?;
    SameIdentitySameRow(w.db, found.value, t);
  }

  /** The key is still bound to these inputs, in the operations table too. */
  lemma KeyStays(cfg: Config, db: Db, r: Request)
    requires KeysSound(db) && r.key.Some? && BoundTo(cfg, db.bound, r) && IsActive(db, r.meta.incident)
    ensures r.key.value in db.ops
    ensures Fits(cfg, Binding(db.ops[r.key.value].fingerprint, db.ops[r.key.value].meta), r.meta)
    ensures Reserve(cfg, db, r.key.value, r.meta) == Ok((db, db.ops[r.key.value]))
    ensures forall chunk :: Complete(cfg, db, r.key.value, r.meta, chunk).Ok?
  {
  }

  predicate Advances(pc: Pc, next: Pc, t: Row) {
    OnTrack(next, t) && Rank(next) > Rank(pc)
  }

  lemma UploadCheckAdvances(cfg: Config, db: Db, r: Request, t: Row)
    requires r.pc.Admitted? && !r.relay && cfg.sha(r.body) == r.meta.sha && StreamRefusal(db, r.meta).None?
    ensures Advances(r.pc, AfterUpload(cfg, db, r, true).pc, t)
  {
    hide StreamRefusal;
  }

  lemma LookupAdvances(db: Db, r: Request, t: Row)
    requires r.pc.Replaying? && Lookup(db.rows, IdentityOf(r.meta)) == Some(t) && UploadMatches(t.meta, r.meta)
    ensures Advances(r.pc, AfterLookup(db, r, r.pc.missing, r.pc.different), t)
  {
    hide UploadMatches, Lookup;
  }

  lemma DuplicateAdvances(db: Db, r: Request, t: Row)
    requires r.pc.Reserved? && r.key.Some? && IdentityTaken(db.rows, IdentityOf(r.meta))
    ensures Advances(r.pc, AfterDuplicateCheck(db, r).pc, t)
  {
    hide IdentityTaken;
  }

  lemma IncidentAdvances(db: Db, r: Request, t: Row)
    requires r.pc.Received? && IsActive(db, r.meta.incident) && db.incidents[r.meta.incident].open
    ensures Advances(r.pc, AfterIncident(db, r).pc, t)
  {
  }

  lemma ReadAdvances(cfg: Config, w: World, q: nat, r: Request, l: Label, t: Row)
    requires Inv(cfg, w) && Ready(l, r.pc) && ReadsOnly(l) && Faultless(cfg, w, l)
    requires t in w.db.rows && Retries(cfg, w.db, r, t) && StillOpen(w.db, r.meta) && OnTrack(r.pc, t)
    ensures Advances(r.pc, AfterRead(cfg, w.db, w.blobs, r, l).pc, t)
  {
    hide Inv, StreamRefusal, Lookup, IdentityTaken, UploadMatches, BoundTo, AfterUpload, AfterLookup,
      AfterDuplicateCheck, AfterIncident, AfterQuotaCheck;
    MatchedIncident(cfg, w.db, r, t);
    if l.CheckIncident? {
      IncidentAdvances(w.db, r, t);
    } else if l.CheckUpload? {
      StreamFits(cfg, w, r.meta, t);
      UploadCheckAdvances(cfg, w.db, r, t);
    } else if l.OpenBlob? {
      RowHasBlob(cfg, w, t);
    } else {
      FindsRow(cfg, w, r.meta, t);
      if l.CheckDuplicate? {
        DuplicateAdvances(w.db, r, t);
      } else {
        LookupAdvances(w.db, r, t);
      }
    }
  }

  lemma RowHasBlob(cfg: Config, w: World, t: Row)
    requires Inv(cfg, w) && t in w.db.rows && IsActive(w.db, t.meta.incident)
    ensures t.path in w.blobs
  {
  }

  lemma ReserveAdvances(cfg: Config, w: World, q: nat, r: Request, t: Row)
    requires r.pc.Leased? && r.key.Some? && r.key.value in w.db.ops
    requires Reserve(cfg, w.db, r.key.value, r.meta) == Ok((w.db, w.db.ops[r.key.value]))
    ensures q in NextReserve(cfg, w, q, r, NoFault).reqs
    ensures Advances(r.pc, NextReserve(cfg, w, q, r, NoFault).reqs[q].pc, t)
  {
    hide Reserve;
  }

  lemma CompleteAdvances(cfg: Config, w: World, q: nat, r: Request, t: Row)
    requires r.pc == Opened(t) && r.key.Some? && Complete(cfg, w.db, r.key.value, r.meta, t.id).Ok?
    ensures q in NextComplete(cfg, w, q, r, t.id, Replayed(t), NoFault).reqs
    ensures Advances(r.pc, NextComplete(cfg, w, q, r, t.id, Replayed(t), NoFault).reqs[q].pc, t)
  {
    hide Complete;
  }

  lemma LeaseAdvances(cfg: Config, w: World, r: Request, t: Row)
    requires r.pc.Validated? && !Coordination.Live(w.leases, cfg.leaseKey(r.meta), w.now)
    ensures Advances(r.pc, AfterLease(cfg, w, r, false).pc, t)
  {
  }

  predicate MovedOn(v: World, q: nat, pc: Pc, t: Row) {
    q in v.reqs && Advances(pc, v.reqs[q].pc, t)
  }

  lemma LeaseStep(cfg: Config, w: World, q: nat, r: Request, l: Label, t: Row)
    requires Ready(l, r.pc) && Faultless(cfg, w, l) && q in w.reqs && w.reqs[q] == r && l.q == q
    requires (l.TakeLease? || l.ReleaseLease?) && OnTrack(r.pc, t)
    ensures MovedOn(RequestStep(cfg, w, q, r, l), q, r.pc, t)
  {
    hide AfterLease;
    if l.TakeLease? {
      LeaseAdvances(cfg, w, r, t);
    }
  }

  lemma KeyStep(cfg: Config, w: World, q: nat, r: Request, l: Label, t: Row)
    requires KeysSound(w.db) && BoundTo(cfg, w.db.bound, r) && r.key.Some? && IsActive(w.db, r.meta.incident)
    requires Ready(l, r.pc) && Faultless(cfg, w, l) && (l.ReserveKey? || l.CompleteKey?) && OnTrack(r.pc, t)
    ensures MovedOn(RequestStep(cfg, w, q, r, l), q, r.pc, t)
  {
    KeyStays(cfg, w.db, r);
    hide KeysSound, BoundTo, Reserve, Complete, NextReserve, NextComplete;
    if l.ReserveKey? {
      ReserveAdvances(cfg, w, q, r, t);
    } else {
      CompleteAdvances(cfg, w, q, r, t);
    }
  }

  lemma WriteAdvances(cfg: Config, w: World, q: nat, r: Request, l: Label, t: Row)
    requires Inv(cfg, w) && Ready(l, r.pc) && !ReadsOnly(l) && Faultless(cfg, w, l) && q in w.reqs && w.reqs[q] == r
    requires l.q == q && Retries(cfg, w.db, r, t) && StillOpen(w.db, r.meta) && OnTrack(r.pc, t)
    ensures MovedOn(RequestStep(cfg, w, q, r, l), q, r.pc, t)
  {
    hide Inv, KeysSound, UploadMatches, BoundTo, MovedOn, RequestStep;
    InvKeys(cfg, w);
    if l.TakeLease? || l.ReleaseLease? {
      LeaseStep(cfg, w, q, r, l, t);
    } else {
      KeyStep(cfg, w, q, r, l, t);
    }
  }

  // ------------------------------------------------------------ over the run

  /** A step changes no request but its own, and of its own only where it stands. */
  lemma RequestsStay(cfg: Config, w: World, l: Label, q: nat)
    requires Next(cfg, w, l).Some? && q in w.reqs
    ensures q in Next(cfg, w, l).value.reqs
    ensures !StepOf(l, q) ==> Next(cfg, w, l).value.reqs[q] == w.reqs[q]
    ensures StepOf(l, q) ==> Next(cfg, w, l).value == RequestStep(cfg, w, q, w.reqs[q], l) && Ready(l, w.reqs[q].pc)
  {
    hide RequestStep, CreateStream, CompleteStream, FailStream;
    if !l.Spawn? && IsRequestLabel(l) {
      OnlyOwnRequest(cfg, w, l.q, w.reqs[l.q], l);
    }
  }

  lemma OnlyOwnRequest(cfg: Config, w: World, q: nat, r: Request, l: Label)
    requires Ready(l, r.pc)
    ensures MovesTo(w, RequestStep(cfg, w, q, r, l), q, r)
  {
    hide AfterRead, AfterLease, OnDuplicate, NextReserve, NextInsert, NextComplete, NextCommit;
    if ReadsOnly(l) {
      ReadOwnRequest(cfg, w, r, l);
    } else if l.ReserveKey? {
      ReserveOwnRequest(cfg, w, q, r, l.failing);
    } else if l.InsertRow? {
      InsertOwnRequest(cfg, w, q, r, r.pc.path, l.id, l.failing);
    } else if l.CompleteKey? {
      CompleteOwnRequest(cfg, w, q, r, r.pc.chunk.id,
                         if r.pc.Opened? then Replayed(r.pc.chunk) else Created(r.pc.chunk), l.failing);
    } else if l.CommitBlob? {
      CommitOwnRequest(w, q, r, l.commit);
    } else if l.TakeLease? {
      LeaseOwnRequest(cfg, w, r, l.fault);
    }
  }

  predicate MovesTo(w: World, v: World, q: nat, r: Request) {
    && q in v.reqs
    && v.reqs == w.reqs[q := v.reqs[q]]
    && v.reqs[q] == r.(pc := v.reqs[q].pc, owner := v.reqs[q].owner)
  }

  lemma ReadOwnRequest(cfg: Config, w: World, r: Request, l: Label)
    requires Ready(l, r.pc) && ReadsOnly(l)
    ensures var s := AfterRead(cfg, w.db, w.blobs, r, l); s == r.(pc := s.pc, owner := s.owner)
  {
    hide StreamRefusal, BodyRefusal, OnDuplicate, AfterLookup, QuotaRefuses;
  }

  lemma LeaseOwnRequest(cfg: Config, w: World, r: Request, fault: bool)
    ensures var s := AfterLease(cfg, w, r, fault); s == r.(pc := s.pc, owner := s.owner)
  {
  }

  lemma ReserveOwnRequest(cfg: Config, w: World, q: nat, r: Request, failing: Fault)
    ensures MovesTo(w, NextReserve(cfg, w, q, r, failing), q, r)
  {
    hide Reserve, AfterReserve, ReserveRefusal, MovesTo;
    if r.key.None? {
      PutMoves(w, w, q, r, r.(pc := Reserved));
    } else if failing == FaultBefore {
      PutMoves(w, w, q, r, Say(r, INTERNAL));
    } else {
      match Reserve(cfg, w.db, r.key.value, r.meta)
      case Err(e) => PutMoves(w, w, q, r, Say(r, ReserveRefusal(e)));
      case Ok((db, op)) =>
        PutMoves(w, w.(db := db), q, r, if failing == FaultAfter then Say(r, INTERNAL) else r.(pc := AfterReserve(op)));
    }
  }

  lemma PutMoves(w: World, v: World, q: nat, r: Request, s: Request)
    requires v.reqs == w.reqs && s == r.(pc := s.pc, owner := s.owner)
    ensures MovesTo(w, Put(v, q, s), q, r)
  {
  }

  lemma InsertOwnRequest(cfg: Config, w: World, q: nat, r: Request, path: string, id: nat, failing: Fault)
    ensures MovesTo(w, NextInsert(cfg, w, q, r, path, id, failing), q, r)
  {
    hide CreateChunk, AfterInsertError;
  }

  lemma CompleteOwnRequest(cfg: Config, w: World, q: nat, r: Request, chunk: nat, reply: Reply, failing: Fault)
    ensures MovesTo(w, NextComplete(cfg, w, q, r, chunk, reply, failing), q, r)
  {
    hide Complete, MovesTo;
    if r.key.None? {
      PutMoves(w, w, q, r, Say(r, reply));
    } else if failing == FaultBefore {
      PutMoves(w, w, q, r, Say(r, INTERNAL));
    } else {
      match Complete(cfg, w.db, r.key.value, r.meta, chunk)
      case Err(e) => PutMoves(w, w, q, r, Say(r, if e == IdempotencyConflict then CONFLICT else INTERNAL));
      case Ok(db) => PutMoves(w, w.(db := db), q, r, Say(r, if failing == FaultAfter then INTERNAL else reply));
    }
  }

  lemma CommitOwnRequest(w: World, q: nat, r: Request, commit: Commit)
    ensures MovesTo(w, NextCommit(w, q, r, commit), q, r)
  {
    hide PathOf, OnDuplicate;
  }

  ghost function StepsOf(ls: seq<Label>, q: nat, i: nat, j: nat): nat
    requires i <= j <= |ls|
    decreases j
  {
    if i == j then 0 else StepsOf(ls, q, i, j - 1) + (if StepOf(ls[j - 1], q) then 1 else 0)
  }

  /** The circumstances of a retry between moments `i` and `j` of a run. */
  ghost predicate Undisturbed(cfg: Config, ws: seq<World>, ls: seq<Label>, q: nat, i: nat, j: nat) {
    && i <= j <= |ls| && |ws| == |ls| + 1 && q in ws[i].reqs
    && (forall x :: i <= x <= j ==> StillOpen(ws[x].db, ws[i].reqs[q].meta))
    && (forall x :: i <= x < j && StepOf(ls[x], q) ==> Faultless(cfg, ws[x], ls[x]))
  }

  ghost predicate Progress(cfg: Config, ws: seq<World>, ls: seq<Label>, q: nat, t: Row, i: nat, j: nat)
    requires i <= j <= |ls| && |ws| == |ls| + 1
  {
    && q in ws[j].reqs && t in ws[j].db.rows
    && Retries(cfg, ws[j].db, ws[j].reqs[q], t) && q in ws[i].reqs && ws[j].reqs[q].meta == ws[i].reqs[q].meta
    && OnTrack(ws[j].reqs[q].pc, t)
    && Rank(ws[j].reqs[q].pc) >= StepsOf(ls, q, i, j)
  }

  lemma RowStays(cfg: Config, w: World, v: World, t: Row)
    requires Inv(cfg, w) && Inv(cfg, v) && Later(w, v) && t in w.db.rows && IsActive(v.db, t.meta.incident)
    ensures t in v.db.rows
  {
  }

  lemma RetriesStay(cfg: Config, db: Db, later: Db, r: Request, s: Request, t: Row)
    requires Retries(cfg, db, r, t) && Grows(db.bound, later.bound) && s == r.(pc := s.pc, owner := s.owner)
    ensures Retries(cfg, later, s, t)
  {
  }

  lemma OwnStep(cfg: Config, w: World, l: Label, q: nat, t: Row)
    requires Inv(cfg, w) && q in w.reqs && Ready(l, w.reqs[q].pc) && Faultless(cfg, w, l) && l.q == q
    requires t in w.db.rows && Retries(cfg, w.db, w.reqs[q], t) && StillOpen(w.db, w.reqs[q].meta)
    requires OnTrack(w.reqs[q].pc, t)
    ensures MovedOn(RequestStep(cfg, w, q, w.reqs[q], l), q, w.reqs[q].pc, t)
  {
    hide Inv, AfterRead, Retries, StillOpen, OnTrack, Rank, Faultless;
    if ReadsOnly(l) {
      ReadAdvances(cfg, w, q, w.reqs[q], l, t);
    } else {
      WriteAdvances(cfg, w, q, w.reqs[q], l, t);
    }
  }

  lemma ProgressStep(cfg: Config, ws: seq<World>, ls: seq<Label>, q: nat, t: Row, i: nat, j: nat)
    requires AtomicRun(cfg, ws, ls) && i < j && Undisturbed(cfg, ws, ls, q, i, j)
    requires Progress(cfg, ws, ls, q, t, i, j - 1)
    ensures Progress(cfg, ws, ls, q, t, i, j)
  {
    var w, v, l := ws[j - 1], ws[j], ls[j - 1];
    assert StillOpen(w.db, w.reqs[q].meta) && StillOpen(v.db, w.reqs[q].meta);
    assert StepOf(l, q) ==> Faultless(cfg, w, l);
    RunStep(cfg, ws, ls, j - 1);
    RunInv(cfg, ws, ls, j);
    hide Inv, AtomicRun, Next, Undisturbed, RequestStep, Faultless, OnTrack, Retries;
    StepGrows(cfg, w, l);
    RequestsStay(cfg, w, l, q);
    MatchedIncident(cfg, w.db, w.reqs[q], t);
    RowStays(cfg, w, v, t);
    if StepOf(l, q) {
      OwnStep(cfg, w, l, q, t);
      OnlyOwnRequest(cfg, w, q, w.reqs[q], l);
    }
    RetriesStay(cfg, w.db, v.db, w.reqs[q], v.reqs[q], t);
  }

  lemma MatchedIncident(cfg: Config, db: Db, r: Request, t: Row)
    requires Retries(cfg, db, r, t)
    ensures t.meta.incident == r.meta.incident
  {
  }

  lemma {:induction false} RetryProgress(cfg: Config, ws: seq<World>, ls: seq<Label>, q: nat, t: Row, i: nat, j: nat)
    requires AtomicRun(cfg, ws, ls) && Undisturbed(cfg, ws, ls, q, i, j)
    requires ws[i].reqs[q].pc.Received? && t in ws[i].db.rows && Retries(cfg, ws[i].db, ws[i].reqs[q], t)
    ensures Progress(cfg, ws, ls, q, t, i, j)
    decreases j
  {
    hide Inv, AtomicRun, Retries;
    if i < j {
      RetryProgress(cfg, ws, ls, q, t, i, j - 1);
      ProgressStep(cfg, ws, ls, q, t, i, j);
    }
  }

  /** Once a row exists, a retry with the same key and inputs is never answered
      with anything but a replay of that row, and is answered within eight of its
      own steps; whether the operation was still reserved or already committed,
      whatever other requests do meanwhile, and on either backend. */
  lemma RetryIsReplayed(cfg: Config, ws: seq<World>, ls: seq<Label>, q: nat, t: Row, i: nat, j: nat)
    requires AtomicRun(cfg, ws, ls) && Undisturbed(cfg, ws, ls, q, i, j)
    requires ws[i].reqs[q].pc.Received? && t in ws[i].db.rows && Retries(cfg, ws[i].db, ws[i].reqs[q], t)
    ensures q in ws[j].reqs
    ensures ws[j].reqs[q].pc.Done? || ws[j].reqs[q].pc.Finished? ==> ws[j].reqs[q].pc.reply == Replayed(t)
    ensures StepsOf(ls, q, i, j) >= 8 ==> ws[j].reqs[q].pc.Done? || ws[j].reqs[q].pc.Finished?
  {
    RetryProgress(cfg, ws, ls, q, t, i, j);
    hide Inv, AtomicRun, Retries, Undisturbed;
  }

  /** Every upload that was answered 201 under a key can be retried: the same
      inputs under the same key satisfy what the theorem above asks of a retry. */
  lemma AnsweredUploadCanBeRetried(cfg: Config, w: World, p: nat, r: Request)
    requires Inv(cfg, w) && p in w.reqs && Answered(w.reqs[p]) && w.reqs[p].pc.reply.Created?
    requires !r.relay && r.key.Some? && r.key == w.reqs[p].key && r.meta == w.reqs[p].meta
    requires cfg.sha(r.body) == r.meta.sha
    ensures Retries(cfg, w.db, r, w.reqs[p].pc.reply.chunk.(meta := Stored(cfg.backend, r.meta)))
  {
    InvReply(cfg, w, p);
    hide Inv;
    RetryMatches(cfg.backend, r.meta);
  }

  /** A retry on its way always has a next step. */
  lemma RetryCanMove(cfg: Config, w: World, q: nat, t: Row) returns (l: Label)
    requires q in w.reqs && OnTrack(w.reqs[q].pc, t) && Rank(w.reqs[q].pc) < 8
    requires !Coordination.Live(w.leases, cfg.leaseKey(w.reqs[q].meta), w.now)
    ensures StepOf(l, q) && Next(cfg, w, l).Some? && Faultless(cfg, w, l)
  {
    match w.reqs[q].pc
    case Received => l := CheckIncident(q, false);
    case Admitted => l := CheckUpload(q, false, true);
    case Validated => l := TakeLease(q, false);
    case Leased => l := ReserveKey(q, NoFault);
    case Reserved => l := CheckDuplicate(q, false);
    case Replaying(_, _) => l := FindRow(q, false);
    case Matched(_) => l := OpenBlob(q, false);
    case _ => l := CompleteKey(q, NoFault);
  }

  /** A request rests while others take their steps. */
  lemma {:induction false} RequestRests(cfg: Config, ws: seq<World>, ks: seq<Label>, q: nat, k: nat)
    requires |ws| == |ks| + 1 && k <= |ks| && q in ws[0].reqs
    requires forall x :: 0 <= x < |ks| ==> Next(cfg, ws[x], ks[x]) == Some(ws[x + 1]) && !StepOf(ks[x], q)
    ensures q in ws[k].reqs && ws[k].reqs[q] == ws[0].reqs[q]
  {
    hide Next;
    if k > 0 {
      RequestRests(cfg, ws, ks, q, k - 1);
      assert Next(cfg, ws[k - 1], ks[k - 1]) == Some(ws[k - 1 + 1]);
      RequestsStay(cfg, ws[k - 1], ks[k - 1], q);
    }
  }
}
