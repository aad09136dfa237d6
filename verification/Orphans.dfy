/** A request that stops between its blob commit and its row insert leaves a
    blob without a row. What then is true of that chunk, for good. */
module Orphans {
  import opened Text
  import opened Chunks
  import opened Store
  import opened Protocol
  import opened Invariant
  import opened Safety
  import opened Acceptance
  import Replay

  /** The blob is there, no row ever named it, and no request holds it. */
  ghost predicate Orphan(w: World, path: string) {
    && path in w.blobs
    && (forall r :: r in w.db.ever ==> r.path != path)
    && (forall q :: q in w.reqs && Owns(w.reqs[q].pc) ==> w.reqs[q].pc.path != path)
  }

  // ------------------------------------------------------ how a blob is orphaned

  /** Nobody but the holder of a blob of a live incident has its path. */
  lemma HolderIsAlone(cfg: Config, w: World, q: nat)
    requires Inv(cfg, w) && q in w.reqs && w.reqs[q].pc.Holding? && IsActive(w.db, w.reqs[q].meta.incident)
    ensures w.reqs[q].pc.path in w.blobs
    ensures forall t :: t in w.db.ever ==> t.path != w.reqs[q].pc.path
    ensures forall p :: p in w.reqs && p != q && Owns(w.reqs[p].pc) ==> w.reqs[p].pc.path != w.reqs[q].pc.path
  {
    InvRequest(cfg, w, q);
    InvHistory(cfg, w);
    RollbackIsSafe(cfg, w, q);
    var r := w.reqs[q];
    forall p | p in w.reqs && p != q && Owns(w.reqs[p].pc) ensures w.reqs[p].pc.path != r.pc.path {
      InvRequest(cfg, w, p);
      SamePathSameIncident(w.reqs[p].meta, r.meta);
    }
    hide Inv, RequestsOk, Exclusive, Backed, DoomedSound, KeysSound, StreamsSound;
    forall t | t in w.db.ever ensures t.path != r.pc.path {
      SamePathSameIncident(t.meta, r.meta);
    }
  }

  lemma SamePathSameIncident(m: Meta, n: Meta)
    ensures PathOf(m).Some? && PathOf(m) == PathOf(n) ==> m.incident == n.incident
  {
    if PathOf(m).Some? && PathOf(m) == PathOf(n) {
      PathDeterminesCoordinates(m, n);
    }
  }

  /** A request that holds its blob and stops leaves an orphan. */
  lemma CrashOrphans(cfg: Config, w: World, q: nat)
    requires Inv(cfg, w) && q in w.reqs && w.reqs[q].pc.Holding? && IsActive(w.db, w.reqs[q].meta.incident)
    ensures Next(cfg, w, Crash(q)).Some? && Orphan(Next(cfg, w, Crash(q)).value, w.reqs[q].pc.path)
  {
    hide Inv, Next;
    HolderIsAlone(cfg, w, q);
    CrashIs(cfg, w, q);
  }

  lemma CrashIs(cfg: Config, w: World, q: nat)
    requires q in w.reqs && w.reqs[q].pc.Holding?
    ensures Next(cfg, w, Crash(q)) == Some(Put(w, q, w.reqs[q].(pc := Crashed)))
  {
  }

  // ---------------------------------------------------------- it stays orphaned

  /** A request comes to hold a blob only by placing it where there was none. */
  predicate HoldsFrom(w: World, r: Request, next: Pc) {
    Owns(next) ==> (Owns(r.pc) && r.pc.path == next.path) || next.path !in w.blobs
  }

  predicate HolderOk(w: World, v: World, q: nat, r: Request) {
    q in v.reqs && HoldsFrom(w, r, v.reqs[q].pc)
  }

  lemma PutHolds(w: World, v: World, q: nat, r: Request, s: Request)
    requires HoldsFrom(w, r, s.pc)
    ensures HolderOk(w, Put(v, q, s), q, r)
  {
  }

  lemma CommitHolds(w: World, q: nat, r: Request, commit: Commit)
    ensures HolderOk(w, NextCommit(w, q, r, commit), q, r)
  {
    hide PathOf;
  }

  lemma InsertHolds(cfg: Config, w: World, q: nat, r: Request, path: string, id: nat, failing: Fault)
    requires Owns(r.pc) && r.pc.path == path
    ensures HolderOk(w, NextInsert(cfg, w, q, r, path, id, failing), q, r)
  {
    hide CreateChunk, AfterInsertError;
  }

  lemma ReserveHolds(cfg: Config, w: World, q: nat, r: Request, failing: Fault)
    ensures HolderOk(w, NextReserve(cfg, w, q, r, failing), q, r)
  {
    hide Reserve, ReserveRefusal, HolderOk;
    if r.key.None? {
      PutHolds(w, w, q, r, r.(pc := Reserved));
    } else if failing == FaultBefore {
      PutHolds(w, w, q, r, Say(r, INTERNAL));
    } else {
      match Reserve(cfg, w.db, r.key.value, r.meta)
      case Err(e) => PutHolds(w, w, q, r, Say(r, ReserveRefusal(e)));
      case Ok((db, op)) =>
        PutHolds(w, w.(db := db), q, r, if failing == FaultAfter then Say(r, INTERNAL) else r.(pc := AfterReserve(op)));
    }
  }

  lemma CompleteHolds(cfg: Config, w: World, q: nat, r: Request, chunk: nat, reply: Reply, failing: Fault)
    ensures HolderOk(w, NextComplete(cfg, w, q, r, chunk, reply, failing), q, r)
  {
    hide Complete, HolderOk;
    if r.key.None? {
      PutHolds(w, w, q, r, Say(r, reply));
    } else if failing == FaultBefore {
      PutHolds(w, w, q, r, Say(r, INTERNAL));
    } else {
      match Complete(cfg, w.db, r.key.value, r.meta, chunk)
      case Err(e) => PutHolds(w, w, q, r, Say(r, if e == IdempotencyConflict then CONFLICT else INTERNAL));
      case Ok(db) => PutHolds(w, w.(db := db), q, r, Say(r, if failing == FaultAfter then INTERNAL else reply));
    }
  }

  lemma ReadHolds(cfg: Config, db: Db, blobs: map<string, Bytes>, r: Request, l: Label)
    requires ReadsOnly(l) && Ready(l, r.pc)
    ensures !Owns(AfterRead(cfg, db, blobs, r, l).pc)
  {
    hide IdentityTaken, QuotaRefuses, UploadMatches, Lookup, BodyRefusal, StreamRefusal;
  }

  lemma LeaseHolds(cfg: Config, w: World, r: Request, fault: bool)
    ensures !Owns(AfterLease(cfg, w, r, fault).pc)
  {
  }

  lemma StepHolds(cfg: Config, w: World, q: nat, r: Request, l: Label)
    requires PcOk(cfg, w.db.ever, w.db.bound, r, r.pc) && Ready(l, r.pc)
    ensures HolderOk(w, RequestStep(cfg, w, q, r, l), q, r)
  {
    assert r.pc.RollingBack? ==> !Owns(r.pc.next);
    hide PcOk, HolderOk, AfterRead, AfterLease, NextCommit, NextInsert, NextReserve, NextComplete;
    if ReadsOnly(l) {
      ReadHolds(cfg, w.db, w.blobs, r, l);
      PutHolds(w, w, q, r, AfterRead(cfg, w.db, w.blobs, r, l));
    } else {
      match l
      case CommitBlob(_, commit) => CommitHolds(w, q, r, commit);
      case InsertRow(_, id, failing) => InsertHolds(cfg, w, q, r, r.pc.path, id, failing);
      case ReserveKey(_, failing) => ReserveHolds(cfg, w, q, r, failing);
      case CompleteKey(_, failing) =>
        CompleteHolds(cfg, w, q, r, r.pc.chunk.id,
                      if r.pc.Opened? then Replayed(r.pc.chunk) else Created(r.pc.chunk), failing);
      case TakeLease(_, fault) =>
        LeaseHolds(cfg, w, r, fault);
        PutHolds(w, w.(leases := LeasesTaken(cfg, w, q, r, fault)), q, r, AfterLease(cfg, w, r, fault));
      case ReleaseLease(_, fault) =>
        PutHolds(w, w.(leases := LeasesReleased(cfg, w, q, r, fault)), q, r, r.(pc := Finished(r.pc.reply)));
      case RemoveBlob(_, effective) =>
        PutHolds(w, if effective then w.(blobs := w.blobs - {r.pc.path}) else w, q, r, r.(pc := r.pc.next));
    }
  }

  lemma HoldersStay(cfg: Config, w: World, l: Label, path: string, q: nat)
    requires Inv(cfg, w) && Next(cfg, w, l).Some? && Orphan(w, path)
    requires q in Next(cfg, w, l).value.reqs && Owns(Next(cfg, w, l).value.reqs[q].pc)
    ensures Next(cfg, w, l).value.reqs[q].pc.path != path
  {
    hide Inv, RequestStep, EnvironmentStep, PcOk;
    if l.Spawn? {
    } else if IsRequestLabel(l) {
      InvRequest(cfg, w, l.q);
      StepHolds(cfg, w, l.q, w.reqs[l.q], l);
      Replay.OnlyOwnRequest(cfg, w, l.q, w.reqs[l.q], l);
    } else {
      EnvironmentEver(w, l);
    }
  }

  lemma RowsAvoid(cfg: Config, w: World, l: Label, path: string, r: Row)
    requires Inv(cfg, w) && Next(cfg, w, l).Some? && Atomic(l) && Orphan(w, path) && r in Next(cfg, w, l).value.db.ever
    ensures r.path != path
  {
    hide Inv, HistorySound, RequestStep, Next, PcOk;
    if r !in w.db.ever {
      StepKeeps(cfg, w, l);
      RowsComeFrom(cfg, w, l, r);
      InsertOwns(cfg, w, l);
      InvRequest(cfg, w, l.q);
      RowPath(cfg, Next(cfg, w, l).value, r);
      RetryMatches(cfg.backend, w.reqs[l.q].meta);
    }
  }

  lemma InsertOwns(cfg: Config, w: World, l: Label)
    requires Next(cfg, w, l).Some? && l.InsertRow?
    ensures l.q in w.reqs && Owns(w.reqs[l.q].pc)
  {
    hide RequestStep;
  }

  lemma RowPath(cfg: Config, w: World, r: Row)
    requires Inv(cfg, w) && r in w.db.ever
    ensures PathOf(r.meta) == Some(r.path)
  {
  }

  lemma BlobStays(cfg: Config, w: World, l: Label, path: string)
    requires Inv(cfg, w) && Next(cfg, w, l).Some? && Orphan(w, path)
    ensures path in Next(cfg, w, l).value.blobs
  {
    if path !in Next(cfg, w, l).value.blobs {
      BlobsLeaveBy(cfg, w, l, path);
      InvParts(cfg, w);
      hide Inv, Next;
    }
  }

  lemma OrphanStep(cfg: Config, w: World, l: Label, path: string)
    requires Inv(cfg, w) && Next(cfg, w, l).Some? && Atomic(l) && Orphan(w, path)
    ensures Orphan(Next(cfg, w, l).value, path)
  {
    hide Inv, Next;
    var v := Next(cfg, w, l).value;
    BlobStays(cfg, w, l, path);
    forall r | r in v.db.ever ensures r.path != path {
      RowsAvoid(cfg, w, l, path, r);
    }
    forall q | q in v.reqs && Owns(v.reqs[q].pc) ensures v.reqs[q].pc.path != path {
      HoldersStay(cfg, w, l, path, q);
    }
  }

  lemma {:induction false} OrphanStays(cfg: Config, ws: seq<World>, ls: seq<Label>, i: nat, j: nat, path: string)
    requires AtomicRun(cfg, ws, ls) && i <= j <= |ls| && Orphan(ws[i], path)
    ensures Orphan(ws[j], path)
    decreases j
  {
    hide Inv, Next, Orphan;
    if i < j {
      OrphanStays(cfg, ws, ls, i, j - 1, path);
      RunStep(cfg, ws, ls, j - 1);
      OrphanStep(cfg, ws[j - 1], ls[j - 1], path);
    }
  }

  lemma OrphanUnanswered(cfg: Config, w: World, path: string, q: nat)
    requires Inv(cfg, w) && Orphan(w, path) && q in w.reqs && PathOf(w.reqs[q].meta) == Some(path)
    ensures !Answered(w.reqs[q])
  {
    if Answered(w.reqs[q]) {
      InvReply(cfg, w, q);
      InvHistory(cfg, w);
      hide Inv, TimesEqual;
      RetryMatches(cfg.backend, w.reqs[q].meta);
    }
  }

  // -------------------------------------------------------------- main theorem

  /** Once a request has stopped while it held its blob, the chunk at that path
      is never stored: whatever else happens, no upload to it is ever answered
      with success, no row ever names the blob, and nothing, not even the
      deletion of the incident, takes the blob away. */
  lemma CrashedUploadBlocksItsChunk(cfg: Config, ws: seq<World>, ls: seq<Label>, i: nat, j: nat, q: nat)
    requires AtomicRun(cfg, ws, ls) && i < j <= |ls| && ls[i] == Crash(q)
    requires q in ws[i].reqs && ws[i].reqs[q].pc.Holding? && IsActive(ws[i].db, ws[i].reqs[q].meta.incident)
    ensures var path := ws[i].reqs[q].pc.path;
            && path in ws[j].blobs
            && (forall r :: r in ws[j].db.rows ==> r.path != path)
            && (forall p :: p in ws[j].reqs && PathOf(ws[j].reqs[p].meta) == Some(path) ==> !Answered(ws[j].reqs[p]))
  {
    var path := ws[i].reqs[q].pc.path;
    RunStep(cfg, ws, ls, i);
    CrashOrphans(cfg, ws[i], q);
    OrphanStays(cfg, ws, ls, i + 1, j, path);
    RunInv(cfg, ws, ls, j);
    InvHistory(cfg, ws[j]);
    hide Inv, Next, Run;
    forall p | p in ws[j].reqs && PathOf(ws[j].reqs[p].meta) == Some(path) ensures !Answered(ws[j].reqs[p]) {
      OrphanUnanswered(cfg, ws[j], path, p);
    }
  }

  // ------------------------------------------------------------------ a retry

  /** Reserve to the end of an upload whose blob is there without a row. */
  function RefusedCourse(q: nat, keyed: bool): seq<Label> {
    Course(q, 0)[..7] + (if keyed then [FindRow(q, false)] else [])
  }

  lemma PlaceRefused(cfg: Config, w: World, q: nat, r: Request, path: string) returns (v: World)
    requires Stands(w, q, r, UnderQuota) && PathOf(r.meta) == Some(path) && path in w.blobs
    ensures Next(cfg, w, CommitBlob(q, Commit.Place)) == Some(v) && v.db == w.db && v.blobs == w.blobs
    ensures Stands(v, q, r, if r.key.Some? then Replaying(DUPLICATE, DUPLICATE) else Done(DUPLICATE))
  {
    hide PathOf;
    v := Next(cfg, w, CommitBlob(q, Commit.Place)).value;
  }

  lemma NothingFound(cfg: Config, w: World, q: nat, r: Request) returns (v: World)
    requires Stands(w, q, r, Replaying(DUPLICATE, DUPLICATE)) && !IdentityTaken(w.db.rows, IdentityOf(r.meta))
    ensures Next(cfg, w, FindRow(q, false)) == Some(v) && Stands(v, q, r, Done(DUPLICATE))
  {
    hide UploadMatches;
    var found := Lookup(w.db.rows, IdentityOf(r.meta));
    assert found.Some? ==> IdentityTaken(w.db.rows, IdentityOf(r.meta));
    hide IdentityTaken, Lookup;
    v := Next(cfg, w, FindRow(q, false)).value;
  }

  /** An upload that only the orphan stands in the way of runs to its blob
      commit and is refused as a duplicate, with or without a key. */
  lemma OrphanRefusesUpload(cfg: Config, w: World, q: nat) returns (ws: seq<World>)
    requires q in w.reqs && w.reqs[q].pc.Received?
    requires Admissible(cfg, w.db, w.reqs[q]) && BodyRefusal(cfg, w.reqs[q]).None?
    requires cfg.leaseTtl <= 0 || !Coordination.Live(w.leases, cfg.leaseKey(w.reqs[q].meta), w.now)
    requires PathOf(w.reqs[q].meta).Some? && PathOf(w.reqs[q].meta).value in w.blobs
    ensures var ks := RefusedCourse(q, w.reqs[q].key.Some?);
            && |ws| == |ks| + 1 && ws[0] == w
            && (forall k :: 0 <= k < |ks| ==> Next(cfg, ws[k], ks[k]) == Some(ws[k + 1]))
            && q in ws[|ks|].reqs && ws[|ks|].reqs[q].pc == Done(DUPLICATE) && ws[|ks|].reqs[q].meta == w.reqs[q].meta
  {
    hide Next, Admissible, BodyRefusal, PathOf, Holds, Coordination.Live;
    var r := w.reqs[q].(owner := Owner(w.db, w.reqs[q].meta));
    ws := Approach(cfg, w, q);
    var v := PlaceRefused(cfg, ws[6], q, r, PathOf(r.meta).value);
    ws := ws + [v];
    if r.key.Some? {
      Untaken(cfg, v.db, r);
      var u := NothingFound(cfg, v, q, r);
      ws := ws + [u];
    }
  }

  lemma Untaken(cfg: Config, db: Db, r: Request)
    requires Admissible(cfg, db, r)
    ensures !IdentityTaken(db.rows, IdentityOf(r.meta))
  {
  }

  function CrashCourse(): (ks: seq<Label>)
    ensures |ks| == 8 && ks[7] == Crash(0)
    ensures forall k :: 0 <= k < |ks| ==> Atomic(ks[k]) && !Replay.StepOf(ks[k], 1)
  {
    Course(0, 0)[..7] + [Crash(0)]
  }

  lemma RefusedCourseAtomic(q: nat, keyed: bool)
    ensures forall k :: 0 <= k < |RefusedCourse(q, keyed)| ==> Atomic(RefusedCourse(q, keyed)[k])
  {
  }

  /** Request 0 places its blob and stops there. */
  lemma PlaceAndCrash(cfg: Config, w: World, path: string) returns (vs: seq<World>)
    requires 0 in w.reqs && w.reqs[0].pc.Received? && cfg.leaseTtl <= 0
    requires Admissible(cfg, w.db, w.reqs[0]) && BodyRefusal(cfg, w.reqs[0]).None?
    requires w.reqs[0].owner == Owner(w.db, w.reqs[0].meta)
    requires PathOf(w.reqs[0].meta) == Some(path) && path !in w.blobs
    ensures |vs| == 9 && vs[0] == w
    ensures forall k :: 0 <= k < 8 ==> Next(cfg, vs[k], CrashCourse()[k]) == Some(vs[k + 1])
    ensures 0 in vs[7].reqs && vs[7].reqs[0].pc == Holding(path) && vs[7].reqs[0].meta == w.reqs[0].meta
    ensures vs[7].db.incidents == w.db.incidents && path in vs[8].blobs && Admissible(cfg, vs[8].db, w.reqs[0])
  {
    hide Next, Admissible, PathOf, Holds, BodyRefusal;
    var r := w.reqs[0];
    vs := Approach(cfg, w, 0);
    var w7 := Acceptance.Place(cfg, vs[6], 0, r);
    CrashIs(cfg, w7, 0);
    vs := vs + [w7, Next(cfg, w7, Crash(0)).value];
  }

  lemma SampleHasPath(m: Meta)
    requires m.incident == "i" && m.stream == "" && m.media == "audio"
    ensures PathOf(m).Some?
  {
  }

  /** Such a run exists where no leases are used: commit, crash, and a retry of
      the same upload that is refused as a duplicate of a chunk without a row. */
  lemma OrphanIsReachable(cfg: Config) returns (ws: seq<World>, ls: seq<Label>, path: string)
    requires cfg.leaseTtl <= 0
    ensures AtomicRun(cfg, ws, ls) && Orphan(ws[|ls|], path)
    ensures 1 in ws[|ls|].reqs && PathOf(ws[|ls|].reqs[1].meta) == Some(path) && ws[|ls|].reqs[1].pc == Done(DUPLICATE)
  {
    hide Next, Inv, Admissible, PathOf, Orphan, CrashCourse, RefusedCourse, Atomic, Init;
    var m := Meta("i", "", 0, "audio", 0, 0, "", 0, cfg.sha([]));
    SampleHasPath(m);
    path := PathOf(m).value;
    ws, ls := TwoArrive(cfg, m, None, m, []);
    var w := ws[|ls|];
    LegacyUploadAdmissible(cfg, w.reqs[0]);
    var vs := PlaceAndCrash(cfg, w, path);
    Replay.RequestRests(cfg, vs, CrashCourse(), 1, 8);
    var us := OrphanRefusesUpload(cfg, vs[8], 1);
    RefusedCourseAtomic(1, false);
    ws, ls := Join(cfg, ws, ls, vs, CrashCourse(), path, us, RefusedCourse(1, false));
  }

  /** The two stretches put together, with the orphan between them. */
  lemma Join(cfg: Config, ws: seq<World>, ls: seq<Label>, vs: seq<World>, ks: seq<Label>, path: string,
             us: seq<World>, js: seq<Label>) returns (ts: seq<World>, bs: seq<Label>)
    requires AtomicRun(cfg, ws, ls) && |vs| == |ks| + 1 && vs[0] == ws[|ls|] && |us| == |js| + 1 && us[0] == vs[|ks|]
    requires forall k :: 0 <= k < |ks| ==> Next(cfg, vs[k], ks[k]) == Some(vs[k + 1]) && Atomic(ks[k])
    requires forall k :: 0 <= k < |js| ==> Next(cfg, us[k], js[k]) == Some(us[k + 1]) && Atomic(js[k])
    requires |ks| > 0 && ks[|ks| - 1] == Crash(0) && 0 in vs[|ks| - 1].reqs
    requires vs[|ks| - 1].reqs[0].pc == Holding(path) && IsActive(vs[|ks| - 1].db, vs[|ks| - 1].reqs[0].meta.incident)
    ensures AtomicRun(cfg, ts, bs) && Orphan(ts[|bs|], path) && ts[|bs|] == us[|js|]
  {
    hide Next, Inv, Orphan;
    Continue(cfg, ws, ls, vs, ks);
    ts, bs := ws + vs[1..], ls + ks;
    var at := |bs|;
    RunInv(cfg, ts, bs, at - 1);
    assert ts[at - 1] == vs[|ks| - 1];
    CrashOrphans(cfg, ts[at - 1], 0);
    Continue(cfg, ts, bs, us, js);
    ts, bs := ts + us[1..], bs + js;
    OrphanStays(cfg, ts, bs, at, |bs|, path);
  }
}
