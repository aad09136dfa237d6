/** What the protocol's safety rests on, and what the rollback never meets. */
module Ambiguity {
  import opened Text
  import opened Keys
  import opened Chunks
  import opened Store
  import opened Protocol
  import opened Invariant
  import opened Safety

  /** Once a request has created the blob, CreateChunk cannot report a
      duplicate: the unique index is never what stops it. */
  lemma HolderIsNeverDuplicate(cfg: Config, ws: seq<World>, ls: seq<Label>, i: nat, q: nat, id: nat)
    requires AtomicRun(cfg, ws, ls) && i <= |ls| && q in ws[i].reqs && ws[i].reqs[q].pc.Holding?
    ensures CreateChunk(cfg, ws[i].db, ws[i].reqs[q].meta, ws[i].reqs[q].pc.path, id) != Err(Duplicate)
  {
    RunInv(cfg, ws, ls, i);
    InvRequest(cfg, ws[i], q);
    var db, m := ws[i].db, ws[i].reqs[q].meta;
    if InsertState(db, m).Ok? && IdentityTaken(db.rows, IdentityOf(m)) {
      var t :| t in db.rows && IdentityOf(t.meta) == IdentityOf(m);
      SamePath(cfg, ws[i], m, t);
    }
  }

  lemma SamePath(cfg: Config, w: World, m: Meta, t: Row)
    requires Inv(cfg, w) && InsertState(w.db, m).Ok?
    requires t in w.db.rows && IdentityOf(t.meta) == IdentityOf(m) && PathOf(m).Some?
    ensures PathOf(m) == Some(t.path)
  {
    InvParts(cfg, w);
    hide Inv, RequestsOk, Exclusive, Backed, DoomedSound, StoredBlobPath;
    assert t.meta.media == m.media;
    assert PathOf(t.meta) == PathOf(m);
  }

  /** The world after an insert, and after the rollback the handler then makes. */
  function AfterInsert(cfg: Config, w: World, q: nat, id: nat, failing: Fault): World
    requires q in w.reqs && w.reqs[q].pc.Holding?
  {
    var v := NextInsert(cfg, w, q, w.reqs[q], w.reqs[q].pc.path, id, failing);
    var r := v.reqs[q];
    if r.pc.RollingBack? then NextRemove(v, q, r, r.pc.path, r.pc.next, true) else v
  }

  /** An insert that can succeed leaves a row without a blob exactly when its
      transaction committed and was still reported as failed: the handler then
      rolls back the blob of a live row. */
  lemma InsertBackedIff(cfg: Config, w: World, q: nat, id: nat, failing: Fault)
    requires Inv(cfg, w) && q in w.reqs && w.reqs[q].pc.Holding? && forall t :: t in w.db.ever ==> t.id != id
    requires CreateChunk(cfg, w.db, w.reqs[q].meta, w.reqs[q].pc.path, id).Ok?
    ensures Backed(cfg, AfterInsert(cfg, w, q, id, failing).db, AfterInsert(cfg, w, q, id, failing).blobs)
            <==> failing != FaultAfter
  {
    hide Inv;
    var r := w.reqs[q];
    var row := InsertedRow(cfg, r.meta, r.pc.path, id);
    var v := AfterInsert(cfg, w, q, id, failing);
    if failing == FaultAfter {
      assert row in v.db.rows && IsActive(v.db, row.meta.incident) && row.path !in v.blobs;
    } else {
      InsertKeeps(cfg, w, q, r, id, failing);
      var u := NextInsert(cfg, w, q, r, r.pc.path, id, failing);
      if u.reqs[q].pc.RollingBack? {
        RemoveKeeps(cfg, u, q, u.reqs[q], true);
      }
      InvParts(cfg, v);
    }
  }

  // ----------------------------------------------------------- a witness run

  const SAMPLE: Meta := Meta("i", "", 0, "audio", 0, 0, "", 0, "")

  function SampleConfig(): Config {
    Config((b: Bytes) => "", (k: string) => k, (m: Meta) => "", (m: Meta) => "", Sqlite, 0, 0)
  }

  function SampleRequest(pc: Pc): Request {
    Request(false, None, SAMPLE, [], 0, "", pc)
  }

  function SampleWorld(pc: Pc): World {
    World(Db(map["i" := Incident(true, Active, "")], map[], [], map[], {}, map[]), map[], map[], 0,
          map[0 := SampleRequest(pc)], map[], map[])
  }

  function Empty(): World {
    World(Db(map[], map[], [], map[], {}, map[]), map[], map[], 0, map[], map[], map[])
  }

  function SamplePath(): string {
    PathOf(SAMPLE).value
  }

  function Held(): World {
    SampleWorld(Holding(SamplePath())).(blobs := map[SamplePath() := []])
  }

  function Lost(): World {
    Held().(db := WithRow(Held().db, Row(0, SAMPLE, SamplePath())),
            reqs := map[0 := SampleRequest(RollingBack(SamplePath(), Done(INTERNAL)))])
  }

  function End(): World {
    Lost().(blobs := map[], reqs := map[0 := SampleRequest(Done(INTERNAL))])
  }

  lemma PutSample(w: World, pc: Pc, next: Pc)
    requires w.reqs == map[0 := SampleRequest(pc)]
    ensures Put(w, 0, SampleRequest(next)) == w.(reqs := map[0 := SampleRequest(next)])
  {
    assert map[0 := SampleRequest(pc)][0 := SampleRequest(next)] == map[0 := SampleRequest(next)];
  }

  /** One more step at the end of a run. */
  lemma Extend(cfg: Config, ws: seq<World>, ls: seq<Label>, l: Label, w: World)
    requires Run(cfg, ws, ls) && Next(cfg, ws[|ls|], l) == Some(w)
    ensures Run(cfg, ws + [w], ls + [l]) && (ws + [w])[|ls + [l]|] == w
  {
    hide Next;
  }

  lemma SampleStarts() returns (ws: seq<World>, ls: seq<Label>)
    ensures Run(SampleConfig(), ws, ls) && ws[|ls|] == SampleWorld(Received)
  {
    var cfg := SampleConfig();
    var open := Empty().(db := Empty().db.(incidents := map["i" := Incident(true, Active, "")]));
    ws, ls := [Empty()], [];
    Extend(cfg, ws, ls, NewIncident("i", ""), open);
    ws, ls := ws + [open], ls + [NewIncident("i", "")];
    Extend(cfg, ws, ls, Spawn(0, false, None, SAMPLE, [], 0), SampleWorld(Received));
    ws, ls := ws + [SampleWorld(Received)], ls + [Spawn(0, false, None, SAMPLE, [], 0)];
  }

  /** The label that takes the sample request from one point to the next. */
  lemma SampleStep(pc: Pc, l: Label, next: Pc)
    requires || (pc.Received? && l == CheckIncident(0, false) && next == Admitted)
             || (pc.Admitted? && l == CheckUpload(0, false, true) && next == Validated)
             || (pc.Validated? && l == TakeLease(0, false) && next == Leased)
             || (pc.Leased? && l == ReserveKey(0, NoFault) && next == Reserved)
             || (pc.Reserved? && l == CheckDuplicate(0, false) && next == Unseen)
             || (pc.Unseen? && l == CheckQuota(0, false) && next == UnderQuota)
    ensures Next(SampleConfig(), SampleWorld(pc), l) == Some(SampleWorld(next))
  {
    hide PathOf, NextCommit, NextInsert, NextRemove, NextComplete;
    PutSample(SampleWorld(pc), pc, next);
  }

  lemma SampleMoves(pc: Pc, l: Label, next: Pc, ws: seq<World>, ls: seq<Label>) returns (vs: seq<World>, ks: seq<Label>)
    requires Run(SampleConfig(), ws, ls) && ws[|ls|] == SampleWorld(pc)
    requires Next(SampleConfig(), SampleWorld(pc), l) == Some(SampleWorld(next))
    ensures Run(SampleConfig(), vs, ks) && vs[|ks|] == SampleWorld(next)
  {
    hide Next, SampleConfig, SampleWorld;
    Extend(SampleConfig(), ws, ls, l, SampleWorld(next));
    vs, ks := ws + [SampleWorld(next)], ls + [l];
  }

  lemma SampleReady() returns (ws: seq<World>, ls: seq<Label>)
    ensures Run(SampleConfig(), ws, ls) && ws[|ls|] == SampleWorld(UnderQuota)
  {
    hide Next, SampleConfig, SampleWorld, Run;
    ws, ls := SampleStarts();
    SampleStep(Received, CheckIncident(0, false), Admitted);
    ws, ls := SampleMoves(Received, CheckIncident(0, false), Admitted, ws, ls);
    SampleStep(Admitted, CheckUpload(0, false, true), Validated);
    ws, ls := SampleMoves(Admitted, CheckUpload(0, false, true), Validated, ws, ls);
    SampleStep(Validated, TakeLease(0, false), Leased);
    ws, ls := SampleMoves(Validated, TakeLease(0, false), Leased, ws, ls);
    SampleStep(Leased, ReserveKey(0, NoFault), Reserved);
    ws, ls := SampleMoves(Leased, ReserveKey(0, NoFault), Reserved, ws, ls);
    SampleStep(Reserved, CheckDuplicate(0, false), Unseen);
    ws, ls := SampleMoves(Reserved, CheckDuplicate(0, false), Unseen, ws, ls);
    SampleStep(Unseen, CheckQuota(0, false), UnderQuota);
    ws, ls := SampleMoves(Unseen, CheckQuota(0, false), UnderQuota, ws, ls);
  }

  lemma SampleCommits()
    ensures Next(SampleConfig(), SampleWorld(UnderQuota), CommitBlob(0, Place)) == Some(Held())
  {
    hide StoredBlobPath;
    var placed := SampleWorld(UnderQuota).(blobs := map[SamplePath() := []]);
    PutSample(placed, UnderQuota, Holding(SamplePath()));
  }

  lemma SampleInserts()
    ensures Next(SampleConfig(), Held(), InsertRow(0, 0, FaultAfter)) == Some(Lost())
  {
    hide StoredBlobPath;
    PutSample(Held().(db := Lost().db), Holding(SamplePath()), RollingBack(SamplePath(), Done(INTERNAL)));
  }

  lemma SampleRollsBack()
    ensures Next(SampleConfig(), Lost(), RemoveBlob(0, true)) == Some(End())
  {
    hide StoredBlobPath;
    PutSample(Lost().(blobs := map[]), RollingBack(SamplePath(), Done(INTERNAL)), Done(INTERNAL));
    assert Lost().blobs - {SamplePath()} == map[];
  }

  /** Such a run exists: one legacy upload whose commit is reported as failed. */
  lemma LostBlobIsReachable() returns (ws: seq<World>, ls: seq<Label>)
    ensures Run(SampleConfig(), ws, ls)
    ensures !Backed(SampleConfig(), ws[|ls|].db, ws[|ls|].blobs)
  {
    var row := Row(0, SAMPLE, SamplePath());
    assert row in End().db.rows && IsActive(End().db, "i") && row.path !in End().blobs;
    hide Next, SampleConfig, SampleWorld, Held, Lost, End;
    ws, ls := SampleReady();
    SampleCommits();
    Extend(SampleConfig(), ws, ls, CommitBlob(0, Place), Held());
    ws, ls := ws + [Held()], ls + [CommitBlob(0, Place)];
    SampleInserts();
    Extend(SampleConfig(), ws, ls, InsertRow(0, 0, FaultAfter), Lost());
    ws, ls := ws + [Lost()], ls + [InsertRow(0, 0, FaultAfter)];
    SampleRollsBack();
    Extend(SampleConfig(), ws, ls, RemoveBlob(0, true), End());
    ws, ls := ws + [End()], ls + [RemoveBlob(0, true)];
  }
}
