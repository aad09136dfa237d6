/** The protocol does accept uploads: from every state in which an upload is
    admissible its own steps lead to a 201 with the row and the blob in place. */
module Acceptance {
  import opened Text
  import opened Chunks
  import opened Store
  import opened Protocol

  function Owner(db: Db, m: Meta): string {
    if m.incident in db.incidents then db.incidents[m.incident].owner else ""
  }

  /** The key is new, or reserved for these inputs and not yet committed. */
  predicate KeyFree(cfg: Config, db: Db, r: Request) {
    r.key.Some? && r.key.value in db.ops ==>
      var op := db.ops[r.key.value];
      op.chunk.None? && op.fingerprint == cfg.fingerprint(r.meta) && OperationMatches(cfg.backend, op.meta, r.meta)
  }

  /** Nothing in the tables stands in the way of the upload. */
  ghost predicate Admissible(cfg: Config, db: Db, r: Request) {
    && IsActive(db, r.meta.incident) && db.incidents[r.meta.incident].open
    && StreamRefusal(db, r.meta).None? && KeyFree(cfg, db, r)
    && !IdentityTaken(db.rows, IdentityOf(r.meta))
    && !QuotaRefuses(Owner(db, r.meta), CommittedBytes(db.incidents, db.rows, Owner(db, r.meta)),
                     r.meta.size, cfg.quota)
  }

  predicate Stands(w: World, q: nat, r: Request, pc: Pc) {
    q in w.reqs && w.reqs[q] == r.(pc := pc)
  }

  /** The step is enabled and moves request `q` on; it leaves the tables and the
      blobs as they are. */
  ghost predicate ReadsTo(cfg: Config, w: World, l: Label, v: World, q: nat, r: Request, pc: Pc) {
    Next(cfg, w, l) == Some(v) && v.db == w.db && v.blobs == w.blobs && Stands(v, q, r, pc)
  }

  lemma Admit(cfg: Config, w: World, q: nat, r: Request) returns (v: World)
    requires IsActive(w.db, r.meta.incident) && w.db.incidents[r.meta.incident].open
    requires q in w.reqs && w.reqs[q] == r && r.pc.Received?
    ensures ReadsTo(cfg, w, CheckIncident(q, false), v, q, r.(owner := Owner(w.db, r.meta)), Admitted)
    ensures v.leases == w.leases && v.now == w.now
  {
    v := Next(cfg, w, CheckIncident(q, false)).value;
  }

  lemma Validate(cfg: Config, w: World, q: nat, r: Request) returns (v: World)
    requires Stands(w, q, r, Admitted) && StreamRefusal(w.db, r.meta).None? && BodyRefusal(cfg, r).None?
    ensures ReadsTo(cfg, w, CheckUpload(q, false, true), v, q, r, Validated)
    ensures v.leases == w.leases && v.now == w.now
  {
    hide StreamRefusal;
    assert StreamRefusal(w.db, w.reqs[q].meta).None?;
    v := Next(cfg, w, CheckUpload(q, false, true)).value;
  }

  lemma Lease(cfg: Config, w: World, q: nat, r: Request) returns (v: World)
    requires Stands(w, q, r, Validated)
    requires cfg.leaseTtl <= 0 || !Coordination.Live(w.leases, cfg.leaseKey(r.meta), w.now)
    ensures ReadsTo(cfg, w, TakeLease(q, false), v, q, r, Leased)
  {
    v := Next(cfg, w, TakeLease(q, false)).value;
  }

  /** The key, if any, is bound to this upload in the operations table. */
  predicate Holds(cfg: Config, db: Db, r: Request) {
    r.key.Some? ==> r.key.value in db.ops && db.ops[r.key.value].fingerprint == cfg.fingerprint(r.meta)
  }

  lemma ReserveFree(cfg: Config, db: Db, r: Request)
    requires Admissible(cfg, db, r) && r.key.Some?
    ensures Reserve(cfg, db, r.key.value, r.meta).Ok?
    ensures var (later, op) := Reserve(cfg, db, r.key.value, r.meta).value;
            Admissible(cfg, later, r) && Holds(cfg, later, r) && op.chunk.None?
            && later.rows == db.rows && later.incidents == db.incidents && later.streams == db.streams
            && later.ever == db.ever
  {
    RetryMatches(cfg.backend, r.meta);
    hide OperationMatches, IdentityTaken, QuotaRefuses, Stored, UploadMatches, SameUpload, PathOf;
  }

  lemma Bind(cfg: Config, w: World, q: nat, r: Request) returns (v: World)
    requires Admissible(cfg, w.db, r) && Stands(w, q, r, Leased)
    ensures Next(cfg, w, ReserveKey(q, NoFault)) == Some(v) && v.blobs == w.blobs && Stands(v, q, r, Reserved)
    ensures Admissible(cfg, v.db, r) && Holds(cfg, v.db, r) && (r.key.None? ==> v.db.ops == w.db.ops)
    ensures v.db.rows == w.db.rows && v.db.incidents == w.db.incidents && v.db.streams == w.db.streams
    ensures v.db.ever == w.db.ever
  {
    hide Admissible, Reserve;
    if r.key.Some? {
      ReserveFree(cfg, w.db, r);
    }
    v := Next(cfg, w, ReserveKey(q, NoFault)).value;
  }

  lemma Check(cfg: Config, w: World, q: nat, r: Request) returns (v: World)
    requires Admissible(cfg, w.db, r) && Stands(w, q, r, Reserved)
    ensures ReadsTo(cfg, w, CheckDuplicate(q, false), v, q, r, Unseen)
  {
    hide StreamRefusal, KeyFree, IdentityTaken, QuotaRefuses;
    v := Next(cfg, w, CheckDuplicate(q, false)).value;
  }

  lemma Measure(cfg: Config, w: World, q: nat, r: Request) returns (v: World)
    requires Admissible(cfg, w.db, r) && Stands(w, q, r, Unseen) && r.owner == Owner(w.db, r.meta)
    ensures ReadsTo(cfg, w, CheckQuota(q, false), v, q, r, UnderQuota)
  {
    hide StreamRefusal, KeyFree, IdentityTaken, QuotaRefuses;
    v := Next(cfg, w, CheckQuota(q, false)).value;
  }

  lemma Place(cfg: Config, w: World, q: nat, r: Request) returns (v: World)
    requires Stands(w, q, r, UnderQuota) && PathOf(r.meta).Some? && PathOf(r.meta).value !in w.blobs
    ensures Next(cfg, w, CommitBlob(q, Commit.Place)) == Some(v) && v.db == w.db
    ensures v.blobs == w.blobs[PathOf(r.meta).value := r.body] && Stands(v, q, r, Holding(PathOf(r.meta).value))
  {
    hide PathOf;
    v := Next(cfg, w, CommitBlob(q, Commit.Place)).value;
  }

  lemma CreateAdmissible(cfg: Config, db: Db, r: Request, path: string, id: nat)
    requires Admissible(cfg, db, r)
    ensures CreateChunk(cfg, db, r.meta, path, id)
            == Ok(db.(rows := db.rows + [Row(id, Stored(cfg.backend, r.meta), path)],
                      ever := db.ever + {Row(id, Stored(cfg.backend, r.meta), path)}))
  {
    hide KeyFree, IdentityTaken, QuotaRefuses, Stored;
  }

  lemma Insert(cfg: Config, w: World, q: nat, r: Request, path: string, id: nat) returns (v: World)
    requires Admissible(cfg, w.db, r) && Stands(w, q, r, Holding(path)) && FreshId(w.db, InsertRow(q, id, NoFault))
    ensures var row := Row(id, Stored(cfg.backend, r.meta), path);
            && Next(cfg, w, InsertRow(q, id, NoFault)) == Some(v) && v.blobs == w.blobs && v.db.ops == w.db.ops
            && v.db.rows == w.db.rows + [row] && v.db.incidents == w.db.incidents && v.db.streams == w.db.streams
            && Stands(v, q, r, Inserted(row.(meta := r.meta)))
  {
    hide Admissible, CreateChunk, Stored, FreshId;
    CreateAdmissible(cfg, w.db, r, path, id);
    v := Next(cfg, w, InsertRow(q, id, NoFault)).value;
  }

  lemma Conclude(cfg: Config, w: World, q: nat, r: Request, chunk: Row) returns (v: World)
    requires Holds(cfg, w.db, r) && Stands(w, q, r, Inserted(chunk))
    ensures Next(cfg, w, CompleteKey(q, NoFault)) == Some(v) && v.blobs == w.blobs && v.db.rows == w.db.rows
    ensures v.db.incidents == w.db.incidents && v.db.streams == w.db.streams && (r.key.None? ==> v.db.ops == w.db.ops)
    ensures Stands(v, q, r, Done(Created(chunk)))
  {
    v := Next(cfg, w, CompleteKey(q, NoFault)).value;
  }

  lemma OpsHold(cfg: Config, db: Db, later: Db, r: Request)
    requires Holds(cfg, db, r) && later.ops == db.ops
    ensures Holds(cfg, later, r)
  {
  }

  /** Only the inputs and the key of a request decide whether it is admissible. */
  lemma OwnerIrrelevant(cfg: Config, db: Db, r: Request, s: Request)
    requires Admissible(cfg, db, r) && BodyRefusal(cfg, r).None? && s == r.(owner := s.owner)
    ensures Admissible(cfg, db, s) && BodyRefusal(cfg, s).None?
  {
    hide IdentityTaken, QuotaRefuses, StreamRefusal;
  }

  /** The steps of an upload that meets no obstacle. */
  function Course(q: nat, id: nat): seq<Label> {
    [CheckIncident(q, false), CheckUpload(q, false, true), TakeLease(q, false), ReserveKey(q, NoFault),
     CheckDuplicate(q, false), CheckQuota(q, false), CommitBlob(q, Commit.Place), InsertRow(q, id, NoFault),
     CompleteKey(q, NoFault)]
  }

  /** An admissible upload, direct or relayed, with or without a key, is created:
      its nine own steps are enabled one after the other, and end in a 201 for
      a new row whose blob holds the uploaded bytes. */
  lemma AdmissibleUploadIsCreated(cfg: Config, w: World, q: nat, id: nat) returns (ws: seq<World>)
    requires q in w.reqs && w.reqs[q].pc.Received? && FreshId(w.db, InsertRow(q, id, NoFault))
    requires Admissible(cfg, w.db, w.reqs[q]) && BodyRefusal(cfg, w.reqs[q]).None?
    requires cfg.leaseTtl <= 0 || !Coordination.Live(w.leases, cfg.leaseKey(w.reqs[q].meta), w.now)
    requires PathOf(w.reqs[q].meta).Some? && PathOf(w.reqs[q].meta).value !in w.blobs
    ensures |ws| == 10 && ws[0] == w
    ensures forall k :: 0 <= k < 9 ==> Next(cfg, ws[k], Course(q, id)[k]) == Some(ws[k + 1])
    ensures var m, path := w.reqs[q].meta, PathOf(w.reqs[q].meta).value;
            var row := Row(id, Stored(cfg.backend, m), path);
            && q in ws[9].reqs && ws[9].reqs[q].pc == Done(Created(row.(meta := m)))
            && ws[9].db.incidents == w.db.incidents && ws[9].db.streams == w.db.streams
            && (w.reqs[q].key.None? ==> ws[9].db.ops == w.db.ops)
            && ws[9].db.rows == w.db.rows + [row] && ws[9].blobs == w.blobs[path := w.reqs[q].body]
  {
    hide Next, Admissible, BodyRefusal, PathOf, Stored, Holds;
    var r := w.reqs[q].(owner := Owner(w.db, w.reqs[q].meta));
    OwnerIrrelevant(cfg, w.db, w.reqs[q], r);
    var path := PathOf(r.meta).value;
    var vs := Approach(cfg, w, q);
    var w7 := Place(cfg, vs[6], q, r);
    var w8 := Insert(cfg, w7, q, r, path, id);
    OpsHold(cfg, w7.db, w8.db, r);
    var w9 := Conclude(cfg, w8, q, r, Row(id, r.meta, path));
    ws := vs + [w7, w8, w9];
  }

  /** The six steps of such an upload before it touches the blob store. */
  lemma Approach(cfg: Config, w: World, q: nat) returns (ws: seq<World>)
    requires q in w.reqs && w.reqs[q].pc.Received?
    requires Admissible(cfg, w.db, w.reqs[q]) && BodyRefusal(cfg, w.reqs[q]).None?
    requires cfg.leaseTtl <= 0 || !Coordination.Live(w.leases, cfg.leaseKey(w.reqs[q].meta), w.now)
    ensures |ws| == 7 && ws[0] == w
    ensures forall k :: 0 <= k < 6 ==> Next(cfg, ws[k], Course(q, 0)[k]) == Some(ws[k + 1])
    ensures var r, v := w.reqs[q].(owner := Owner(w.db, w.reqs[q].meta)), ws[6];
            && Stands(v, q, r, UnderQuota) && Admissible(cfg, v.db, r) && Holds(cfg, v.db, r)
            && v.blobs == w.blobs && v.db.rows == w.db.rows && v.db.ever == w.db.ever
            && (r.key.None? ==> v.db.ops == w.db.ops)
            && v.db.incidents == w.db.incidents && v.db.streams == w.db.streams
  {
    hide Next, Admissible, BodyRefusal, StreamRefusal, Holds, Coordination.Live;
    AdmissibleParts(cfg, w.db, w.reqs[q]);
    var r := w.reqs[q].(owner := Owner(w.db, w.reqs[q].meta));
    OwnerIrrelevant(cfg, w.db, w.reqs[q], r);
    var w1 := Admit(cfg, w, q, w.reqs[q]);
    var w2 := Validate(cfg, w1, q, r);
    var w3 := Lease(cfg, w2, q, r);
    var w4 := Bind(cfg, w3, q, r);
    var w5 := Check(cfg, w4, q, r);
    var w6 := Measure(cfg, w5, q, r);
    ws := [w, w1, w2, w3, w4, w5, w6];
  }

  lemma AdmissibleParts(cfg: Config, db: Db, r: Request)
    requires Admissible(cfg, db, r)
    ensures IsActive(db, r.meta.incident) && db.incidents[r.meta.incident].open && StreamRefusal(db, r.meta).None?
  {
  }

  // ------------------------------------------------------------- first states

  /** A server with one legacy incident, and these requests. */
  function LegacyWorld(reqs: map<nat, Request>): World {
    World(Db(map["i" := Incident(true, Active, "")], map[], [], map[], {}, map[]), map[], map[], 0, reqs, map[], map[])
  }

  /** A first upload to it arrives. */
  lemma UploadArrives(cfg: Config, key: Option<string>, m: Meta, body: Bytes) returns (ws: seq<World>, ls: seq<Label>)
    requires m.size == |body|
    ensures Run(cfg, ws, ls) && (forall i :: 0 <= i < |ls| ==> Atomic(ls[i]))
    ensures ws[|ls|] == LegacyWorld(map[0 := Request(false, key, m, body, 0, "", Received)])
  {
    var empty := World(Db(map[], map[], [], map[], {}, map[]), map[], map[], 0, map[], map[], map[]);
    ws := [empty, LegacyWorld(map[]), LegacyWorld(map[0 := Request(false, key, m, body, 0, "", Received)])];
    ls := [NewIncident("i", ""), Spawn(0, false, key, m, body, 0)];
    assert Next(cfg, ws[0], ls[0]) == Some(ws[1]);
    assert Next(cfg, ws[1], ls[1]) == Some(ws[2]);
  }

  /** Two uploads arrive, the second perhaps under a key. */
  lemma TwoArrive(cfg: Config, m: Meta, key: Option<string>, n: Meta, body: Bytes)
    returns (ws: seq<World>, ls: seq<Label>)
    requires m.size == |body| && n.size == |body|
    ensures AtomicRun(cfg, ws, ls)
    ensures ws[|ls|] == LegacyWorld(map[0 := Request(false, None, m, body, 0, "", Received),
                                        1 := Request(false, key, n, body, 0, "", Received)])
  {
    ws, ls := UploadArrives(cfg, None, m, body);
    var r, s := Request(false, None, m, body, 0, "", Received), Request(false, key, n, body, 0, "", Received);
    var w, l := LegacyWorld(map[0 := r, 1 := s]), Spawn(1, false, key, n, body, 0);
    assert map[0 := r][1 := s] == map[0 := r, 1 := s];
    assert Next(cfg, ws[|ls|], l) == Some(w);
    hide Next;
    Continue(cfg, ws, ls, [ws[|ls|], w], [l]);
    ws, ls := ws + [w], ls + [l];
  }

  /** Without an owner no quota applies, so nothing stands in its way. */
  lemma LegacyUploadAdmissible(cfg: Config, r: Request)
    requires r.meta.incident == "i" && r.meta.stream == ""
    ensures Admissible(cfg, LegacyWorld(map[0 := r]).db, r)
  {
  }

  /** Steps that follow each other from the end of a run continue the run. */
  lemma {:induction false} Continue(cfg: Config, ws: seq<World>, ls: seq<Label>, vs: seq<World>, ks: seq<Label>)
    requires Run(cfg, ws, ls) && |vs| == |ks| + 1 && vs[0] == ws[|ls|]
    requires forall k :: 0 <= k < |ks| ==> Next(cfg, vs[k], ks[k]) == Some(vs[k + 1])
    ensures Run(cfg, ws + vs[1..], ls + ks) && (ws + vs[1..])[|ls + ks|] == vs[|ks|]
  {
    hide Next;
    var us, js := ws + vs[1..], ls + ks;
    forall i | 0 <= i < |js| ensures Next(cfg, us[i], js[i]) == Some(us[i + 1]) {
      if i >= |ls| {
        assert us[i] == vs[i - |ls|] && us[i + 1] == vs[i - |ls| + 1];
      }
    }
  }
}
