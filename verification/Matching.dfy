/** An upload under a new key that compares equal to a stored row is replayed,
    even where the comparison is wrong about the instants. */
module Matching {
  import opened Text
  import opened Chunks
  import opened Store
  import opened Protocol
  import opened Invariant
  import opened Safety
  import opened Acceptance
  import opened Replay

  /** Row `t` is what an upload with these inputs finds, and its blob is there. */
  ghost predicate Finds(w: World, m: Meta, t: Row) {
    && IdentityTaken(w.db.rows, IdentityOf(m)) && Lookup(w.db.rows, IdentityOf(m)) == Some(t)
    && UploadMatches(t.meta, m) && t.path in w.blobs
  }

  lemma FindsStays(w: World, v: World, m: Meta, t: Row)
    requires Finds(w, m, t) && v.db.rows == w.db.rows && v.blobs == w.blobs
    ensures Finds(v, m, t)
  {
  }

  /** The first reservation of a key, whatever rows there are. */
  lemma BindNew(cfg: Config, w: World, q: nat, r: Request) returns (v: World)
    requires Stands(w, q, r, Leased) && r.key.Some? && r.key.value !in w.db.ops && IsActive(w.db, r.meta.incident)
    ensures Next(cfg, w, ReserveKey(q, NoFault)) == Some(v) && v.blobs == w.blobs && Stands(v, q, r, Reserved)
    ensures Holds(cfg, v.db, r) && v.db.rows == w.db.rows
  {
    hide OperationMatches, Stored;
    v := Next(cfg, w, ReserveKey(q, NoFault)).value;
  }

  lemma Duplicate(cfg: Config, w: World, q: nat, r: Request, t: Row) returns (v: World)
    requires Stands(w, q, r, Reserved) && r.key.Some? && Finds(w, r.meta, t)
    ensures ReadsTo(cfg, w, CheckDuplicate(q, false), v, q, r, Replaying(DUPLICATE, DUPLICATE))
  {
    hide IdentityTaken, Lookup, UploadMatches;
    v := Next(cfg, w, CheckDuplicate(q, false)).value;
  }

  lemma Find(cfg: Config, w: World, q: nat, r: Request, t: Row) returns (v: World)
    requires Stands(w, q, r, Replaying(DUPLICATE, DUPLICATE)) && Finds(w, r.meta, t)
    ensures ReadsTo(cfg, w, FindRow(q, false), v, q, r, Matched(t))
  {
    hide IdentityTaken, Lookup, UploadMatches;
    v := Next(cfg, w, FindRow(q, false)).value;
  }

  lemma Open(cfg: Config, w: World, q: nat, r: Request, t: Row) returns (v: World)
    requires Stands(w, q, r, Matched(t)) && Finds(w, r.meta, t)
    ensures ReadsTo(cfg, w, OpenBlob(q, false), v, q, r, Opened(t))
  {
    hide IdentityTaken, Lookup, UploadMatches;
    v := Next(cfg, w, OpenBlob(q, false)).value;
  }

  lemma Answer(cfg: Config, w: World, q: nat, r: Request, t: Row) returns (v: World)
    requires Stands(w, q, r, Opened(t)) && Holds(cfg, w.db, r)
    ensures Next(cfg, w, CompleteKey(q, NoFault)) == Some(v) && Stands(v, q, r, Done(Replayed(t)))
  {
    v := Next(cfg, w, CompleteKey(q, NoFault)).value;
  }

  function ReplayCourse(q: nat): (ks: seq<Label>)
    ensures forall k :: 0 <= k < |ks| ==> Atomic(ks[k])
  {
    [CheckIncident(q, false), CheckUpload(q, false, true), TakeLease(q, false), ReserveKey(q, NoFault),
     CheckDuplicate(q, false), FindRow(q, false), OpenBlob(q, false), CompleteKey(q, NoFault)]
  }

  lemma MatchFinds(cfg: Config, w: World, m: Meta, t: Row)
    requires Inv(cfg, w) && t in w.db.rows && UploadMatches(t.meta, m) && StillOpen(w.db, m)
    ensures Finds(w, m, t) && StreamRefusal(w.db, m).None?
  {
    hide Inv, StreamRefusal, TimesEqual;
    FindsRow(cfg, w, m, t);
    StreamFits(cfg, w, m, t);
    RowHasBlob(cfg, w, t);
  }

  /** In every reachable state, a direct upload under a key not used before that
      matches a stored row is answered with that row after eight own steps. */
  lemma MatchingUploadIsReplayed(cfg: Config, w: World, q: nat, t: Row) returns (ws: seq<World>)
    requires Inv(cfg, w) && q in w.reqs && w.reqs[q].pc.Received? && BodyRefusal(cfg, w.reqs[q]).None?
    requires w.reqs[q].key.Some? && w.reqs[q].key.value !in w.db.ops
    requires t in w.db.rows && UploadMatches(t.meta, w.reqs[q].meta) && StillOpen(w.db, w.reqs[q].meta)
    requires cfg.leaseTtl <= 0 || !Coordination.Live(w.leases, cfg.leaseKey(w.reqs[q].meta), w.now)
    ensures |ws| == 9 && ws[0] == w
    ensures forall k :: 0 <= k < 8 ==> Next(cfg, ws[k], ReplayCourse(q)[k]) == Some(ws[k + 1])
    ensures q in ws[8].reqs
    ensures ws[8].reqs[q] == w.reqs[q].(pc := Done(Replayed(t)), owner := Owner(w.db, w.reqs[q].meta))
  {
    hide Inv, Next, BodyRefusal, StreamRefusal, UploadMatches, Finds, Holds, Coordination.Live;
    MatchFinds(cfg, w, w.reqs[q].meta, t);
    var r := w.reqs[q].(owner := Owner(w.db, w.reqs[q].meta));
    BodySame(cfg, w.reqs[q], r);
    var w1 := Admit(cfg, w, q, w.reqs[q]);
    var w2 := Validate(cfg, w1, q, r);
    var w3 := Acceptance.Lease(cfg, w2, q, r);
    var w4 := BindNew(cfg, w3, q, r);
    FindsStays(w, w4, r.meta, t);
    var w5 := Duplicate(cfg, w4, q, r, t);
    FindsStays(w4, w5, r.meta, t);
    var w6 := Find(cfg, w5, q, r, t);
    FindsStays(w5, w6, r.meta, t);
    var w7 := Open(cfg, w6, q, r, t);
    var w8 := Answer(cfg, w7, q, r, t);
    ws := [w, w1, w2, w3, w4, w5, w6, w7, w8];
  }

  lemma BodySame(cfg: Config, r: Request, s: Request)
    requires BodyRefusal(cfg, r).None? && s == r.(owner := s.owner)
    ensures BodyRefusal(cfg, s).None?
  {
  }

  // ----------------------------------------------------------- a witness run

  const YEAR_1700: int := -8520336000 * 1000000000
  const YEAR_2000: int := 946684800 * 1000000000

  /** The same chunk, recorded at this instant. */
  function RecordedAt(cfg: Config, t: int): Meta {
    Meta("i", "", 0, "audio", t, t, "", 0, cfg.sha([]))
  }

  lemma CenturiesMatch(cfg: Config)
    ensures UploadMatches(Stored(cfg.backend, RecordedAt(cfg, YEAR_1700)), RecordedAt(cfg, YEAR_2000))
    ensures !SameUpload(Stored(cfg.backend, RecordedAt(cfg, YEAR_1700)), RecordedAt(cfg, YEAR_2000))
    ensures PathOf(RecordedAt(cfg, YEAR_1700)).Some?
  {
    TimesEqualExactly(StoreTime(cfg.backend, YEAR_1700), YEAR_2000);
  }

  function RestingCourse(): (ks: seq<Label>)
    ensures ks == Course(0, 0) && forall k :: 0 <= k < |ks| ==> Atomic(ks[k]) && !StepOf(ks[k], 1)
  {
    Course(0, 0)
  }

  /** A chunk recorded in 1700 is stored; then the chunk recorded in 2000, under
      a new key and otherwise alike, is answered with it, where no leases are used. */
  lemma WrongReplayIsReachable(cfg: Config) returns (ws: seq<World>, ls: seq<Label>)
    requires cfg.leaseTtl <= 0
    ensures AtomicRun(cfg, ws, ls) && 1 in ws[|ls|].reqs
    ensures var r := ws[|ls|].reqs[1];
            r.pc.Done? && r.pc.reply.Replayed? && !SameUpload(r.pc.reply.chunk.meta, r.meta)
  {
    hide Next, Inv, Admissible, PathOf, Atomic, RestingCourse, UploadMatches, SameUpload, Stored, Init;
    var m, n := RecordedAt(cfg, YEAR_1700), RecordedAt(cfg, YEAR_2000);
    CenturiesMatch(cfg);
    ws, ls := TwoArrive(cfg, m, Some("k"), n, []);
    LegacyUploadAdmissible(cfg, ws[|ls|].reqs[0]);
    var vs := AdmissibleUploadIsCreated(cfg, ws[|ls|], 0, 0);
    RequestRests(cfg, vs, RestingCourse(), 1, 9);
    Continue(cfg, ws, ls, vs, RestingCourse());
    ws, ls := ws + vs[1..], ls + RestingCourse();
    RunInv(cfg, ws, ls, |ls|);
    var row := Row(0, Stored(cfg.backend, m), PathOf(m).value);
    assert ws[|ls|] == vs[9] && row in vs[9].db.rows;
    var us := MatchingUploadIsReplayed(cfg, vs[9], 1, row);
    Continue(cfg, ws, ls, us, ReplayCourse(1));
    ws, ls := ws + us[1..], ls + ReplayCourse(1);
  }
}
