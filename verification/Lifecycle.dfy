/** Media streams over whole runs: open, then complete or failed, then frozen. */
module Lifecycle {
  import opened Chunks
  import opened Store
  import opened Protocol
  import opened Invariant
  import opened Safety

  /** A stream of a live incident keeps its media type and leaves only the open state. */
  ghost predicate StreamMoves(db: Db, later: Db, k: (string, string)) {
    k in db.streams && IsActive(later, k.0) ==>
      && k in later.streams
      && later.streams[k].media == db.streams[k].media
      && (db.streams[k].status != StreamOpen ==> later.streams[k] == db.streams[k])
  }

  lemma RequestStreams(cfg: Config, w: World, q: nat, r: Request, l: Label)
    requires Ready(l, r.pc)
    ensures RequestStep(cfg, w, q, r, l).db.streams == w.db.streams
    ensures RequestStep(cfg, w, q, r, l).db.incidents == w.db.incidents
  {
    if l.InsertRow? {
      hide InsertState, IdentityTaken, QuotaRefuses;
    } else {
      hide RequestStep;
      RowsUntouched(cfg, w, q, r, l);
    }
  }

  lemma StreamStep(cfg: Config, w: World, l: Label, k: (string, string))
    requires Next(cfg, w, l).Some?
    ensures StreamMoves(w.db, Next(cfg, w, l).value.db, k)
  {
    hide RequestStep, Contiguous;
    if !l.Spawn? && IsRequestLabel(l) {
      RequestStreams(cfg, w, l.q, w.reqs[l.q], l);
    }
  }

  lemma {:induction false} StreamsMove(cfg: Config, ws: seq<World>, ls: seq<Label>, i: nat, j: nat, k: (string, string))
    requires AtomicRun(cfg, ws, ls) && i <= j <= |ls|
    ensures StreamMoves(ws[i].db, ws[j].db, k)
    decreases j
  {
    hide Next, Inv;
    if i < j && k in ws[i].db.streams {
      StreamsMove(cfg, ws, ls, i, j - 1, k);
      RunStep(cfg, ws, ls, j - 1);
      StreamStep(cfg, ws[j - 1], ls[j - 1], k);
      RunGrows(cfg, ws, ls, i, j - 1);
      RunGrows(cfg, ws, ls, j - 1, j);
      RunInv(cfg, ws, ls, i);
      StreamIncident(cfg, ws[i], k);
    }
  }

  lemma StreamIncident(cfg: Config, w: World, k: (string, string))
    requires Inv(cfg, w) && k in w.db.streams
    ensures k.0 in w.db.incidents
  {
  }

  /** Completion is final: while the incident lives the stream stays complete
      with the same count, its rows are exactly 1..n, and not one row of it is
      added, changed or lost. */
  lemma CompleteStreamsAreFrozen(cfg: Config, ws: seq<World>, ls: seq<Label>, i: nat, j: nat,
                                 incident: string, stream: string, n: nat)
    requires AtomicRun(cfg, ws, ls) && i <= j <= |ls| && IsActive(ws[j].db, incident)
    requires (incident, stream) in ws[i].db.streams
    requires ws[i].db.streams[(incident, stream)].status == StreamComplete(n)
    ensures (incident, stream) in ws[j].db.streams
    ensures ws[j].db.streams[(incident, stream)] == ws[i].db.streams[(incident, stream)]
    ensures Contiguous(ws[j].db.rows, incident, stream, ws[i].db.streams[(incident, stream)].media, n)
    ensures forall r :: InStream(r, incident, stream) ==> (r in ws[i].db.rows <==> r in ws[j].db.rows)
  {
    StreamsMove(cfg, ws, ls, i, j, (incident, stream));
    RunInv(cfg, ws, ls, i);
    RunInv(cfg, ws, ls, j);
    RunGrows(cfg, ws, ls, i, j);
    InvParts(cfg, ws[i]);
    InvParts(cfg, ws[j]);
    hide Inv, AtomicRun, RequestsOk, Exclusive, DoomedSound, Backed, KeysSound, Contiguous;
    var media := ws[i].db.streams[(incident, stream)].media;
    SameRows(ws[i].db, ws[j].db, incident, stream, media, n);
  }

  /** Two row sets that fill the same indexes of one history are the same. */
  lemma SameRows(db: Db, later: Db, incident: string, stream: string, media: string, n: nat)
    requires HistorySound(db) && HistorySound(later) && db.ever <= later.ever
    requires IsActive(db, incident) && IsActive(later, incident)
    requires Contiguous(db.rows, incident, stream, media, n) && Contiguous(later.rows, incident, stream, media, n)
    ensures forall r :: InStream(r, incident, stream) ==> (r in db.rows <==> r in later.rows)
  {
    forall r | InStream(r, incident, stream) && r in later.rows ensures r in db.rows {
      assert IdentityTaken(db.rows, Streamed(incident, stream, r.meta.index));
      var t :| t in db.rows && IdentityOf(t.meta) == Streamed(incident, stream, r.meta.index);
      assert t in later.ever && r in later.ever;
    }
  }

  lemma CompletionStep(cfg: Config, w: World, l: Label, k: (string, string))
    requires Next(cfg, w, l).Some? && k in Next(cfg, w, l).value.db.streams
    requires Next(cfg, w, l).value.db.streams[k].status.StreamComplete?
    ensures || (k in w.db.streams && w.db.streams[k] == Next(cfg, w, l).value.db.streams[k])
            || Next(cfg, w, l).value.db.streams[k].status.expected > 0
  {
    hide RequestStep, Contiguous;
    if !l.Spawn? && IsRequestLabel(l) {
      RequestStreams(cfg, w, l.q, w.reqs[l.q], l);
    }
  }

  /** A completed stream has at least one chunk. */
  lemma {:induction false} CompletedIsPositive(cfg: Config, ws: seq<World>, ls: seq<Label>, i: nat, k: (string, string))
    requires AtomicRun(cfg, ws, ls) && i <= |ls| && k in ws[i].db.streams && ws[i].db.streams[k].status.StreamComplete?
    ensures ws[i].db.streams[k].status.expected > 0
  {
    hide Next, Inv;
    if i > 0 {
      RunStep(cfg, ws, ls, i - 1);
      CompletionStep(cfg, ws[i - 1], ls[i - 1], k);
      if k in ws[i - 1].db.streams && ws[i - 1].db.streams[k] == ws[i].db.streams[k] {
        CompletedIsPositive(cfg, ws, ls, i - 1, k);
      }
    }
  }
}
