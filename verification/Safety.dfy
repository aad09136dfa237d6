/** Safety of the upload protocol over whole runs. */
module Safety {
  import opened Text
  import opened Chunks
  import opened Store
  import opened Protocol
  import opened Invariant

  // ------------------------------------------------------- invariance on runs

  lemma RequestStepKeeps(cfg: Config, w: World, q: nat, r: Request, l: Label)
    requires Inv(cfg, w) && q in w.reqs && w.reqs[q] == r && Ready(l, r.pc) && FreshId(w.db, l) && Atomic(l)
    ensures Inv(cfg, RequestStep(cfg, w, q, r, l))
  {
    hide Inv, AfterRead, NextReserve, NextCommit, NextInsert, NextRemove, NextComplete, AfterLease;
    if ReadsOnly(l) {
      ReadKeeps(cfg, w, q, r, l);
    } else {
      match l
      case TakeLease(_, fault) => LeaseKeeps(cfg, w, q, r, fault);
      case ReleaseLease(_, fault) => ReleaseKeeps(cfg, w, q, r, fault);
      case ReserveKey(_, failing) => ReserveKeeps(cfg, w, q, r, failing);
      case CommitBlob(_, commit) => CommitKeeps(cfg, w, q, r, commit);
      case InsertRow(_, id, failing) => InsertKeeps(cfg, w, q, r, id, failing);
      case RemoveBlob(_, effective) => RemoveKeeps(cfg, w, q, r, effective);
      case CompleteKey(_, failing) =>
        InvRequest(cfg, w, q);
        CompleteKeeps(cfg, w, q, r, r.pc.chunk.id,
                      if r.pc.Opened? then Replayed(r.pc.chunk) else Created(r.pc.chunk), failing);
    }
  }

  lemma StepKeeps(cfg: Config, w: World, l: Label)
    requires Inv(cfg, w) && Next(cfg, w, l).Some? && Atomic(l)
    ensures Inv(cfg, Next(cfg, w, l).value)
  {
    hide Inv, RequestStep, EnvironmentStep, NextSpawn;
    if l.Spawn? {
      SpawnKeeps(cfg, w, l);
    } else if IsRequestLabel(l) {
      RequestStepKeeps(cfg, w, l.q, w.reqs[l.q], l);
    } else {
      EnvironmentKeeps(cfg, w, l);
    }
  }

  lemma {:induction false} RunInv(cfg: Config, ws: seq<World>, ls: seq<Label>, i: nat)
    requires AtomicRun(cfg, ws, ls) && i <= |ls|
    ensures Inv(cfg, ws[i])
  {
    if i > 0 {
      RunInv(cfg, ws, ls, i - 1);
      hide Inv, Next;
      StepKeeps(cfg, ws[i - 1], ls[i - 1]);
    }
  }

  // ---------------------------------------------------------- what only grows

  /** The histories grow and incidents fade, whatever the step. */
  ghost predicate Later(w: World, v: World) {
    && w.db.ever <= v.db.ever
    && Grows(w.db.bound, v.db.bound)
    && Fades(w.db.incidents, v.db.incidents)
  }

  lemma LaterTransitive(u: World, v: World, w: World)
    requires Later(u, v) && Later(v, w)
    ensures Later(u, w)
  {
  }

  lemma LaterReflexive(w: World)
    ensures Later(w, w)
  {
  }

  lemma InsertGrows(cfg: Config, w: World, q: nat, r: Request, path: string, id: nat, failing: Fault)
    ensures Later(w, NextInsert(cfg, w, q, r, path, id, failing))
  {
  }

  lemma ReserveGrows(cfg: Config, w: World, q: nat, r: Request, failing: Fault)
    requires KeysSound(w.db)
    ensures Later(w, NextReserve(cfg, w, q, r, failing))
  {
    hide KeysSound, Reserve;
    if r.key.Some? && Reserve(cfg, w.db, r.key.value, r.meta).Ok? {
      ReserveSound(cfg, w.db, r.key.value, r.meta);
    } else {
      assert NextReserve(cfg, w, q, r, failing).db == w.db;
    }
  }

  lemma EnvironmentGrows(w: World, l: Label)
    requires EnvironmentStep(w, l).Some?
    ensures Later(w, EnvironmentStep(w, l).value)
  {
  }

  /** Of a request's own steps only three write to the tables. */
  lemma TablesUntouched(cfg: Config, w: World, q: nat, r: Request, l: Label)
    requires Ready(l, r.pc) && !l.ReserveKey? && !l.InsertRow? && !l.CompleteKey?
    ensures RequestStep(cfg, w, q, r, l).db == w.db
  {
    hide AfterRead, AfterLease, NextCommit, NextReserve, NextInsert, NextComplete;
    if l.CommitBlob? {
      CommitTables(w, q, r, l.commit);
    }
  }

  lemma CommitTables(w: World, q: nat, r: Request, commit: Commit)
    ensures NextCommit(w, q, r, commit).db == w.db
  {
    hide PathOf, OnDuplicate;
  }

  /** What the two key transactions leave alone. */
  ghost predicate OnlyKeys(db: Db, later: Db) {
    later.rows == db.rows && later.incidents == db.incidents && later.streams == db.streams && later.ever == db.ever
  }

  lemma ReserveOnlyKeys(cfg: Config, db: Db, key: string, m: Meta)
    requires Reserve(cfg, db, key, m).Ok?
    ensures OnlyKeys(db, Reserve(cfg, db, key, m).value.0)
  {
    hide OperationMatches;
  }

  lemma ReserveFrame(cfg: Config, w: World, q: nat, r: Request, failing: Fault)
    ensures OnlyKeys(w.db, NextReserve(cfg, w, q, r, failing).db)
  {
    hide Reserve;
    if r.key.Some? && failing != FaultBefore && Reserve(cfg, w.db, r.key.value, r.meta).Ok? {
      hide OnlyKeys;
      ReserveOnlyKeys(cfg, w.db, r.key.value, r.meta);
    } else {
      assert NextReserve(cfg, w, q, r, failing).db == w.db;
    }
  }

  lemma CompleteOnlyKeys(cfg: Config, db: Db, key: string, m: Meta, chunk: nat)
    requires Complete(cfg, db, key, m, chunk).Ok?
    ensures OnlyKeys(db, Complete(cfg, db, key, m, chunk).value)
  {
  }

  lemma CompleteFrame(cfg: Config, w: World, q: nat, r: Request, chunk: nat, reply: Reply, failing: Fault)
    ensures OnlyKeys(w.db, NextComplete(cfg, w, q, r, chunk, reply, failing).db)
  {
    hide Complete;
    if r.key.Some? && failing != FaultBefore && Complete(cfg, w.db, r.key.value, r.meta, chunk).Ok? {
      hide OnlyKeys;
      CompleteOnlyKeys(cfg, w.db, r.key.value, r.meta, chunk);
    } else {
      assert NextComplete(cfg, w, q, r, chunk, reply, failing).db == w.db;
    }
  }

  /** Of a request's own steps only the insert writes a row. */
  lemma RowsUntouched(cfg: Config, w: World, q: nat, r: Request, l: Label)
    requires Ready(l, r.pc) && !l.InsertRow?
    ensures OnlyKeys(w.db, RequestStep(cfg, w, q, r, l).db)
  {
    hide NextReserve, NextComplete, NextCommit, NextRemove, AfterRead, AfterLease;
    if l.ReserveKey? {
      ReserveFrame(cfg, w, q, r, l.failing);
    } else if l.CompleteKey? {
      CompleteFrame(cfg, w, q, r, r.pc.chunk.id,
                    if r.pc.Opened? then Replayed(r.pc.chunk) else Created(r.pc.chunk), l.failing);
    } else {
      TablesUntouched(cfg, w, q, r, l);
    }
  }

  lemma CompletionGrows(cfg: Config, w: World, q: nat, r: Request, chunk: nat, reply: Reply, failing: Fault)
    ensures Later(w, NextComplete(cfg, w, q, r, chunk, reply, failing))
  {
    hide Complete;
    if r.key.Some? && failing != FaultBefore && Complete(cfg, w.db, r.key.value, r.meta, chunk).Ok? {
      CompleteOnlyKeys(cfg, w.db, r.key.value, r.meta, chunk);
      CompleteBound(cfg, w.db, r.key.value, r.meta, chunk);
    } else {
      assert NextComplete(cfg, w, q, r, chunk, reply, failing).db == w.db;
    }
  }

  lemma CompleteBound(cfg: Config, db: Db, key: string, m: Meta, chunk: nat)
    requires Complete(cfg, db, key, m, chunk).Ok?
    ensures Complete(cfg, db, key, m, chunk).value.bound == db.bound
  {
  }

  lemma RequestStepGrows(cfg: Config, w: World, q: nat, r: Request, l: Label)
    requires KeysSound(w.db) && Ready(l, r.pc)
    ensures Later(w, RequestStep(cfg, w, q, r, l))
  {
    hide KeysSound, NextReserve, NextInsert, NextComplete, NextCommit, NextRemove, AfterRead;
    if l.ReserveKey? {
      ReserveGrows(cfg, w, q, r, l.failing);
    } else if l.InsertRow? {
      InsertGrows(cfg, w, q, r, r.pc.path, l.id, l.failing);
    } else if l.CompleteKey? {
      CompletionGrows(cfg, w, q, r, r.pc.chunk.id,
                      if r.pc.Opened? then Replayed(r.pc.chunk) else Created(r.pc.chunk), l.failing);
    } else {
      TablesUntouched(cfg, w, q, r, l);
    }
  }

  lemma StepGrows(cfg: Config, w: World, l: Label)
    requires Inv(cfg, w) && Next(cfg, w, l).Some?
    ensures Later(w, Next(cfg, w, l).value)
  {
    hide Inv, KeysSound, RequestStep, EnvironmentStep;
    InvKeys(cfg, w);
    if l.Spawn? {
    } else if IsRequestLabel(l) {
      RequestStepGrows(cfg, w, l.q, w.reqs[l.q], l);
    } else {
      EnvironmentGrows(w, l);
    }
  }

  lemma RunLength(cfg: Config, ws: seq<World>, ls: seq<Label>)
    requires AtomicRun(cfg, ws, ls)
    ensures |ws| == |ls| + 1
  {
  }

  lemma RunStep(cfg: Config, ws: seq<World>, ls: seq<Label>, i: nat)
    requires AtomicRun(cfg, ws, ls) && i < |ls|
    ensures Inv(cfg, ws[i]) && Next(cfg, ws[i], ls[i]) == Some(ws[i + 1]) && Atomic(ls[i])
  {
    RunInv(cfg, ws, ls, i);
  }

  lemma {:induction false} RunGrows(cfg: Config, ws: seq<World>, ls: seq<Label>, i: nat, j: nat)
    requires AtomicRun(cfg, ws, ls) && i <= j <= |ls|
    ensures Later(ws[i], ws[j])
    decreases j
  {
    hide Inv, Next, Later;
    if i < j {
      RunGrows(cfg, ws, ls, i, j - 1);
      RunStep(cfg, ws, ls, j - 1);
      StepGrows(cfg, ws[j - 1], ls[j - 1]);
      LaterTransitive(ws[i], ws[j - 1], ws[j]);
    } else {
      LaterReflexive(ws[i]);
    }
  }

  // ------------------------------------------------------ where rows come from

  /** A new row is the row of the request that inserted it. */
  lemma RowsComeFrom(cfg: Config, w: World, l: Label, r: Row)
    requires Inv(cfg, w) && Next(cfg, w, l).Some?
    requires r in Next(cfg, w, l).value.db.ever && r !in w.db.ever
    ensures l.InsertRow? && l.q in w.reqs && r.meta == Stored(cfg.backend, w.reqs[l.q].meta)
    ensures BoundTo(cfg, w.db.bound, w.reqs[l.q])
  {
    hide Inv, RequestStep, NextInsert, BoundTo;
    assert IsRequestLabel(l) by {
      if l.Spawn? {
      } else if !IsRequestLabel(l) {
        EnvironmentEver(w, l);
      }
    }
    if l.InsertRow? {
      var q := w.reqs[l.q];
      InsertIs(cfg, w, l.q, q, l);
      InsertEver(cfg, w, l.q, q, q.pc.path, l.id, l.failing, r);
      InvRequest(cfg, w, l.q);
    } else {
      RowsUntouched(cfg, w, l.q, w.reqs[l.q], l);
    }
  }

  lemma EnvironmentEver(w: World, l: Label)
    requires EnvironmentStep(w, l).Some?
    ensures EnvironmentStep(w, l).value.db.ever == w.db.ever && EnvironmentStep(w, l).value.reqs == w.reqs
  {
    hide Contiguous, PathsOf;
  }

  lemma InsertIs(cfg: Config, w: World, q: nat, r: Request, l: Label)
    requires l.InsertRow? && Ready(l, r.pc)
    ensures RequestStep(cfg, w, q, r, l) == NextInsert(cfg, w, q, r, r.pc.path, l.id, l.failing)
  {
    hide NextInsert;
  }

  lemma InsertEver(cfg: Config, w: World, q: nat, r: Request, path: string, id: nat, failing: Fault, row: Row)
    requires row !in w.db.ever && row in NextInsert(cfg, w, q, r, path, id, failing).db.ever
    ensures row.meta == Stored(cfg.backend, r.meta)
  {
    hide CreateChunk, Stored, AfterInsertError;
    if CreateChunk(cfg, w.db, r.meta, path, id).Ok? {
      CreateEver(cfg, w.db, r.meta, path, id);
    }
  }

  lemma CreateEver(cfg: Config, db: Db, m: Meta, path: string, id: nat)
    requires CreateChunk(cfg, db, m, path, id).Ok?
    ensures CreateChunk(cfg, db, m, path, id).value.ever == db.ever + {Row(id, Stored(cfg.backend, m), path)}
  {
    hide InsertState, IdentityTaken, QuotaRefuses, Stored;
  }

  // ----------------------------------------------------------- main theorems

  /** In every interleaving of direct and relay uploads, with leases expiring or
      absent, requests crashing anywhere and deletions in progress, the row of a
      live incident names a stored blob of exactly its size and hash. */
  lemma RowsAreBacked(cfg: Config, ws: seq<World>, ls: seq<Label>, i: nat, r: Row)
    requires AtomicRun(cfg, ws, ls) && i <= |ls|
    requires r in ws[i].db.rows && IsActive(ws[i].db, r.meta.incident)
    ensures PathOf(r.meta) == Some(r.path) && Describes(cfg, r, ws[i].blobs)
  {
    RunInv(cfg, ws, ls, i);
  }

  /** Whatever blob a step takes away, by rollback or by deletion, was no live
      row's blob before the step and is none after it. */
  lemma RemovalsAreSafe(cfg: Config, ws: seq<World>, ls: seq<Label>, i: nat, path: string, r: Row)
    requires AtomicRun(cfg, ws, ls) && i < |ls|
    requires path in ws[i].blobs && path !in ws[i + 1].blobs
    requires || (r in ws[i].db.rows && IsActive(ws[i].db, r.meta.incident))
             || (r in ws[i + 1].db.rows && IsActive(ws[i + 1].db, r.meta.incident))
    ensures r.path != path
  {
    if r in ws[i + 1].db.rows && IsActive(ws[i + 1].db, r.meta.incident) {
      RowsAreBacked(cfg, ws, ls, i + 1, r);
    } else {
      hide Inv, Next, Run;
      RunLength(cfg, ws, ls);
      RunStep(cfg, ws, ls, i);
      var w, l := ws[i], ls[i];
      BlobsLeaveBy(cfg, w, l, path);
      if l.RemoveBlob? {
        RollbackIsSafe(cfg, w, l.q);
      } else {
        DoomedIsSafe(cfg, w, l.incident, l.path, r);
      }
    }
  }

  lemma RequestBlobs(cfg: Config, w: World, q: nat, r: Request, l: Label, path: string)
    requires Ready(l, r.pc) && path in w.blobs && path !in RequestStep(cfg, w, q, r, l).blobs
    ensures l.RemoveBlob? && r.pc.path == path
  {
    hide AfterRead, AfterLease, NextReserve, NextInsert, NextComplete, NextCommit;
    if l.ReserveKey? {
      ReserveBlobs(cfg, w, q, r, l.failing);
    } else if l.InsertRow? {
      InsertBlobs(cfg, w, q, r, r.pc.path, l.id, l.failing);
    } else if l.CompleteKey? {
      CompleteBlobs(cfg, w, q, r, r.pc.chunk.id,
                    if r.pc.Opened? then Replayed(r.pc.chunk) else Created(r.pc.chunk), l.failing);
    } else if l.CommitBlob? {
      CommitBlobs(w, q, r, l.commit);
    }
  }

  lemma ReserveBlobs(cfg: Config, w: World, q: nat, r: Request, failing: Fault)
    ensures NextReserve(cfg, w, q, r, failing).blobs == w.blobs
  {
    hide Reserve;
  }

  lemma InsertBlobs(cfg: Config, w: World, q: nat, r: Request, path: string, id: nat, failing: Fault)
    ensures NextInsert(cfg, w, q, r, path, id, failing).blobs == w.blobs
  {
    hide CreateChunk;
  }

  lemma CompleteBlobs(cfg: Config, w: World, q: nat, r: Request, chunk: nat, reply: Reply, failing: Fault)
    ensures NextComplete(cfg, w, q, r, chunk, reply, failing).blobs == w.blobs
  {
    hide Complete;
  }

  lemma CommitBlobs(w: World, q: nat, r: Request, commit: Commit)
    ensures forall p :: p in w.blobs ==>
              p in NextCommit(w, q, r, commit).blobs && NextCommit(w, q, r, commit).blobs[p] == w.blobs[p]
  {
    hide PathOf;
  }

  /** Only a rollback and the deletion worker take blobs away. */
  lemma BlobsLeaveBy(cfg: Config, w: World, l: Label, path: string)
    requires Next(cfg, w, l).Some? && path in w.blobs && path !in Next(cfg, w, l).value.blobs
    ensures || (l.RemoveBlob? && l.q in w.reqs && w.reqs[l.q].pc.RollingBack? && w.reqs[l.q].pc.path == path)
            || (l.RemoveItem? && l.path == path && l.incident in w.doomed && path in w.doomed[l.incident])
  {
    hide RequestStep;
    if IsRequestLabel(l) {
      RequestBlobs(cfg, w, l.q, w.reqs[l.q], l, path);
    }
  }

  lemma DoomedIsSafe(cfg: Config, w: World, i: string, path: string, r: Row)
    requires Inv(cfg, w) && i in w.doomed && path in w.doomed[i]
    requires r in w.db.rows && IsActive(w.db, r.meta.incident)
    ensures r.path != path
  {
    var d :| d in w.db.ever && d.meta.incident == i && d.path == path;
    if r.path == path {
      PathDeterminesCoordinates(d.meta, r.meta);
    }
  }

  /** A chunk identity, and a chunk id, gets at most one row over a whole run. */
  lemma OneRowPerIdentity(cfg: Config, ws: seq<World>, ls: seq<Label>, i: nat, j: nat, r: Row, t: Row)
    requires AtomicRun(cfg, ws, ls) && i <= j <= |ls|
    requires r in ws[i].db.rows && t in ws[j].db.rows
    requires IdentityOf(r.meta) == IdentityOf(t.meta) || r.id == t.id
    ensures r == t
  {
    RunInv(cfg, ws, ls, i);
    RunInv(cfg, ws, ls, j);
    RunGrows(cfg, ws, ls, i, j);
  }

  predicate Answered(r: Request) {
    (r.pc.Done? || r.pc.Finished?) && !r.pc.reply.Refused?
  }

  lemma InvReply(cfg: Config, w: World, q: nat)
    requires Inv(cfg, w) && q in w.reqs && Answered(w.reqs[q])
    ensures ReplyOk(cfg, w.db.ever, w.db.bound, w.reqs[q], w.reqs[q].pc.reply)
  {
    InvRequest(cfg, w, q);
  }

  /** A 201 is sent only for a row this upload created, with the upload's own
      bytes and metadata; a replayed 200 only for a row that matches it. */
  lemma RepliesAreTrue(cfg: Config, ws: seq<World>, ls: seq<Label>, i: nat, q: nat)
    requires AtomicRun(cfg, ws, ls) && i <= |ls| && q in ws[i].reqs && Answered(ws[i].reqs[q])
    ensures var r := ws[i].reqs[q];
            var chunk := r.pc.reply.chunk;
            && IdentityOf(chunk.meta) == IdentityOf(r.meta)
            && chunk.meta.sha == r.meta.sha && chunk.meta.size == |r.body|
            && (r.pc.reply.Created? ==>
                  chunk.meta == r.meta && chunk.(meta := Stored(cfg.backend, r.meta)) in ws[i].db.ever)
            && (r.pc.reply.Replayed? ==> chunk in ws[i].db.ever && r.key.Some? && UploadMatches(chunk.meta, r.meta))
  {
    RunInv(cfg, ws, ls, i);
    InvReply(cfg, ws[i], q);
    InvRequest(cfg, ws[i], q);
    hide Inv;
    var r := ws[i].reqs[q];
    if r.pc.reply.Replayed? {
      UploadMatchesExactly(r.pc.reply.chunk.meta, r.meta);
    }
  }

  /** A replay is of the same upload, to the microsecond, exactly when the row
      is not 2^63 nanoseconds or more older than the instants offered. */
  lemma ReplaysAreExact(cfg: Config, ws: seq<World>, ls: seq<Label>, i: nat, q: nat)
    requires AtomicRun(cfg, ws, ls) && i <= |ls| && q in ws[i].reqs && Answered(ws[i].reqs[q])
    requires ws[i].reqs[q].pc.reply.Replayed?
    ensures var r := ws[i].reqs[q];
            var m := r.pc.reply.chunk.meta;
            SameUpload(m, r.meta)
            <==> m.startedAt - r.meta.startedAt > MIN_INT64 && m.endedAt - r.meta.endedAt > MIN_INT64
  {
    RepliesAreTrue(cfg, ws, ls, i, q);
    UploadMatchesExactly(ws[i].reqs[q].pc.reply.chunk.meta, ws[i].reqs[q].meta);
  }

  /** Within an incident, all successes under one idempotency key, at any two
      moments of the run, answer with the same chunk and carry the same
      fingerprint: two different fingerprints never both succeed. */
  lemma KeySuccessesAgree(cfg: Config, ws: seq<World>, ls: seq<Label>, i: nat, j: nat, p: nat, q: nat)
    requires AtomicRun(cfg, ws, ls) && i <= j <= |ls|
    requires p in ws[i].reqs && q in ws[j].reqs && Answered(ws[i].reqs[p]) && Answered(ws[j].reqs[q])
    requires ws[i].reqs[p].key.Some? && ws[i].reqs[p].key == ws[j].reqs[q].key
    requires ws[i].reqs[p].meta.incident == ws[j].reqs[q].meta.incident
    ensures ws[i].reqs[p].pc.reply.chunk.id == ws[j].reqs[q].pc.reply.chunk.id
    ensures cfg.fingerprint(ws[i].reqs[p].meta) == cfg.fingerprint(ws[j].reqs[q].meta)
  {
    RunInv(cfg, ws, ls, i);
    RunInv(cfg, ws, ls, j);
    RunGrows(cfg, ws, ls, i, j);
    InvReply(cfg, ws[i], p);
    InvReply(cfg, ws[j], q);
    InvHistory(cfg, ws[j]);
    hide Inv, AtomicRun, HistorySound;
    var r := StoredChunk(cfg, ws[i], p);
    var t := StoredChunk(cfg, ws[j], q);
    SameIdentitySameRow(ws[j].db, r, t);
  }

  lemma InvHistory(cfg: Config, w: World)
    requires Inv(cfg, w)
    ensures HistorySound(w.db)
  {
  }

  lemma SameIdentitySameRow(db: Db, r: Row, t: Row)
    requires HistorySound(db) && r in db.ever && t in db.ever && IdentityOf(r.meta) == IdentityOf(t.meta)
    ensures r == t
  {
  }

  /** The stored row behind a success. */
  lemma StoredChunk(cfg: Config, w: World, q: nat) returns (row: Row)
    requires q in w.reqs && Answered(w.reqs[q])
    requires ReplyOk(cfg, w.db.ever, w.db.bound, w.reqs[q], w.reqs[q].pc.reply)
    ensures row in w.db.ever && row.id == w.reqs[q].pc.reply.chunk.id
    ensures IdentityOf(row.meta) == IdentityOf(w.reqs[q].meta)
  {
    var r := w.reqs[q];
    if r.pc.reply.Created? {
      row := r.pc.reply.chunk.(meta := Stored(cfg.backend, r.meta));
    } else {
      row := r.pc.reply.chunk;
    }
  }
}
