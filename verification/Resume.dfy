/** A resumed recorder sends again what it does not know to be stored. The
    server then answers with the row it already has: the composed run projects
    to a run of the server, on which a retry is replayed. */
module Resume {
  import opened Text
  import opened Chunks
  import opened Store
  import opened Protocol
  import opened Invariant
  import opened Safety
  import opened Replay
  import opened Desktop

  // --------------------------------------------------- the server's own run

  /** The server steps among the first `n` actions. */
  ghost function Labels(cfg: Config, rec: Recording, ss: seq<System>, acts: seq<Action>, n: nat): (ls: seq<Label>)
    requires n <= |acts| <= |ss|
  {
    if n == 0 then []
    else
      match LabelOf(cfg, rec, ss[n - 1], acts[n - 1])
      case None => Labels(cfg, rec, ss, acts, n - 1)
      case Some(l) => Labels(cfg, rec, ss, acts, n - 1) + [l]
  }

  /** The server states those steps go through. */
  ghost function Worlds(cfg: Config, rec: Recording, ss: seq<System>, acts: seq<Action>, n: nat): (ws: seq<World>)
    requires n <= |acts| < |ss|
    ensures |ws| == |Labels(cfg, rec, ss, acts, n)| + 1
  {
    if n == 0 then [ss[0].server]
    else if LabelOf(cfg, rec, ss[n - 1], acts[n - 1]).None? then Worlds(cfg, rec, ss, acts, n - 1)
    else Worlds(cfg, rec, ss, acts, n - 1) + [ss[n].server]
  }

  /** One action moves the server as its label says, or not at all. */
  lemma StepServer(cfg: Config, rec: Recording, s: System, a: Action, t: System)
    requires Step(cfg, rec, s, a, t)
    ensures match LabelOf(cfg, rec, s, a)
            case None => t.server == s.server
            case Some(l) => Next(cfg, s.server, l) == Some(t.server) && Atomic(l)
  {
    hide Next;
  }

  lemma {:induction false} ServerRun(cfg: Config, rec: Recording, ss: seq<System>, acts: seq<Action>, n: nat)
    requires Execution(cfg, rec, ss, acts) && n <= |acts|
    ensures AtomicRun(cfg, Worlds(cfg, rec, ss, acts, n), Labels(cfg, rec, ss, acts, n))
    ensures Worlds(cfg, rec, ss, acts, n)[|Labels(cfg, rec, ss, acts, n)|] == ss[n].server
  {
    hide Next, Step, Atomic;
    if n > 0 {
      ServerRun(cfg, rec, ss, acts, n - 1);
      StepServer(cfg, rec, ss[n - 1], acts[n - 1], ss[n]);
      hide LabelOf;
    }
  }

  /** Earlier parts of the projection are its prefixes. */
  lemma {:induction false} ProjectionGrows(cfg: Config, rec: Recording, ss: seq<System>, acts: seq<Action>, i: nat,
                                           n: nat)
    requires i <= n <= |acts| < |ss|
    ensures Labels(cfg, rec, ss, acts, i) <= Labels(cfg, rec, ss, acts, n)
    ensures Worlds(cfg, rec, ss, acts, i) <= Worlds(cfg, rec, ss, acts, n)
    decreases n
  {
    hide LabelOf;
    if i < n {
      ProjectionGrows(cfg, rec, ss, acts, i, n - 1);
    }
  }

  /** Every projected state and step between moments `i` and `n` is one of the
      composed run's in between. */
  lemma {:induction false} ProjectedFrom(cfg: Config, rec: Recording, ss: seq<System>, acts: seq<Action>, i: nat,
                                         n: nat, x: nat)
    returns (y: nat)
    requires Execution(cfg, rec, ss, acts) && i <= n <= |acts|
    requires |Labels(cfg, rec, ss, acts, i)| <= x <= |Labels(cfg, rec, ss, acts, n)|
    ensures i <= y <= n && Worlds(cfg, rec, ss, acts, n)[x] == ss[y].server
    ensures x < |Labels(cfg, rec, ss, acts, n)| ==>
              y < n && LabelOf(cfg, rec, ss[y], acts[y]) == Some(Labels(cfg, rec, ss, acts, n)[x])
    decreases n
  {
    hide LabelOf, Step, AtomicRun, Init;
    ServerRun(cfg, rec, ss, acts, n);
    if x == |Labels(cfg, rec, ss, acts, n)| {
      y := n;
    } else {
      if x < |Labels(cfg, rec, ss, acts, n - 1)| {
        y := ProjectedFrom(cfg, rec, ss, acts, i, n - 1, x);
        ProjectionGrows(cfg, rec, ss, acts, n - 1, n);
      } else {
        ServerRun(cfg, rec, ss, acts, n - 1);
        y := n - 1;
      }
    }
  }

  /** How many of the actions between `i` and `n` are steps of request `q`. */
  ghost function OwnSteps(cfg: Config, rec: Recording, ss: seq<System>, acts: seq<Action>, q: nat, i: nat, n: nat): nat
    requires i <= n <= |acts| <= |ss|
    decreases n
  {
    if i == n then 0
    else
      var l := LabelOf(cfg, rec, ss[n - 1], acts[n - 1]);
      OwnSteps(cfg, rec, ss, acts, q, i, n - 1) + (if l.Some? && StepOf(l.value, q) then 1 else 0)
  }

  lemma {:induction false} StepsOfPrefix(ls: seq<Label>, later: seq<Label>, q: nat, i: nat, j: nat)
    requires ls <= later && i <= j <= |ls|
    ensures StepsOf(ls, q, i, j) == StepsOf(later, q, i, j)
    decreases j
  {
    if i < j {
      StepsOfPrefix(ls, later, q, i, j - 1);
    }
  }

  lemma {:induction false} CountsAgree(cfg: Config, rec: Recording, ss: seq<System>, acts: seq<Action>, q: nat,
                                       i: nat, n: nat)
    requires i <= n <= |acts| < |ss|
    ensures |Labels(cfg, rec, ss, acts, i)| <= |Labels(cfg, rec, ss, acts, n)|
    ensures StepsOf(Labels(cfg, rec, ss, acts, n), q, |Labels(cfg, rec, ss, acts, i)|, |Labels(cfg, rec, ss, acts, n)|)
            == OwnSteps(cfg, rec, ss, acts, q, i, n)
    decreases n
  {
    hide LabelOf, StepOf;
    if i < n {
      CountsAgree(cfg, rec, ss, acts, q, i, n - 1);
      var before, after := Labels(cfg, rec, ss, acts, n - 1), Labels(cfg, rec, ss, acts, n);
      StepsOfPrefix(before, after, q, |Labels(cfg, rec, ss, acts, i)|, |before|);
    }
  }

  // ------------------------------------------------------------ the theorem

  /** Whatever the recorder sends for a chunk that has a row is a retry of it. */
  lemma RecorderRetries(cfg: Config, rec: Recording, m: Manifest, w: World, q: nat, t: Row)
    requires rec.stream != "" && Inv(cfg, w) && ServerOk(cfg, rec, m, w)
    requires q in w.reqs && t in w.db.rows && IdentityOf(t.meta) == IdentityOf(w.reqs[q].meta)
    requires Targets(rec, w.reqs[q].meta.incident, w.reqs[q].meta.stream)
    ensures Retries(cfg, w.db, w.reqs[q], t)
  {
    InvHistory(cfg, w);
    hide Inv, UploadMatches, Stored, OperationMatches, SameUpload;
    var r := w.reqs[q];
    assert RequestPlanned(cfg, rec, m, r) && RowPlanned(cfg, rec, m, w.db.bound, t);
    RetryMatches(cfg.backend, r.meta);
  }

  /** Nothing disturbs request `q` between moments `i` and `j`: the stream stays
      open, and the request's own steps meet no fault and no busy lease. */
  ghost predicate Calm(cfg: Config, rec: Recording, ss: seq<System>, acts: seq<Action>, q: nat, i: nat, j: nat)
    requires i <= j <= |acts| < |ss| && q in ss[i].server.reqs
  {
    && (forall y :: i <= y <= j ==> StillOpen(ss[y].server.db, ss[i].server.reqs[q].meta))
    && (forall y :: i <= y < j ==> var l := LabelOf(cfg, rec, ss[y], acts[y]);
          l.Some? && StepOf(l.value, q) ==> Faultless(cfg, ss[y].server, l.value))
  }

  lemma CalmIsUndisturbed(cfg: Config, rec: Recording, ss: seq<System>, acts: seq<Action>, q: nat, i: nat, j: nat)
    requires Execution(cfg, rec, ss, acts) && i <= j <= |acts| && q in ss[i].server.reqs
    requires Calm(cfg, rec, ss, acts, q, i, j)
    ensures Undisturbed(cfg, Worlds(cfg, rec, ss, acts, j), Labels(cfg, rec, ss, acts, j), q,
                        |Labels(cfg, rec, ss, acts, i)|, |Labels(cfg, rec, ss, acts, j)|)
    ensures Worlds(cfg, rec, ss, acts, j)[|Labels(cfg, rec, ss, acts, i)|] == ss[i].server
  {
    hide LabelOf, Step, Init, StillOpen, Faultless, StepOf, AtomicRun;
    var ws, ls := Worlds(cfg, rec, ss, acts, j), Labels(cfg, rec, ss, acts, j);
    var a, b := |Labels(cfg, rec, ss, acts, i)|, |ls|;
    ProjectionGrows(cfg, rec, ss, acts, i, j);
    ServerRun(cfg, rec, ss, acts, i);
    var meta := ss[i].server.reqs[q].meta;
    forall x | a <= x <= b ensures StillOpen(ws[x].db, meta) {
      var y := ProjectedFrom(cfg, rec, ss, acts, i, j, x);
    }
    forall x | a <= x < b && StepOf(ls[x], q) ensures Faultless(cfg, ws[x], ls[x]) {
      var y := ProjectedFrom(cfg, rec, ss, acts, i, j, x);
    }
  }

  /** A chunk that is sent again after its row was stored, because the response
      or the note of it was lost, is never answered with anything but a replay
      of that row, and is answered within eight steps of the request. */
  lemma ResentChunkIsReplayed(cfg: Config, rec: Recording, ss: seq<System>, acts: seq<Action>, q: nat, t: Row, i: nat,
                              j: nat)
    requires Execution(cfg, rec, ss, acts) && i <= j <= |acts|
    requires q in ss[i].server.reqs && ss[i].server.reqs[q].pc.Received?
    requires Targets(rec, ss[i].server.reqs[q].meta.incident, ss[i].server.reqs[q].meta.stream)
    requires t in ss[i].server.db.rows && IdentityOf(t.meta) == IdentityOf(ss[i].server.reqs[q].meta)
    requires Calm(cfg, rec, ss, acts, q, i, j)
    ensures q in ss[j].server.reqs
    ensures var pc := ss[j].server.reqs[q].pc;
            && (pc.Done? || pc.Finished? ==> pc.reply == Replayed(t))
            && (OwnSteps(cfg, rec, ss, acts, q, i, j) >= 8 ==> pc.Done? || pc.Finished?)
  {
    hide LabelOf, Step, Init, Inv, ServerOk, ClientOk, Calm, Undisturbed, Retries, AtomicRun;
    ExecutionOk(cfg, rec, ss, acts, i);
    RecorderRetries(cfg, rec, Durable(ss[i]), ss[i].server, q, t);
    CalmIsUndisturbed(cfg, rec, ss, acts, q, i, j);
    ServerRun(cfg, rec, ss, acts, j);
    CountsAgree(cfg, rec, ss, acts, q, i, j);
    RetryIsReplayed(cfg, Worlds(cfg, rec, ss, acts, j), Labels(cfg, rec, ss, acts, j), q, t,
                    |Labels(cfg, rec, ss, acts, i)|, |Labels(cfg, rec, ss, acts, j)|);
  }
}
