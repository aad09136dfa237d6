/** What becomes of the chunk files a recorder writes: each is written before
    the manifest knows it, and a process that stops in between leaves a file
    that no later run picks up. */
module Staging {
  import opened Text
  import opened Keys
  import opened Chunks
  import opened Store
  import opened Protocol
  import opened Invariant
  import opened Safety
  import opened Acceptance
  import opened Desktop

  // ------------------------------------------------------------ what is staged

  /** How many of the first `n` actions put an entry into the manifest. */
  function Saves(acts: seq<Action>, n: nat): nat
    requires n <= |acts|
  {
    if n == 0 then 0 else Saves(acts, n - 1) + (if acts[n - 1].SaveStaged? then 1 else 0)
  }

  /** Only saving a staged chunk changes the number of entries on disk. */
  lemma EntriesStep(cfg: Config, rec: Recording, s: System, a: Action, t: System)
    requires SystemOk(cfg, rec, s) && Step(cfg, rec, s, a, t)
    ensures |Durable(t)| == |Durable(s)| + (if a.SaveStaged? then 1 else 0)
  {
    hide Inv, ServerOk, ManifestOk, Next, PcFits;
  }

  /** However often the recorder was stopped and resumed, its manifest has one
      entry for each chunk it ever saved there. */
  lemma {:induction false} EntriesAreSaves(cfg: Config, rec: Recording, ss: seq<System>, acts: seq<Action>, i: nat)
    requires Execution(cfg, rec, ss, acts) && i <= |acts|
    ensures |Durable(ss[i])| == Saves(acts, i)
  {
    if i > 0 {
      EntriesAreSaves(cfg, rec, ss, acts, i - 1);
      ExecutionOk(cfg, rec, ss, acts, i - 1);
      hide SystemOk, Step;
      EntriesStep(cfg, rec, ss[i - 1], acts[i - 1], ss[i]);
    }
  }

  // ---------------------------------------------------------- one written file

  /** The file is still waiting for its entry, as number k, or entry k is it. */
  ghost predicate Pending(cfg: Config, s: System, k: nat, body: Bytes) {
    || (s.pc == FileWritten(body) && |Durable(s)| == k)
    || (k < |Durable(s)| && Durable(s)[k].size == |body| && Durable(s)[k].sha == cfg.sha(body))
  }

  lemma WriteIsPending(cfg: Config, rec: Recording, s: System, a: Action, t: System)
    requires SystemOk(cfg, rec, s) && Step(cfg, rec, s, a, t) && a.WriteFile?
    ensures Pending(cfg, t, |s.mem|, a.body)
  {
    hide Inv, ServerOk, ManifestOk, Next, PcFits;
  }

  lemma PlanGrows(cfg: Config, rec: Recording, s: System, a: Action, t: System)
    requires rec.stream != "" && SystemOk(cfg, rec, s) && Step(cfg, rec, s, a, t)
    ensures SamePlan(rec, Durable(s), Durable(t))
  {
    hide Inv, ServerOk, ClientOk, Next, Enabled, Act, SamePlan;
    if LabelOf(cfg, rec, s, a).None? {
      LocalClientKeeps(cfg, rec, s, a);
    } else {
      SharedDiskSame(cfg, rec, s, a);
      PlanReflexive(rec, Durable(s));
    }
  }

  lemma PendingStays(cfg: Config, rec: Recording, s: System, a: Action, t: System, k: nat, body: Bytes)
    requires rec.stream != "" && SystemOk(cfg, rec, s) && Step(cfg, rec, s, a, t) && Pending(cfg, s, k, body)
    requires !(a.Stop? && s.pc.FileWritten?)
    ensures Pending(cfg, t, k, body)
  {
    PlanGrows(cfg, rec, s, a, t);
    hide Inv, ServerOk, ManifestOk, Next, PcFits, ChunkFileName;
    if s.pc == FileWritten(body) && |Durable(s)| == k {
      if a.SaveStaged? {
        assert t.mem[k] == NewEntry(cfg, rec, s.mem, body, a.startedAt, a.endedAt);
      } else {
        assert t.pc == s.pc && Durable(t) == Durable(s);
      }
    } else {
      hide Step;
      assert UploadOf(rec, Durable(s)[k]) == UploadOf(rec, Durable(t)[k]);
    }
  }

  /** No process stopped, before moment `n`, between a file and its entry. */
  ghost predicate NoLostFile(ss: seq<System>, acts: seq<Action>, n: nat)
    requires n <= |acts| < |ss|
  {
    forall j :: 0 <= j < n && acts[j].Stop? ==> !ss[j].pc.FileWritten?
  }

  lemma {:induction false} StaysPending(cfg: Config, rec: Recording, ss: seq<System>, acts: seq<Action>, j: nat, i: nat)
    requires Execution(cfg, rec, ss, acts) && j < i <= |acts| && acts[j].WriteFile? && NoLostFile(ss, acts, i)
    ensures Pending(cfg, ss[i], |ss[j].mem|, acts[j].body)
    decreases i
  {
    hide SystemOk, Step, Pending, Init;
    ExecutionOk(cfg, rec, ss, acts, i - 1);
    if j == i - 1 {
      WriteIsPending(cfg, rec, ss[j], acts[j], ss[i]);
    } else {
      StaysPending(cfg, rec, ss, acts, j, i - 1);
      PendingStays(cfg, rec, ss[i - 1], acts[i - 1], ss[i], |ss[j].mem|, acts[j].body);
    }
  }

  // ------------------------------------------------------------- a lost file

  /** The manifest has `k` entries and will get no more. */
  predicate Frozen(s: System, k: nat) {
    s.disk.Some? && |s.disk.value| == k && !s.staging && !s.pc.FileWritten?
  }

  /** Stopping there leaves the entries as they are, and no run stages again. */
  lemma StopFreezes(cfg: Config, rec: Recording, s: System, a: Action, t: System)
    requires SystemOk(cfg, rec, s) && Step(cfg, rec, s, a, t) && a.Stop? && s.pc.FileWritten?
    ensures Frozen(t, |s.mem|)
  {
    hide Inv, ServerOk, ManifestOk, Next, PcFits, SamePlan;
  }

  lemma FrozenStays(cfg: Config, rec: Recording, s: System, a: Action, t: System, k: nat)
    requires SystemOk(cfg, rec, s) && Step(cfg, rec, s, a, t) && Frozen(s, k)
    ensures Frozen(t, k)
  {
    hide Inv, ServerOk, ManifestOk, Next, PcFits, SamePlan;
  }

  lemma {:induction false} FrozenFrom(cfg: Config, rec: Recording, ss: seq<System>, acts: seq<Action>, m: nat, i: nat)
    requires Execution(cfg, rec, ss, acts) && m < i <= |acts| && acts[m].Stop? && ss[m].pc.FileWritten?
    ensures Frozen(ss[i], |ss[m].mem|)
    decreases i
  {
    hide SystemOk, Step, Frozen, Init;
    ExecutionOk(cfg, rec, ss, acts, i - 1);
    if m == i - 1 {
      StopFreezes(cfg, rec, ss[m], acts[m], ss[i]);
    } else {
      FrozenFrom(cfg, rec, ss, acts, m, i - 1);
      FrozenStays(cfg, rec, ss[i - 1], acts[i - 1], ss[i], |ss[m].mem|);
    }
  }

  lemma FileStep(cfg: Config, rec: Recording, s: System, a: Action, t: System)
    requires Step(cfg, rec, s, a, t) && t.pc.FileWritten?
    ensures t.mem == s.mem && (if a.WriteFile? then t.pc.body == a.body else s.pc == t.pc)
  {
    hide Next;
  }

  /** A file that waits for its entry was written by some earlier action. */
  lemma {:induction false} WrittenBy(cfg: Config, rec: Recording, ss: seq<System>, acts: seq<Action>, m: nat)
    returns (j: nat)
    requires Execution(cfg, rec, ss, acts) && m <= |acts| && ss[m].pc.FileWritten?
    ensures j < m && acts[j].WriteFile? && |ss[j].mem| == |ss[m].mem| && acts[j].body == ss[m].pc.body
  {
    FileStep(cfg, rec, ss[m - 1], acts[m - 1], ss[m]);
    if acts[m - 1].WriteFile? {
      j := m - 1;
    } else {
      hide Step;
      j := WrittenBy(cfg, rec, ss, acts, m - 1);
    }
  }

  lemma EntryStep(cfg: Config, rec: Recording, s: System, a: Action, t: System, k: nat)
    requires SystemOk(cfg, rec, s) && Step(cfg, rec, s, a, t) && a.SaveStaged? && k == |Durable(s)|
    ensures s.pc.FileWritten? && |s.mem| == k && k < |Durable(t)|
    ensures Durable(t)[k].size == |s.pc.body| && Durable(t)[k].sha == cfg.sha(s.pc.body)
  {
    hide Inv, ServerOk, ManifestOk, Next, PcFits, SamePlan, ChunkFileName;
  }

  /** Entry k of the manifest has the size and hash of a file that was written
      when there were k entries. */
  lemma {:induction false} EntryWrittenBy(cfg: Config, rec: Recording, ss: seq<System>, acts: seq<Action>, i: nat,
                                          k: nat)
    returns (j: nat)
    requires Execution(cfg, rec, ss, acts) && i <= |acts| && k < |Durable(ss[i])|
    ensures j < i && acts[j].WriteFile? && |ss[j].mem| == k
    ensures Durable(ss[i])[k].size == |acts[j].body| && Durable(ss[i])[k].sha == cfg.sha(acts[j].body)
  {
    hide SystemOk, Step, Init;
    ExecutionOk(cfg, rec, ss, acts, i - 1);
    EntriesStep(cfg, rec, ss[i - 1], acts[i - 1], ss[i]);
    PlanGrows(cfg, rec, ss[i - 1], acts[i - 1], ss[i]);
    if k < |Durable(ss[i - 1])| {
      j := EntryWrittenBy(cfg, rec, ss, acts, i - 1, k);
      assert UploadOf(rec, Durable(ss[i - 1])[k]) == UploadOf(rec, Durable(ss[i])[k]);
    } else {
      EntryStep(cfg, rec, ss[i - 1], acts[i - 1], ss[i], k);
      j := WrittenBy(cfg, rec, ss, acts, i - 1);
    }
  }

  // ----------------------------------------------------------- main theorem

  /** Row `x` of the stream has the size and hash of these bytes. */
  ghost predicate StoredAs(cfg: Config, rec: Recording, rows: seq<Row>, x: nat, body: Bytes) {
    exists r :: r in rows && InStream(r, rec.incident, rec.stream)
      && r.meta.index == x && r.meta.size == |body| && r.meta.sha == cfg.sha(body)
  }

  /** Every file written before moment `i` is in the stream, at its place. */
  ghost predicate AllFilesStored(cfg: Config, rec: Recording, ss: seq<System>, acts: seq<Action>, i: nat,
                                 rows: seq<Row>)
    requires i <= |acts| < |ss|
  {
    forall j :: 0 <= j < i && acts[j].WriteFile? ==> StoredAs(cfg, rec, rows, |ss[j].mem| + 1, acts[j].body)
  }

  lemma KeptIsStored(cfg: Config, rec: Recording, s: System, k: nat, body: Bytes)
    requires rec.stream != "" && SystemOk(cfg, rec, s) && s.pc.Idle? && Pending(cfg, s, k, body)
    requires HoldsExactly(cfg, rec, s.server.db.rows, s.mem)
    ensures StoredAs(cfg, rec, s.server.db.rows, k + 1, body)
  {
    hide Inv, ServerOk, UploadsTrue;
    assert UploadOf(rec, s.mem[k]) == UploadOf(rec, Durable(s)[k]);
    assert s.mem[k].index == k + 1 && HoldsEntry(cfg, rec, s.server.db.rows, s.mem[k]);
    var r :| r in s.server.db.rows && r.meta == Stored(cfg.backend, UploadOf(rec, s.mem[k]));
  }

  /** When a recorder completes its stream, the stream is completed with one
      chunk for each entry ever saved; and it holds every file ever written
      exactly when no process stopped between a file and its entry. */
  lemma CompletedHoldsAllFilesIff(cfg: Config, rec: Recording, ss: seq<System>, acts: seq<Action>, i: nat)
    requires Execution(cfg, rec, ss, acts) && i < |acts| && acts[i].AskCompletion?
    ensures (rec.incident, rec.stream) in ss[i + 1].server.db.streams
    ensures ss[i + 1].server.db.streams[(rec.incident, rec.stream)].status == StreamComplete(Saves(acts, i))
    ensures AllFilesStored(cfg, rec, ss, acts, i, ss[i + 1].server.db.rows) <==> NoLostFile(ss, acts, i)
  {
    ExecutionOk(cfg, rec, ss, acts, i);
    EntriesAreSaves(cfg, rec, ss, acts, i);
    var s, rows := ss[i], ss[i].server.db.rows;
    CompletionStep(cfg, rec, s, acts[i], ss[i + 1]);
    hide Inv, ServerOk, ManifestOk, Next, PcFits, HoldsExactly, Step, StoredAs, Pending;
    CompletionSucceeds(cfg, rec, ss, acts, i);
    if NoLostFile(ss, acts, i) {
      forall j | 0 <= j < i && acts[j].WriteFile? ensures StoredAs(cfg, rec, rows, |ss[j].mem| + 1, acts[j].body) {
        StaysPending(cfg, rec, ss, acts, j, i);
        KeptIsStored(cfg, rec, s, |ss[j].mem|, acts[j].body);
      }
    } else {
      var m :| 0 <= m < i && acts[m].Stop? && ss[m].pc.FileWritten?;
      FrozenFrom(cfg, rec, ss, acts, m, i);
      var j := WrittenBy(cfg, rec, ss, acts, m);
      LostIsNotStored(cfg, rec, rows, s.mem, acts[j].body);
    }
  }

  lemma LostIsNotStored(cfg: Config, rec: Recording, rows: seq<Row>, m: Manifest, body: Bytes)
    requires HoldsExactly(cfg, rec, rows, m)
    ensures !StoredAs(cfg, rec, rows, |m| + 1, body)
  {
  }

  lemma CompletionStep(cfg: Config, rec: Recording, s: System, a: Action, t: System)
    requires SystemOk(cfg, rec, s) && Step(cfg, rec, s, a, t) && a.AskCompletion?
    ensures s.pc.Idle? && AllUploaded(s.mem) && |s.mem| == |Durable(s)| && IsActive(s.server.db, rec.incident)
    ensures t.server.db.rows == s.server.db.rows && (rec.incident, rec.stream) in t.server.db.streams
    ensures t.server.db.streams[(rec.incident, rec.stream)].status == StreamComplete(|s.mem|)
  {
    hide Inv, ServerOk, ManifestOk, PcFits, SamePlan, Contiguous;
  }

  // ------------------------------------------------------ a witness execution

  const SAMPLE := Recording("i", "s", "audio")

  function SampleEntry(cfg: Config, uploaded: bool, attempts: nat): Staged {
    Staged(1, "audio", 0, 0, ChunkFileName("audio", 1), 1, cfg.sha([0]), uploaded, attempts)
  }

  function OpenWorld(reqs: map<nat, Request>): World {
    World(Db(map["i" := Incident(true, Active, "")],
             map[("i", "s") := Stream("audio", StreamOpen)], [], map[], {}, map[]),
          map[], map[], 0, reqs, map[], map[])
  }

  /** One more action at the end of an execution. */
  lemma ExtendExecution(cfg: Config, rec: Recording, ss: seq<System>, acts: seq<Action>, a: Action, t: System)
    requires Execution(cfg, rec, ss, acts) && Step(cfg, rec, ss[|acts|], a, t)
    ensures Execution(cfg, rec, ss + [t], acts + [a]) && (ss + [t])[|acts + [a]|] == t
  {
    hide Step, Init;
  }

  lemma OpenStream(cfg: Config) returns (ss: seq<System>, acts: seq<Action>)
    ensures Execution(cfg, SAMPLE, ss, acts)
    ensures ss[|acts|] == System(OpenWorld(map[]), None, map[], [], false, Stopped)
  {
    var empty := World(Db(map[], map[], [], map[], {}, map[]), map[], map[], 0, map[], map[], map[]);
    var open := empty.(db := empty.db.(incidents := map["i" := Incident(true, Active, "")]));
    var s := System(empty, None, map[], [], false, Stopped);
    ss, acts := [s, s.(server := open), s.(server := OpenWorld(map[]))],
                [Server(NewIncident("i", "")), Server(NewStream("i", "s", "audio"))];
    assert Step(cfg, SAMPLE, ss[0], acts[0], ss[1]);
    assert Step(cfg, SAMPLE, ss[1], acts[1], ss[2]);
  }

  /** An execution that stopped between a file and its entry at moment `at`. */
  ghost predicate LosesAt(cfg: Config, ss: seq<System>, acts: seq<Action>, at: nat, s: System) {
    && Execution(cfg, SAMPLE, ss, acts) && ss[|acts|] == s
    && at < |acts| && acts[at].Stop? && ss[at].pc.FileWritten?
  }

  lemma ExtendLoss(cfg: Config, ss: seq<System>, acts: seq<Action>, at: nat, s: System, a: Action, t: System)
    requires LosesAt(cfg, ss, acts, at, s) && Step(cfg, SAMPLE, s, a, t)
    ensures LosesAt(cfg, ss + [t], acts + [a], at, t)
  {
    hide Step, Init;
    ExtendExecution(cfg, SAMPLE, ss, acts, a, t);
  }

  /** One chunk is staged; the file of a second one is written, but the process
      stops before its entry is. */
  lemma StopWhileStaging(cfg: Config) returns (ss: seq<System>, acts: seq<Action>, at: nat, s: System)
    ensures LosesAt(cfg, ss, acts, at, s)
    ensures s.server == OpenWorld(map[]) && s.disk == Some([SampleEntry(cfg, false, 0)]) && s.pc.Stopped?
    ensures ChunkFileName("audio", 1) in s.files && s.files[ChunkFileName("audio", 1)] == [0]
  {
    hide Execution, ChunkFileName, OpenWorld, LosesAt;
    ss, acts := OpenStream(cfg);
    var n1, n2 := ChunkFileName("audio", 1), ChunkFileName("audio", 2);
    var w, e := OpenWorld(map[]), SampleEntry(cfg, false, 0);
    if n1 == n2 {
      ChunkFileNameInjective("audio", 1, "audio", 2);
    }
    var s1 := System(w, Some([]), map[], [], true, Idle);
    ExtendExecution(cfg, SAMPLE, ss, acts, Begin, s1);
    ss, acts := ss + [s1], acts + [Begin];
    var s2 := s1.(files := map[n1 := [0]], pc := FileWritten([0]));
    ExtendExecution(cfg, SAMPLE, ss, acts, WriteFile([0]), s2);
    ss, acts := ss + [s2], acts + [WriteFile([0])];
    var s3 := s2.(disk := Some([e]), mem := [e], pc := Idle);
    assert [] + [NewEntry(cfg, SAMPLE, [], [0], 0, 0)] == [e];
    ExtendExecution(cfg, SAMPLE, ss, acts, SaveStaged(0, 0), s3);
    ss, acts := ss + [s3], acts + [SaveStaged(0, 0)];
    var s4 := s3.(files := map[n1 := [0], n2 := [0]], pc := FileWritten([0]));
    ExtendExecution(cfg, SAMPLE, ss, acts, WriteFile([0]), s4);
    ss, acts := ss + [s4], acts + [WriteFile([0])];
    s := s4.(mem := [], staging := false, pc := Stopped);
    ExtendExecution(cfg, SAMPLE, ss, acts, Stop, s);
    at := |acts|;
    StopLoses(cfg, ss, acts, s4, s);
    ss, acts := ss + [s], acts + [Stop];
  }

  lemma StopLoses(cfg: Config, ss: seq<System>, acts: seq<Action>, s: System, t: System)
    requires Execution(cfg, SAMPLE, ss, acts) && ss[|acts|] == s && s.pc.FileWritten?
    requires Execution(cfg, SAMPLE, ss + [t], acts + [Stop])
    ensures LosesAt(cfg, ss + [t], acts + [Stop], |acts|, t)
  {
    hide Step, Init;
  }

  function SampleRequest(cfg: Config): Request {
    var c := SampleEntry(cfg, false, 1);
    Request(false, Some(KeyHash(cfg, SAMPLE, c.index)), UploadOf(SAMPLE, c), [0], 0, "", Received)
  }

  /** The next run resumes with one entry and counts an attempt. */
  lemma ResumeStaged(cfg: Config) returns (ss: seq<System>, acts: seq<Action>, at: nat, s: System)
    ensures LosesAt(cfg, ss, acts, at, s)
    ensures s.server == OpenWorld(map[]) && s.mem == [SampleEntry(cfg, false, 1)] && s.pc == Attempting(0, [0])
  {
    assert |ChunkFileName("audio", 1)| > 0;
    hide ChunkFileName, LosesAt, OpenWorld;
    ss, acts, at, s := StopWhileStaging(cfg);
    var e, f := SampleEntry(cfg, false, 0), SampleEntry(cfg, false, 1);
    var s1 := s.(mem := [e], staging := false, pc := Idle);
    ExtendLoss(cfg, ss, acts, at, s, Resume, s1);
    ss, acts := ss + [s1], acts + [Resume];
    var s2 := s1.(disk := Some([f]), mem := [f], pc := Attempting(0, [0]));
    assert [e][0 := f] == [f];
    ExtendLoss(cfg, ss, acts, at, s1, StartAttempt(0), s2);
    ss, acts, s := ss + [s2], acts + [StartAttempt(0)], s2;
  }

  /** And sends its chunk. */
  lemma ResumeAndSend(cfg: Config) returns (ss: seq<System>, acts: seq<Action>, at: nat, s: System)
    ensures LosesAt(cfg, ss, acts, at, s)
    ensures s.server == OpenWorld(map[0 := SampleRequest(cfg)]) && s.mem == [SampleEntry(cfg, false, 1)]
    ensures s.pc == Waiting(0, 0)
  {
    hide ChunkFileName, LosesAt, KeyHash;
    ss, acts, at, s := ResumeStaged(cfg);
    var t := s.(server := OpenWorld(map[0 := SampleRequest(cfg)]), pc := Waiting(0, 0));
    ExtendLoss(cfg, ss, acts, at, s, Send(0), t);
    ss, acts, s := ss + [t], acts + [Send(0)], t;
  }

  /** Server steps that follow each other, one after the other. */
  lemma ServerSteps(cfg: Config, ss: seq<System>, acts: seq<Action>, at: nat, s: System, vs: seq<World>, ks: seq<Label>)
    returns (ts: seq<System>, bs: seq<Action>, t: System)
    requires LosesAt(cfg, ss, acts, at, s) && |vs| == |ks| + 1 && vs[0] == s.server
    requires forall k :: 0 <= k < |ks| ==> Next(cfg, vs[k], ks[k]) == Some(vs[k + 1]) && Atomic(ks[k]) && !ks[k].Spawn?
    ensures LosesAt(cfg, ts, bs, at, t) && t == s.(server := vs[|ks|])
  {
    hide Next, LosesAt;
    ts, bs, t := ss, acts, s;
    for k := 0 to |ks|
      invariant LosesAt(cfg, ts, bs, at, t) && t == s.(server := vs[k])
    {
      var u := t.(server := vs[k + 1]);
      ExtendLoss(cfg, ts, bs, at, t, Server(ks[k]), u);
      ts, bs, t := ts + [u], bs + [Server(ks[k])], u;
    }
  }

  lemma SampleAdmissible(cfg: Config)
    ensures var w := OpenWorld(map[0 := SampleRequest(cfg)]);
            Admissible(cfg, w.db, w.reqs[0]) && BodyRefusal(cfg, w.reqs[0]).None? && PathOf(w.reqs[0].meta).Some?
  {
    hide Padded6;
  }

  /** Such an execution exists: two files are written, the process stops before
      the second entry, and the resumed recorder completes with one chunk. */
  lemma LostFileIsReachable(cfg: Config) returns (ss: seq<System>, acts: seq<Action>, i: nat)
    ensures Execution(cfg, SAMPLE, ss, acts) && i < |acts| && acts[i].AskCompletion?
    ensures ("i", "s") in ss[i + 1].server.db.streams
    ensures ss[i + 1].server.db.streams[("i", "s")].status == StreamComplete(1)
    ensures !AllFilesStored(cfg, SAMPLE, ss, acts, i, ss[i + 1].server.db.rows)
  {
    hide LosesAt, Next, Admissible, BodyRefusal, PathOf, ChunkFileName, UploadOf, AllFilesStored;
    var at, s;
    ss, acts, at, s := ResumeAndSend(cfg);
    SampleAdmissible(cfg);
    var vs := AdmissibleUploadIsCreated(cfg, s.server, 0, 0);
    ss, acts, s := ServerSteps(cfg, ss, acts, at, s, vs, Course(0, 0));
    ss, acts, s := Uploaded(cfg, ss, acts, at, s);
    i := |acts|;
    ss, acts := Completes(cfg, ss, acts, at, s);
    CompletedHoldsAllFilesIff(cfg, SAMPLE, ss, acts, i);
  }

  /** The recorder learns of the success and saves it. */
  lemma Uploaded(cfg: Config, ss: seq<System>, acts: seq<Action>, at: nat, s: System)
    returns (ts: seq<System>, bs: seq<Action>, t: System)
    requires LosesAt(cfg, ss, acts, at, s) && s.pc == Waiting(0, 0) && s.mem == [SampleEntry(cfg, false, 1)]
    requires 0 in s.server.reqs && Answered(s.server.reqs[0])
    ensures LosesAt(cfg, ts, bs, at, t) && t.server == s.server && t.pc.Idle? && t.mem == [SampleEntry(cfg, true, 1)]
  {
    hide LosesAt, Answered, ChunkFileName;
    var g := SampleEntry(cfg, true, 1);
    var s1 := s.(mem := [g], pc := Confirmed(0));
    ExtendLoss(cfg, ss, acts, at, s, Confirm, s1);
    t := s1.(disk := Some([g]), pc := Idle);
    ExtendLoss(cfg, ss + [s1], acts + [Confirm], at, s1, SaveUploaded, t);
    ts, bs := ss + [s1] + [t], acts + [Confirm] + [SaveUploaded];
  }

  lemma Completes(cfg: Config, ss: seq<System>, acts: seq<Action>, at: nat, s: System)
    returns (ts: seq<System>, bs: seq<Action>)
    requires LosesAt(cfg, ss, acts, at, s) && s.pc.Idle? && AllUploaded(s.mem) && |s.mem| == 1
    requires IsActive(s.server.db, "i") && s.server.db.streams == map[("i", "s") := Stream("audio", StreamOpen)]
    ensures Execution(cfg, SAMPLE, ts, bs) && |bs| == |acts| + 1 && bs[|acts|].AskCompletion?
    ensures !NoLostFile(ts, bs, |acts|)
    ensures ("i", "s") in ts[|acts| + 1].server.db.streams
    ensures ts[|acts| + 1].server.db.streams[("i", "s")].status == StreamComplete(1)
  {
    hide Init, Contiguous, HoldsExactly;
    CompletionSucceeds(cfg, SAMPLE, ss, acts, |acts|);
    hide Step;
    var t := s.(server := Next(cfg, s.server, FinishStream("i", "s", 1)).value);
    assert Step(cfg, SAMPLE, s, AskCompletion, t) by { AskStep(cfg, s, t); }
    ExtendExecution(cfg, SAMPLE, ss, acts, AskCompletion, t);
    ts, bs := ss + [t], acts + [AskCompletion];
    assert bs[at].Stop? && ts[at].pc.FileWritten?;
  }

  lemma AskStep(cfg: Config, s: System, t: System)
    requires s.pc.Idle? && AllUploaded(s.mem) && |s.mem| == 1 && Next(cfg, s.server, FinishStream("i", "s", 1)).Some?
    requires t == s.(server := Next(cfg, s.server, FinishStream("i", "s", 1)).value)
    ensures Step(cfg, SAMPLE, s, AskCompletion, t)
  {
    hide Next;
  }
}
