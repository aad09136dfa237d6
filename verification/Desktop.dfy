/** The desktop recorder: a client that stages encrypted chunks on disk, uploads
    them with retries, can stop between any two durable writes and is resumed
    from its manifest. Composed with the server's upload protocol. */
module Desktop {
  import opened Text
  import opened Keys
  import opened Chunks
  import opened Store
  import opened Protocol
  import opened Invariant
  import opened Safety
  import Replay

  /** The recording a manifest belongs to. */
  datatype Recording = Recording(incident: string, stream: string, media: string)

  /** One manifest entry. All but the last two fields are fixed when staged. */
  datatype Staged = Staged(index: nat, media: string, startedAt: int, endedAt: int, filename: string,
                           size: nat, sha: string, uploaded: bool, attempts: nat)

  type Manifest = seq<Staged>

  // ---------------------------------------------------- manifest validation

  /** The checks validateDesktopManifest makes of one entry; `hex` stands for
      validSHA256Hex. */
  predicate EntryValid(media: string, hex: string -> bool, c: Staged) {
    c.index > 0 && c.media == media && CleanFilename(c.filename) && c.size > 0 && hex(c.sha)
  }

  predicate IsSpace(c: char) {
    c == ' ' || '\t' <= c <= '\r'
  }

  /** cleanStageFilename leaves the name as it is; it does so for an empty one. */
  predicate CleanFilename(name: string) {
    name == "" || ('/' !in name && '\\' !in name && !IsSpace(name[0]) && !IsSpace(name[|name| - 1]))
  }

  predicate IndexesDistinct(m: Manifest) {
    forall i, j :: 0 <= i < j < |m| ==> m[i].index != m[j].index
  }

  predicate HasIndex(m: Manifest, x: nat) {
    exists i :: 0 <= i < |m| && m[i].index == x
  }

  const STAGE_VERSION: int := 1

  /** The manifest's own fields. */
  datatype Header = Header(version: int, incident: string, stream: string, media: string)

  predicate Blank(s: string) {
    forall c :: c in s ==> IsSpace(c)
  }

  predicate ValidMedia(media: string) {
    media == "audio" || media == "video" || media == "location" || media == "metadata"
  }

  predicate HeaderValid(h: Header) {
    h.version == STAGE_VERSION && !Blank(h.incident) && !Blank(h.stream) && ValidMedia(h.media)
  }

  /** What a manifest must be to be loaded. */
  predicate ManifestValid(h: Header, hex: string -> bool, m: Manifest) {
    && HeaderValid(h)
    && (forall i :: 0 <= i < |m| ==> EntryValid(h.media, hex, m[i]))
    && IndexesDistinct(m)
    && forall x :: 1 <= x <= |m| ==> HasIndex(m, x)
  }

  /** validateDesktopManifest: one pass fills the set of seen indexes, a second
      one looks for 1..n in it. */
  method ValidateManifest(h: Header, hex: string -> bool, m: Manifest) returns (ok: bool)
    ensures ok <==> ManifestValid(h, hex, m)
  {
    if !HeaderValid(h) {
      return false;
    }
    var seen: set<nat> := {};
    for i := 0 to |m|
      invariant forall k :: 0 <= k < i ==> EntryValid(h.media, hex, m[k])
      invariant forall k, j :: 0 <= k < j < i ==> m[k].index != m[j].index
      invariant forall x :: x in seen <==> exists k :: 0 <= k < i && m[k].index == x
    {
      if !EntryValid(h.media, hex, m[i]) {
        return false;
      }
      if m[i].index in seen {
        return false;
      }
      seen := seen + {m[i].index};
    }
    for x := 1 to |m| + 1
      invariant forall y :: 1 <= y < x ==> y in seen
    {
      if x !in seen {
        assert !HasIndex(m, x);
        return false;
      }
    }
    forall y | 1 <= y <= |m| ensures HasIndex(m, y) {
      assert y in seen;
    }
    ok := true;
  }

  /** So the indexes of a valid manifest are exactly 1..n, in some order. */
  lemma ValidIndexesAreContiguous(h: Header, hex: string -> bool, m: Manifest, i: nat)
    requires ManifestValid(h, hex, m) && i < |m|
    ensures 1 <= m[i].index <= |m|
  {
    var indexes := IndexesOf(m, |m|);
    var wanted := UpTo(|m|);
    forall x | x in wanted ensures x in indexes {
      assert HasIndex(m, x);
    }
    hide ManifestValid;
    assert wanted - indexes == {} && indexes * wanted == wanted;
    assert |indexes - wanted| == 0;
    assert m[i].index in wanted;
  }

  /** The indexes of the first `n` entries. */
  ghost function IndexesOf(m: Manifest, n: nat): (s: set<nat>)
    requires n <= |m| && IndexesDistinct(m)
    ensures |s| == n
    ensures forall x :: x in s <==> exists i :: 0 <= i < n && m[i].index == x
  {
    if n == 0 then {} else IndexesOf(m, n - 1) + {m[n - 1].index}
  }

  ghost function UpTo(n: nat): (s: set<nat>)
    ensures |s| == n
    ensures forall x :: x in s <==> 1 <= x <= n
  {
    if n == 0 then {} else UpTo(n - 1) + {n}
  }

  // ------------------------------------------------------ the recorder's state

  /** What the recorder process is doing. */
  datatype ClientPc =
    | Stopped
    | Idle
    | FileWritten(body: Bytes)          // the chunk file is on disk, the manifest does not know it
    | Attempting(k: nat, body: Bytes)   // the attempt is counted on disk, nothing sent yet
    | Waiting(k: nat, q: nat)           // request q is out
    | Confirmed(k: nat)                 // the success is known, not yet on disk

  /** The server, the durable state and the process. `staging` says that this
      process created the recording and may still stage chunks. */
  datatype System = System(server: World, disk: Option<Manifest>, files: map<string, Bytes>,
                           mem: Manifest, staging: bool, pc: ClientPc)

  datatype Action =
    | Server(l: Label)
    | Begin
    | WriteFile(body: Bytes)
    | SaveStaged(startedAt: int, endedAt: int)
    | StartAttempt(k: nat)
    | Send(q: nat)
    | Confirm
    | SaveUploaded
    | GiveUp
    | Stop
    | Resume
    | Tamper(filename: string, body: Bytes)
    | AskCompletion

  predicate Targets(rec: Recording, incident: string, stream: string) {
    incident == rec.incident && stream == rec.stream
  }

  /** Nobody but this recorder uploads to its stream. */
  predicate Foreign(rec: Recording, l: Label) {
    l.Spawn? ==> !Targets(rec, l.meta.incident, l.meta.stream)
  }

  function UploadOf(rec: Recording, c: Staged): Meta {
    Meta(rec.incident, rec.stream, c.index, rec.media, c.startedAt, c.endedAt, c.filename, c.size, c.sha)
  }

  function KeyHash(cfg: Config, rec: Recording, index: nat): string {
    cfg.keyHash(DesktopIdempotencyKey(rec.incident, rec.stream, rec.media, index))
  }

  /** manifestAllUploaded. */
  predicate AllUploaded(m: Manifest) {
    |m| > 0 && forall k :: 0 <= k < |m| ==> m[k].uploaded
  }

  function NewEntry(cfg: Config, rec: Recording, m: Manifest, body: Bytes, startedAt: int, endedAt: int): Staged {
    Staged(|m| + 1, rec.media, startedAt, endedAt, ChunkFileName(rec.media, |m| + 1), |body|, cfg.sha(body), false, 0)
  }

  /** chunkUpload: the file still is what the manifest says it is. */
  predicate FileIntact(cfg: Config, files: map<string, Bytes>, c: Staged) {
    c.filename != "" && c.filename in files && |files[c.filename]| == c.size && cfg.sha(files[c.filename]) == c.sha
  }

  /** The server's part of an action, if it has one. */
  function LabelOf(cfg: Config, rec: Recording, s: System, a: Action): Option<Label> {
    match a
    case Server(l) => Some(l)
    case Send(q) =>
      if s.pc.Attempting? && s.pc.k < |s.mem| then
        var c := s.mem[s.pc.k];
        Some(Spawn(q, false, Some(KeyHash(cfg, rec, c.index)), UploadOf(rec, c), s.pc.body, 0))
      else None
    case AskCompletion => Some(FinishStream(rec.incident, rec.stream, |s.mem|))
    case _ => None
  }

  /** The recorder's part of an action. */
  predicate Enabled(cfg: Config, rec: Recording, s: System, a: Action) {
    match a
    case Server(l) => Foreign(rec, l) && Atomic(l)
    case Begin => s.pc.Stopped? && s.disk.None?
    case WriteFile(body) => body != [] && s.pc.Idle? && s.staging && ChunkFileName(rec.media, |s.mem| + 1) !in s.files
    case SaveStaged(_, _) => s.pc.FileWritten?
    case StartAttempt(k) => s.pc.Idle? && k < |s.mem| && !s.mem[k].uploaded && FileIntact(cfg, s.files, s.mem[k])
    case Send(_) => s.pc.Attempting? && s.pc.k < |s.mem|
    case Confirm => s.pc.Waiting? && s.pc.k < |s.mem| && s.pc.q in s.server.reqs && Answered(s.server.reqs[s.pc.q])
    case SaveUploaded => s.pc.Confirmed?
    case GiveUp => s.pc.Waiting?
    case Stop => true
    case Resume => s.pc.Stopped? && s.disk.Some?
    case Tamper(_, _) => true
    case AskCompletion => s.pc.Idle? && AllUploaded(s.mem)
  }

  function Act(cfg: Config, rec: Recording, s: System, a: Action): System
    requires Enabled(cfg, rec, s, a)
  {
    match a
    case Server(_) | AskCompletion => s
    case Begin => s.(disk := Some([]), mem := [], staging := true, pc := Idle)
    case WriteFile(body) =>
      s.(files := s.files[ChunkFileName(rec.media, |s.mem| + 1) := body], pc := FileWritten(body))
    case SaveStaged(startedAt, endedAt) =>
      var m := s.mem + [NewEntry(cfg, rec, s.mem, s.pc.body, startedAt, endedAt)];
      s.(disk := Some(m), mem := m, pc := Idle)
    case StartAttempt(k) =>
      var m := s.mem[k := s.mem[k].(attempts := s.mem[k].attempts + 1)];
      s.(disk := Some(m), mem := m, pc := Attempting(k, s.files[s.mem[k].filename]))
    case Send(q) => s.(pc := Waiting(s.pc.k, q))
    case Confirm => s.(mem := s.mem[s.pc.k := s.mem[s.pc.k].(uploaded := true)], pc := Confirmed(s.pc.k))
    case SaveUploaded => s.(disk := Some(s.mem), pc := Idle)
    case GiveUp => s.(pc := Idle)
    case Stop => s.(mem := [], staging := false, pc := Stopped)
    case Resume => s.(mem := s.disk.value, staging := false, pc := Idle)
    case Tamper(filename, body) => s.(files := s.files[filename := body])
  }

  /** One step of the composed system. */
  ghost predicate Step(cfg: Config, rec: Recording, s: System, a: Action, t: System) {
    && Enabled(cfg, rec, s, a)
    && match LabelOf(cfg, rec, s, a)
       case None => t == Act(cfg, rec, s, a)
       case Some(l) => Next(cfg, s.server, l).Some? && t == Act(cfg, rec, s, a).(server := Next(cfg, s.server, l).value)
  }

  /** A run of recorder and server from an empty staging directory. */
  ghost predicate Execution(cfg: Config, rec: Recording, ss: seq<System>, acts: seq<Action>) {
    && |ss| == |acts| + 1
    && rec.stream != ""
    && Init(ss[0].server) && ss[0].disk.None? && ss[0].pc.Stopped? && ss[0].mem == []
    && forall i :: 0 <= i < |acts| ==> Step(cfg, rec, ss[i], acts[i], ss[i + 1])
  }

  // ------------------------------------------------------------ the invariant

  function Durable(s: System): Manifest {
    if s.disk.Some? then s.disk.value else []
  }

  /** Some bytes that staging wrote have this size and hash. */
  ghost predicate DescribesBody(cfg: Config, size: nat, sha: string) {
    exists body: Bytes :: body != [] && |body| == size && cfg.sha(body) == sha
  }

  /** Entry k-1 of a manifest is chunk k, under the name staging gave it. */
  ghost predicate WellFormed(cfg: Config, rec: Recording, m: Manifest) {
    forall k :: 0 <= k < |m| ==>
      && m[k].index == k + 1 && m[k].media == rec.media && m[k].filename == ChunkFileName(rec.media, k + 1)
      && DescribesBody(cfg, m[k].size, m[k].sha)
  }

  /** `later` may have more entries, but describes the same uploads. */
  predicate SamePlan(rec: Recording, m: Manifest, later: Manifest) {
    |m| <= |later| && forall k :: 0 <= k < |m| ==> UploadOf(rec, m[k]) == UploadOf(rec, later[k])
  }

  /** The upload is one of the manifest's. */
  predicate Planned(rec: Recording, m: Manifest, upload: Meta) {
    1 <= upload.index <= |m| && upload == UploadOf(rec, m[upload.index - 1])
  }

  /** A request to the recording's stream is one the recorder makes. */
  predicate RequestPlanned(cfg: Config, rec: Recording, m: Manifest, r: Request) {
    Targets(rec, r.meta.incident, r.meta.stream) ==>
      && Planned(rec, m, r.meta) && !r.relay && cfg.sha(r.body) == r.meta.sha
      && r.key == Some(KeyHash(cfg, rec, r.meta.index))
  }

  /** A row of the recording's stream stores the staged entry with its index,
      and that entry's key is bound to that entry. */
  ghost predicate RowPlanned(cfg: Config, rec: Recording, m: Manifest, bound: map<(string, string), Binding>, r: Row) {
    Targets(rec, r.meta.incident, r.meta.stream) ==>
      && 1 <= r.meta.index <= |m|
      && var c := m[r.meta.index - 1];
      && r.meta == Stored(cfg.backend, UploadOf(rec, c))
      && var key := (rec.incident, KeyHash(cfg, rec, r.meta.index));
      && key in bound && Fits(cfg, bound[key], UploadOf(rec, c))
  }

  ghost predicate ServerOk(cfg: Config, rec: Recording, m: Manifest, w: World) {
    && (forall q :: q in w.reqs ==> RequestPlanned(cfg, rec, m, w.reqs[q]))
    && (forall r :: r in w.db.ever ==> RowPlanned(cfg, rec, m, w.db.bound, r))
  }

  /** Chunk `index` of the recording has a row. */
  ghost predicate HasRow(rec: Recording, ever: set<Row>, index: nat) {
    exists r :: r in ever && IdentityOf(r.meta) == Streamed(rec.incident, rec.stream, index)
  }

  /** An entry is marked as uploaded only when its row exists. */
  ghost predicate UploadsTrue(rec: Recording, m: Manifest, ever: set<Row>) {
    forall k :: 0 <= k < |m| && m[k].uploaded ==> HasRow(rec, ever, k + 1)
  }

  ghost predicate PcFits(cfg: Config, rec: Recording, s: System) {
    match s.pc
    case FileWritten(body) => body != []
    case Attempting(k, body) => k < |s.mem| && |body| == s.mem[k].size && cfg.sha(body) == s.mem[k].sha
    case Confirmed(k) => k < |s.mem|
    case Waiting(k, q) => k < |s.mem| && q in s.server.reqs && s.server.reqs[q].meta == UploadOf(rec, s.mem[k])
    case _ => true
  }

  ghost predicate ClientOk(cfg: Config, rec: Recording, s: System) {
    && ManifestOk(cfg, rec, Durable(s), s.server.db.ever) && ManifestOk(cfg, rec, s.mem, s.server.db.ever)
    && (if s.pc.Stopped? then s.mem == []
        else s.disk.Some? && |s.mem| == |s.disk.value| && SamePlan(rec, s.mem, s.disk.value))
    && PcFits(cfg, rec, s)
  }

  ghost predicate SystemOk(cfg: Config, rec: Recording, s: System) {
    && Inv(cfg, s.server)
    && ServerOk(cfg, rec, Durable(s), s.server)
    && ClientOk(cfg, rec, s)
  }

  // ---------------------------------------------------- what the server does

  lemma PlannedStays(cfg: Config, rec: Recording, m: Manifest, later: Manifest, w: World)
    requires ServerOk(cfg, rec, m, w) && SamePlan(rec, m, later)
    ensures ServerOk(cfg, rec, later, w)
  {
    hide Fits, Stored;
  }

  /** What the step may add: a request of the recorder's, or of anyone else to
      other streams. */
  predicate SpawnsPlanned(cfg: Config, rec: Recording, m: Manifest, l: Label) {
    l.Spawn? ==> RequestPlanned(cfg, rec, m, Request(l.relay, l.key, l.meta, l.body, l.size, "", Received))
  }

  lemma RequestsStayPlanned(cfg: Config, rec: Recording, m: Manifest, w: World, l: Label, q: nat)
    requires ServerOk(cfg, rec, m, w) && Next(cfg, w, l).Some? && SpawnsPlanned(cfg, rec, m, l)
    requires q in Next(cfg, w, l).value.reqs
    ensures RequestPlanned(cfg, rec, m, Next(cfg, w, l).value.reqs[q])
  {
    hide RequestStep, EnvironmentStep, Planned, RowPlanned;
    if l.Spawn? {
    } else if IsRequestLabel(l) {
      Replay.OnlyOwnRequest(cfg, w, l.q, w.reqs[l.q], l);
    } else {
      EnvironmentEver(w, l);
    }
  }

  lemma RowsStayPlanned(cfg: Config, rec: Recording, m: Manifest, w: World, l: Label, r: Row)
    requires Inv(cfg, w) && ServerOk(cfg, rec, m, w) && Next(cfg, w, l).Some?
    requires r in Next(cfg, w, l).value.db.ever
    ensures RowPlanned(cfg, rec, m, Next(cfg, w, l).value.db.bound, r)
  {
    hide Inv, Next, Fits;
    StepGrows(cfg, w, l);
    if r !in w.db.ever {
      RowsComeFrom(cfg, w, l, r);
      assert RequestPlanned(cfg, rec, m, w.reqs[l.q]);
    } else {
      assert RowPlanned(cfg, rec, m, w.db.bound, r);
    }
  }

  lemma ServerStepKeeps(cfg: Config, rec: Recording, m: Manifest, w: World, l: Label)
    requires Inv(cfg, w) && ServerOk(cfg, rec, m, w) && Next(cfg, w, l).Some? && Atomic(l)
    requires SpawnsPlanned(cfg, rec, m, l)
    ensures Inv(cfg, Next(cfg, w, l).value) && ServerOk(cfg, rec, m, Next(cfg, w, l).value)
    ensures w.db.ever <= Next(cfg, w, l).value.db.ever
  {
    hide Inv, Next, RequestPlanned, RowPlanned, SpawnsPlanned;
    StepKeeps(cfg, w, l);
    StepGrows(cfg, w, l);
    var v := Next(cfg, w, l).value;
    forall q | q in v.reqs ensures RequestPlanned(cfg, rec, m, v.reqs[q]) {
      RequestsStayPlanned(cfg, rec, m, w, l, q);
    }
    forall r | r in v.db.ever ensures RowPlanned(cfg, rec, m, v.db.bound, r) {
      RowsStayPlanned(cfg, rec, m, w, l, r);
    }
  }

  // ----------------------------------------------------- what every step keeps

  lemma MetaStays(cfg: Config, w: World, l: Label, q: nat)
    requires Next(cfg, w, l).Some? && q in w.reqs
    ensures q in Next(cfg, w, l).value.reqs && Next(cfg, w, l).value.reqs[q].meta == w.reqs[q].meta
  {
    hide RequestStep, EnvironmentStep;
    Replay.RequestsStay(cfg, w, l, q);
    if Replay.StepOf(l, q) {
      Replay.OnlyOwnRequest(cfg, w, q, w.reqs[q], l);
    }
  }

  lemma RowsStay(rec: Recording, m: Manifest, ever: set<Row>, later: set<Row>)
    requires UploadsTrue(rec, m, ever) && ever <= later
    ensures UploadsTrue(rec, m, later)
  {
  }

  /** A success the recorder has seen is backed by the chunk's row. */
  lemma SuccessHasRow(cfg: Config, rec: Recording, w: World, q: nat, c: Staged)
    requires rec.stream != "" && Inv(cfg, w) && q in w.reqs && Answered(w.reqs[q]) && w.reqs[q].meta == UploadOf(rec, c)
    ensures HasRow(rec, w.db.ever, c.index)
  {
    hide Inv, ReplyOk;
    InvReply(cfg, w, q);
    var row := StoredChunk(cfg, w, q);
  }

  /** Facts about one manifest. */
  ghost predicate ManifestOk(cfg: Config, rec: Recording, m: Manifest, ever: set<Row>) {
    WellFormed(cfg, rec, m) && UploadsTrue(rec, m, ever)
  }

  lemma MarkKeeps(cfg: Config, rec: Recording, m: Manifest, ever: set<Row>, k: nat, c: Staged)
    requires c.uploaded ==> HasRow(rec, ever, k + 1)
    requires ManifestOk(cfg, rec, m, ever) && k < |m| && c == m[k].(uploaded := c.uploaded, attempts := c.attempts)
    ensures ManifestOk(cfg, rec, m[k := c], ever)
    ensures SamePlan(rec, m, m[k := c]) && SamePlan(rec, m[k := c], m)
  {
    hide HasRow, DescribesBody, ChunkFileName;
  }

  lemma AppendKeeps(cfg: Config, rec: Recording, m: Manifest, ever: set<Row>, body: Bytes, startedAt: int, endedAt: int)
    requires ManifestOk(cfg, rec, m, ever) && body != []
    ensures ManifestOk(cfg, rec, m + [NewEntry(cfg, rec, m, body, startedAt, endedAt)], ever)
    ensures SamePlan(rec, m, m + [NewEntry(cfg, rec, m, body, startedAt, endedAt)])
  {
    hide HasRow, ChunkFileName;
    assert DescribesBody(cfg, |body|, cfg.sha(body));
  }

  lemma PlanReflexive(rec: Recording, m: Manifest)
    ensures SamePlan(rec, m, m)
  {
  }

  lemma PlanTransitive(rec: Recording, m: Manifest, n: Manifest, o: Manifest)
    requires SamePlan(rec, m, n) && SamePlan(rec, n, o)
    ensures SamePlan(rec, m, o)
  {
  }

  /** The recorder's own writes keep its manifests in order and change no plan. */
  lemma LocalClientKeeps(cfg: Config, rec: Recording, s: System, a: Action)
    requires rec.stream != "" && Inv(cfg, s.server) && ClientOk(cfg, rec, s)
    requires Enabled(cfg, rec, s, a) && LabelOf(cfg, rec, s, a).None?
    ensures ClientOk(cfg, rec, Act(cfg, rec, s, a)) && SamePlan(rec, Durable(s), Durable(Act(cfg, rec, s, a)))
  {
    hide Inv, HasRow, ManifestOk, SamePlan, Answered, ChunkFileName;
    var ever := s.server.db.ever;
    var durable := Durable(s);
    PlanReflexive(rec, durable);
    EmptyManifest(cfg, rec, durable, ever);
    match a {
      case SaveStaged(startedAt, endedAt) =>
        AppendKeeps(cfg, rec, s.mem, ever, s.pc.body, startedAt, endedAt);
        var m := s.mem + [NewEntry(cfg, rec, s.mem, s.pc.body, startedAt, endedAt)];
        PlanBack(rec, s.mem, durable, m);
        PlanReflexive(rec, m);
      case StartAttempt(k) =>
        var c := s.mem[k].(attempts := s.mem[k].attempts + 1);
        MarkKeeps(cfg, rec, s.mem, ever, k, c);
        PlanBack(rec, s.mem, durable, s.mem[k := c]);
        PlanReflexive(rec, s.mem[k := c]);
      case Confirm =>
        var c := s.mem[s.pc.k].(uploaded := true);
        ConfirmHasRow(cfg, rec, s);
        MarkKeeps(cfg, rec, s.mem, ever, s.pc.k, c);
        PlanTransitive(rec, s.mem[s.pc.k := c], s.mem, durable);
      case SaveUploaded =>
        PlanReflexive(rec, s.mem);
        PlanBack(rec, s.mem, durable, s.mem);
      case _ =>
    }
  }

  lemma ConfirmHasRow(cfg: Config, rec: Recording, s: System)
    requires rec.stream != "" && Inv(cfg, s.server) && ClientOk(cfg, rec, s) && Enabled(cfg, rec, s, Confirm)
    ensures HasRow(rec, s.server.db.ever, s.pc.k + 1)
  {
    hide Inv, HasRow;
    SuccessHasRow(cfg, rec, s.server, s.pc.q, s.mem[s.pc.k]);
  }

  lemma EmptyManifest(cfg: Config, rec: Recording, m: Manifest, ever: set<Row>)
    ensures ManifestOk(cfg, rec, [], ever) && SamePlan(rec, [], m)
  {
  }

  /** Memory and disk describe the same uploads, so what extends one extends the other. */
  lemma PlanBack(rec: Recording, mem: Manifest, durable: Manifest, m: Manifest)
    requires |mem| == |durable| && SamePlan(rec, mem, durable) && SamePlan(rec, mem, m)
    ensures SamePlan(rec, durable, m)
  {
  }

  /** A server step on the recorder's side: nothing but what it is waiting for. */
  lemma SharedClientKeeps(cfg: Config, rec: Recording, s: System, a: Action, l: Label)
    requires ClientOk(cfg, rec, s) && Enabled(cfg, rec, s, a) && LabelOf(cfg, rec, s, a) == Some(l)
    requires Next(cfg, s.server, l).Some? && s.server.db.ever <= Next(cfg, s.server, l).value.db.ever
    ensures ClientOk(cfg, rec, Act(cfg, rec, s, a).(server := Next(cfg, s.server, l).value))
  {
    hide Next, HasRow, SamePlan, WellFormed;
    var v := Next(cfg, s.server, l).value;
    RowsStay(rec, s.mem, s.server.db.ever, v.db.ever);
    RowsStay(rec, Durable(s), s.server.db.ever, v.db.ever);
    hide UploadsTrue;
    if a.Send? {
      SpawnAdds(cfg, s.server, l);
    } else if s.pc.Waiting? {
      MetaStays(cfg, s.server, l, s.pc.q);
    }
  }

  lemma SpawnAdds(cfg: Config, w: World, l: Label)
    requires l.Spawn? && Next(cfg, w, l).Some?
    ensures l.q in Next(cfg, w, l).value.reqs && Next(cfg, w, l).value.reqs[l.q].meta == l.meta
  {
  }

  lemma SendIsPlanned(cfg: Config, rec: Recording, s: System, a: Action, l: Label)
    requires ClientOk(cfg, rec, s) && Enabled(cfg, rec, s, a) && LabelOf(cfg, rec, s, a) == Some(l)
    ensures SpawnsPlanned(cfg, rec, Durable(s), l) && Atomic(l)
  {
    hide UploadsTrue;
  }

  lemma StepKeepsSystem(cfg: Config, rec: Recording, s: System, a: Action, t: System)
    requires rec.stream != "" && SystemOk(cfg, rec, s) && Step(cfg, rec, s, a, t)
    ensures SystemOk(cfg, rec, t)
  {
    hide Inv, Next, ServerOk, ClientOk, Enabled, Act;
    match LabelOf(cfg, rec, s, a) {
      case None =>
        LocalClientKeeps(cfg, rec, s, a);
        LocalServerSame(cfg, rec, s, a);
        PlannedStays(cfg, rec, Durable(s), Durable(t), s.server);
      case Some(l) =>
        SendIsPlanned(cfg, rec, s, a, l);
        ServerStepKeeps(cfg, rec, Durable(s), s.server, l);
        SharedClientKeeps(cfg, rec, s, a, l);
        SharedDiskSame(cfg, rec, s, a);
    }
  }

  lemma LocalServerSame(cfg: Config, rec: Recording, s: System, a: Action)
    requires Enabled(cfg, rec, s, a)
    ensures Act(cfg, rec, s, a).server == s.server
  {
  }

  lemma SharedDiskSame(cfg: Config, rec: Recording, s: System, a: Action)
    requires Enabled(cfg, rec, s, a) && LabelOf(cfg, rec, s, a).Some?
    ensures Act(cfg, rec, s, a).disk == s.disk
  {
  }

  lemma {:induction false} ExecutionOk(cfg: Config, rec: Recording, ss: seq<System>, acts: seq<Action>, i: nat)
    requires Execution(cfg, rec, ss, acts) && i <= |acts|
    ensures SystemOk(cfg, rec, ss[i])
  {
    if i > 0 {
      ExecutionOk(cfg, rec, ss, acts, i - 1);
      hide SystemOk, Step;
      StepKeepsSystem(cfg, rec, ss[i - 1], acts[i - 1], ss[i]);
    }
  }

  // ----------------------------------------------------------- main theorems

  /** newDesktopManifest. */
  function HeaderOf(rec: Recording): Header {
    Header(STAGE_VERSION, rec.incident, rec.stream, rec.media)
  }

  /** Every manifest the recorder leaves behind, wherever it stopped, is loaded
      by the next run; the server's identifiers are not blank. */
  lemma StagedManifestsLoad(cfg: Config, rec: Recording, ss: seq<System>, acts: seq<Action>, i: nat,
                            hex: string -> bool)
    requires Execution(cfg, rec, ss, acts) && i <= |acts| && (forall body :: hex(cfg.sha(body)))
    requires ServerId(rec.incident) && ServerId(rec.stream) && ValidMedia(rec.media)
    ensures ManifestValid(HeaderOf(rec), hex, Durable(ss[i]))
  {
    hide Step, Inv, ServerOk, ManifestOk, PcFits, SamePlan;
    ExecutionOk(cfg, rec, ss, acts, i);
    assert rec.incident[0] in rec.incident && rec.stream[0] in rec.stream;
    assert CleanFilename(rec.media);
    WellFormedLoads(cfg, rec, Durable(ss[i]), ss[i].server.db.ever, hex);
  }

  lemma WellFormedLoads(cfg: Config, rec: Recording, m: Manifest, ever: set<Row>, hex: string -> bool)
    requires ManifestOk(cfg, rec, m, ever) && (forall body :: hex(cfg.sha(body)))
    requires rec.media != "" && CleanFilename(rec.media) && HeaderValid(HeaderOf(rec))
    ensures ManifestValid(HeaderOf(rec), hex, m)
  {
    hide UploadsTrue, ChunkFileName, CleanFilename, HeaderValid;
    forall k | 0 <= k < |m| ensures EntryValid(rec.media, hex, m[k]) {
      StagedNameClean(rec.media, k + 1);
    }
    forall x | 1 <= x <= |m| ensures HasIndex(m, x) {
      assert m[x - 1].index == x;
    }
  }

  lemma StagedNameClean(media: string, index: nat)
    requires media != "" && CleanFilename(media)
    ensures CleanFilename(ChunkFileName(media, index))
  {
    hide Decimal;
    var name := ChunkFileName(media, index);
    assert name[0] == media[0];
    assert name[|name| - 1] == 'c';
    Padded6Digits(index);
  }

  lemma Padded6Digits(index: nat)
    ensures '/' !in Padded6(index) && '\\' !in Padded6(index)
  {
  }

  /** The row of an uploaded entry, in the tables of a live incident. */
  lemma UploadedRow(cfg: Config, rec: Recording, s: System, k: nat) returns (r: Row)
    requires rec.stream != "" && SystemOk(cfg, rec, s) && IsActive(s.server.db, rec.incident)
    requires k < |s.mem| && s.mem[k].uploaded
    ensures r in s.server.db.rows && r.meta == Stored(cfg.backend, UploadOf(rec, s.mem[k]))
  {
    InvHistory(cfg, s.server);
    hide Inv, Stored, Fits;
    assert HasRow(rec, s.server.db.ever, k + 1);
    r :| r in s.server.db.ever && IdentityOf(r.meta) == Streamed(rec.incident, rec.stream, k + 1);
    assert RowPlanned(cfg, rec, Durable(s), s.server.db.bound, r);
    assert r.meta.index == k + 1;
  }

  ghost predicate HoldsEntry(cfg: Config, rec: Recording, rows: seq<Row>, c: Staged) {
    exists r :: r in rows && r.meta == Stored(cfg.backend, UploadOf(rec, c))
  }

  /** The stream holds exactly the staged chunks: index by index the row has
      the staged size, hash, filename and (as stored) instants. */
  ghost predicate HoldsExactly(cfg: Config, rec: Recording, rows: seq<Row>, m: Manifest) {
    && (forall k :: 0 <= k < |m| ==> HoldsEntry(cfg, rec, rows, m[k]))
    && (forall r :: r in rows && InStream(r, rec.incident, rec.stream) ==>
          1 <= r.meta.index <= |m| && r.meta == Stored(cfg.backend, UploadOf(rec, m[r.meta.index - 1])))
  }

  lemma AllUploadedHolds(cfg: Config, rec: Recording, s: System)
    requires rec.stream != "" && SystemOk(cfg, rec, s) && IsActive(s.server.db, rec.incident) && AllUploaded(s.mem)
    ensures HoldsExactly(cfg, rec, s.server.db.rows, s.mem)
  {
    hide Inv, Stored, Fits, UploadsTrue, WellFormed;
    InvHistory(cfg, s.server);
    var rows := s.server.db.rows;
    forall k | 0 <= k < |s.mem| ensures HoldsEntry(cfg, rec, rows, s.mem[k]) {
      var r := UploadedRow(cfg, rec, s, k);
    }
    forall r | r in rows && InStream(r, rec.incident, rec.stream)
      ensures 1 <= r.meta.index <= |s.mem| && r.meta == Stored(cfg.backend, UploadOf(rec, s.mem[r.meta.index - 1]))
    {
      assert RowPlanned(cfg, rec, Durable(s), s.server.db.bound, r);
    }
  }

  lemma HoldsIsContiguous(cfg: Config, rec: Recording, m: Manifest, rows: seq<Row>, ever: set<Row>)
    requires rec.stream != "" && ManifestOk(cfg, rec, m, ever) && HoldsExactly(cfg, rec, rows, m)
    ensures Contiguous(rows, rec.incident, rec.stream, rec.media, |m|)
  {
    hide UploadsTrue;
    forall x | 1 <= x <= |m| ensures IdentityTaken(rows, Streamed(rec.incident, rec.stream, x)) {
      assert m[x - 1].index == x && HoldsEntry(cfg, rec, rows, m[x - 1]);
      var r :| r in rows && r.meta == Stored(cfg.backend, UploadOf(rec, m[x - 1]));
      assert IdentityOf(r.meta) == Streamed(rec.incident, rec.stream, x);
    }
  }

  lemma StreamHasMedia(cfg: Config, w: World, incident: string, stream: string, r: Row)
    requires Inv(cfg, w) && IsActive(w.db, incident) && r in w.db.rows && InStream(r, incident, stream)
    ensures (incident, stream) in w.db.streams && w.db.streams[(incident, stream)].media == r.meta.media
  {
  }

  /** completeMediaStream answers 200: the stream is open, the rows listed for it
      are 1..n and every one of their blobs opens, and the transaction agrees. */
  ghost predicate CompletionAccepted(cfg: Config, w: World, incident: string, stream: string, n: nat) {
    && n > 0 && IsActive(w.db, incident) && (incident, stream) in w.db.streams
    && w.db.streams[(incident, stream)].status == StreamOpen
    && Contiguous(w.db.rows, incident, stream, w.db.streams[(incident, stream)].media, n)
    && (forall r :: r in w.db.rows && InStream(r, incident, stream) ==> r.path in w.blobs)
    && Next(cfg, w, FinishStream(incident, stream, n)).Some?
  }

  lemma RowsOpen(cfg: Config, w: World, incident: string, stream: string)
    requires Inv(cfg, w) && IsActive(w.db, incident)
    ensures forall r :: r in w.db.rows && InStream(r, incident, stream) ==> Describes(cfg, r, w.blobs)
  {
    InvParts(cfg, w);
    hide Inv, DbSound, RequestsOk, Exclusive, DoomedSound, Describes;
  }

  /** However often the recorder was stopped and resumed, and whatever else the
      server did: once it counts every staged chunk as uploaded, the stream of
      a live incident holds exactly those chunks, with blobs of their size and
      hash, and the recorder's completion request for their number is accepted
      exactly when the stream is still open. A recorder that asks again after
      a lost response finds it complete, and is refused. */
  lemma CompletionSucceeds(cfg: Config, rec: Recording, ss: seq<System>, acts: seq<Action>, i: nat)
    requires Execution(cfg, rec, ss, acts) && i <= |acts|
    requires AllUploaded(ss[i].mem) && IsActive(ss[i].server.db, rec.incident)
    ensures HoldsExactly(cfg, rec, ss[i].server.db.rows, ss[i].mem)
    ensures Contiguous(ss[i].server.db.rows, rec.incident, rec.stream, rec.media, |ss[i].mem|)
    ensures forall r :: r in ss[i].server.db.rows && InStream(r, rec.incident, rec.stream) ==>
              Describes(cfg, r, ss[i].server.blobs)
    ensures (rec.incident, rec.stream) in ss[i].server.db.streams
    ensures CompletionAccepted(cfg, ss[i].server, rec.incident, rec.stream, |ss[i].mem|)
            <==> ss[i].server.db.streams[(rec.incident, rec.stream)].status == StreamOpen
  {
    hide Step, Inv, ServerOk, ManifestOk, PcFits, SamePlan, HoldsExactly, Contiguous;
    ExecutionOk(cfg, rec, ss, acts, i);
    var s := ss[i];
    AllUploadedHolds(cfg, rec, s);
    HoldsIsContiguous(cfg, rec, s.mem, s.server.db.rows, s.server.db.ever);
    RowsOpen(cfg, s.server, rec.incident, rec.stream);
    var r := UploadedRow(cfg, rec, s, 0);
    assert r.meta.media == rec.media && InStream(r, rec.incident, rec.stream);
    StreamHasMedia(cfg, s.server, rec.incident, rec.stream, r);
  }
}
