/** Any number of relay uploads at once: their part loops interleave part by
    part over one limiter and one staging directory. */
module MultipartRuns {
  import opened Text
  import opened Keys
  import opened Chunks
  import opened InFlight
  import opened Multipart

  /** Where an upload stands. `input` is there as long as a slot is held, `id`
      as long as a file is staged. */
  datatype Pc =
    | Reading(n: nat)
    | Admitted(at: nat, input: Metadata)
    | Staged(at: nat, n: nat, input: Metadata, id: nat)
    | Closing(input: Metadata, id: nat, result: Option<Commit>)
    | Releasing(input: Metadata, result: Option<Commit>)
    | Finished(result: Option<Commit>)

  datatype Upload = Upload(parts: seq<Part>, client: string, pc: Pc)

  /** `holder` and `owner` record who took a slot and who staged a file; no step
      reads them. */
  datatype Relay = Relay(slots: map<string, Slot>, files: map<nat, Bytes>, next: nat, uploads: map<nat, Upload>,
                         holder: map<string, nat>, owner: map<nat, nat>)

  /** The parser, SHA-256 and the two limits. */
  datatype Setup = Setup(parse: map<string, string> -> Option<Metadata>, sha: Bytes -> string,
                         maxSession: int, maxClient: int)

  datatype Label =
    | Arrive(q: nat, parts: seq<Part>, client: string)
    | Read(q: nat)
    | Stage(q: nat, preflight: bool)
    | Conclude(q: nat)
    | Cleanup(q: nat)
    | Release(q: nat)

  function KeyOf(input: Metadata): string {
    RelayChunkKey(input.session, input.index)
  }

  // -------------------------------------------------------------------- steps

  predicate Enabled(w: Relay, l: Label) {
    if l.Arrive? then l.q !in w.uploads
    else
      && l.q in w.uploads
      && var u := w.uploads[l.q];
         match l
         case Read(_) => u.pc.Reading? || (u.pc.Staged? && u.pc.n < |u.parts|)
         case Stage(_, _) => u.pc.Admitted? && u.pc.at < |u.parts| && u.parts[u.pc.at].File?
         case Conclude(_) => u.pc.Staged? && u.pc.n == |u.parts| && u.pc.id in w.files
         case Cleanup(_) => u.pc.Closing?
         case Release(_) => u.pc.Releasing?
         case _ => false
  }

  function Move(w: Relay, q: nat, u: Upload, pc: Pc): Relay {
    w.(uploads := w.uploads[q := u.(pc := pc)])
  }

  /** The file part: parse what was read so far and ask for a slot. */
  ghost function MeetFile(s: Setup, w: Relay, q: nat, u: Upload, n: nat): Relay
    requires n <= |u.parts|
  {
    match s.parse(FieldsOf(u.parts, n))
    case None => Move(w, q, u, Finished(None))
    case Some(input) =>
      if !Room(s.maxSession, s.maxClient, w.slots, u.client, input) then Move(w, q, u, Finished(None))
      else Move(w, q, u, Admitted(n, input)).(slots := w.slots[KeyOf(input) := Slot(input.session, u.client)],
                                            holder := w.holder[KeyOf(input) := q])
  }

  ghost function ReadNext(s: Setup, w: Relay, q: nat, u: Upload, n: nat): Relay {
    if n >= |u.parts| then Move(w, q, u, Finished(None))
    else if u.parts[n].File? then MeetFile(s, w, q, u, n)
    else if GoodField(u.parts, n) then Move(w, q, u, Reading(n + 1))
    else Move(w, q, u, Finished(None))
  }

  /** What is committed of a staged file: nothing if size or hash differ. */
  function Outcome(s: Setup, input: Metadata, body: Bytes): Option<Commit> {
    if |body| == input.size && s.sha(body) == input.sha then Some(Commit(input, body)) else None
  }

  /** A part after the file: only unnamed ones are let through. */
  function ReadTrailing(w: Relay, q: nat, u: Upload): Relay
    requires u.pc.Staged? && u.pc.n < |u.parts|
  {
    if u.parts[u.pc.n].Field? && u.parts[u.pc.n].name == "" then Move(w, q, u, u.pc.(n := u.pc.n + 1))
    else Move(w, q, u, Closing(u.pc.input, u.pc.id, None))
  }

  /** The core's preflight, then staging. */
  function StageFile(w: Relay, q: nat, u: Upload, preflight: bool): Relay
    requires u.pc.Admitted? && u.pc.at < |u.parts| && u.parts[u.pc.at].File?
  {
    if !preflight || !u.parts[u.pc.at].save.Saved? then Move(w, q, u, Releasing(u.pc.input, None))
    else Move(w, q, u, Staged(u.pc.at, u.pc.at + 1, u.pc.input, w.next))
         .(files := w.files[w.next := u.parts[u.pc.at].body], next := w.next + 1, owner := w.owner[w.next := q])
  }

  function RemoveFile(w: Relay, q: nat, u: Upload): Relay
    requires u.pc.Closing?
  {
    Move(w, q, u, Releasing(u.pc.input, u.pc.result)).(files := w.files - {u.pc.id}, owner := w.owner - {u.pc.id})
  }

  function ReturnSlot(w: Relay, q: nat, u: Upload): Relay
    requires u.pc.Releasing?
  {
    Move(w, q, u, Finished(u.pc.result)).(slots := w.slots - {KeyOf(u.pc.input)},
                                          holder := w.holder - {KeyOf(u.pc.input)})
  }

  ghost function Step(s: Setup, w: Relay, l: Label): Relay
    requires Enabled(w, l)
  {
    if l.Arrive? then w.(uploads := w.uploads[l.q := Upload(l.parts, l.client, Reading(0))])
    else
      var q, u := l.q, w.uploads[l.q];
      match l
      case Read(_) => if u.pc.Reading? then ReadNext(s, w, q, u, u.pc.n) else ReadTrailing(w, q, u)
      case Stage(_, preflight) => StageFile(w, q, u, preflight)
      case Conclude(_) => Move(w, q, u, Closing(u.pc.input, u.pc.id, Outcome(s, u.pc.input, w.files[u.pc.id])))
      case Cleanup(_) => RemoveFile(w, q, u)
      case Release(_) => ReturnSlot(w, q, u)
  }

  ghost predicate Run(s: Setup, ws: seq<Relay>, ls: seq<Label>) {
    && |ws| == |ls| + 1
    && ws[0] == Relay(map[], map[], 0, map[], map[], map[])
    && forall i :: 0 <= i < |ls| ==> Enabled(ws[i], ls[i]) && ws[i + 1] == Step(s, ws[i], ls[i])
  }

  // ------------------------------------------------------------ the invariant

  predicate HoldsSlot(pc: Pc) {
    pc.Admitted? || pc.Staged? || pc.Closing? || pc.Releasing?
  }

  predicate OwnsFile(pc: Pc) {
    pc.Staged? || pc.Closing?
  }

  /** One file, all metadata before it, declared size and hash right. */
  ghost predicate Committable(s: Setup, parts: seq<Part>, c: Commit) {
    exists i :: CommitsAt(s, parts, c, i)
  }

  ghost predicate CommitsAt(s: Setup, parts: seq<Part>, c: Commit, i: nat) {
    && WellShaped(parts, i) && parts[i].save.Saved? && s.parse(FieldsOf(parts, i)) == Some(c.input)
    && c.body == parts[i].body && |c.body| == c.input.size && s.sha(c.body) == c.input.sha
  }

  ghost predicate ResultOk(s: Setup, parts: seq<Part>, result: Option<Commit>) {
    result.Some? ==> Committable(s, parts, result.value)
  }

  ghost predicate PcOk(s: Setup, files: map<nat, Bytes>, u: Upload) {
    match u.pc
    case Reading(n) => n <= |u.parts| && forall j :: 0 <= j < n ==> GoodField(u.parts, j)
    case Admitted(at, input) =>
      && at < |u.parts| && u.parts[at].File? && s.parse(FieldsOf(u.parts, at)) == Some(input)
      && forall j :: 0 <= j < at ==> GoodField(u.parts, j)
    case Staged(at, n, input, id) =>
      && at < n <= |u.parts| && WellShaped(u.parts[..n], at) && u.parts[at].save.Saved?
      && s.parse(FieldsOf(u.parts, at)) == Some(input) && id in files && files[id] == u.parts[at].body
    case Closing(_, _, result) => ResultOk(s, u.parts, result)
    case Releasing(_, result) => ResultOk(s, u.parts, result)
    case Finished(result) => ResultOk(s, u.parts, result)
  }

  /** Slot k is the one upload `u` took. */
  predicate SlotOf(slot: Slot, k: string, u: Upload) {
    HoldsSlot(u.pc) && KeyOf(u.pc.input) == k && slot == Slot(u.pc.input.session, u.client)
  }

  predicate HeldBy(holder: map<string, nat>, u: Upload, q: nat) {
    HoldsSlot(u.pc) ==> KeyOf(u.pc.input) in holder && holder[KeyOf(u.pc.input)] == q
  }

  /** Slots and their holders are the same, seen from both sides. */
  ghost predicate SlotsOk(slots: map<string, Slot>, holder: map<string, nat>, uploads: map<nat, Upload>) {
    && slots.Keys == holder.Keys
    && (forall k :: k in holder ==> holder[k] in uploads && SlotOf(slots[k], k, uploads[holder[k]]))
    && (forall q :: q in uploads ==> HeldBy(holder, uploads[q], q))
  }

  predicate FileOf(id: nat, u: Upload) {
    OwnsFile(u.pc) && u.pc.id == id
  }

  predicate OwnedBy(owner: map<nat, nat>, u: Upload, q: nat) {
    OwnsFile(u.pc) ==> u.pc.id in owner && owner[u.pc.id] == q
  }

  /** And files and their owners. */
  ghost predicate FilesOk(files: map<nat, Bytes>, next: nat, owner: map<nat, nat>, uploads: map<nat, Upload>) {
    && files.Keys == owner.Keys && (forall id :: id in owner ==> id < next)
    && (forall id :: id in owner ==> owner[id] in uploads && FileOf(id, uploads[owner[id]]))
    && (forall q :: q in uploads ==> OwnedBy(owner, uploads[q], q))
  }

  ghost predicate UploadsOk(s: Setup, files: map<nat, Bytes>, uploads: map<nat, Upload>) {
    forall q :: q in uploads ==> PcOk(s, files, uploads[q])
  }

  ghost predicate LimitsOk(s: Setup, slots: map<string, Slot>) {
    Within(slots, false, s.maxSession) && Within(slots, true, s.maxClient)
  }

  ghost predicate Inv(s: Setup, w: Relay) {
    && SlotsOk(w.slots, w.holder, w.uploads)
    && FilesOk(w.files, w.next, w.owner, w.uploads)
    && UploadsOk(s, w.files, w.uploads)
    && LimitsOk(s, w.slots)
  }

  // ------------------------------------------------------ every step keeps it

  /** The upload holds the same slot as before, or none as before. */
  predicate SameSlot(u: Upload, v: Upload) {
    HoldsSlot(v.pc) == HoldsSlot(u.pc) && v.client == u.client && (HoldsSlot(v.pc) ==> v.pc.input == u.pc.input)
  }

  predicate SameFile(u: Upload, v: Upload) {
    OwnsFile(v.pc) == OwnsFile(u.pc) && (OwnsFile(v.pc) ==> v.pc.id == u.pc.id)
  }

  lemma SlotsStay(slots: map<string, Slot>, holder: map<string, nat>, uploads: map<nat, Upload>, q: nat, v: Upload)
    requires SlotsOk(slots, holder, uploads)
    requires if q in uploads then SameSlot(uploads[q], v) else !HoldsSlot(v.pc)
    ensures SlotsOk(slots, holder, uploads[q := v])
  {
    hide KeyOf;
  }

  lemma FilesStay(files: map<nat, Bytes>, next: nat, owner: map<nat, nat>, uploads: map<nat, Upload>, q: nat, v: Upload)
    requires FilesOk(files, next, owner, uploads)
    requires if q in uploads then SameFile(uploads[q], v) else !OwnsFile(v.pc)
    ensures FilesOk(files, next, owner, uploads[q := v])
  {
  }

  lemma SlotTaken(slots: map<string, Slot>, holder: map<string, nat>, uploads: map<nat, Upload>, q: nat, v: Upload)
    requires SlotsOk(slots, holder, uploads) && q in uploads && !HoldsSlot(uploads[q].pc)
    requires HoldsSlot(v.pc) && KeyOf(v.pc.input) !in slots
    ensures SlotsOk(slots[KeyOf(v.pc.input) := Slot(v.pc.input.session, v.client)],
                    holder[KeyOf(v.pc.input) := q], uploads[q := v])
  {
    hide KeyOf;
  }

  lemma SlotReturned(slots: map<string, Slot>, holder: map<string, nat>, uploads: map<nat, Upload>, q: nat, v: Upload)
    requires SlotsOk(slots, holder, uploads) && q in uploads && HoldsSlot(uploads[q].pc) && !HoldsSlot(v.pc)
    ensures var k := KeyOf(uploads[q].pc.input); k in slots && SlotsOk(slots - {k}, holder - {k}, uploads[q := v])
  {
    hide KeyOf;
    var k := KeyOf(uploads[q].pc.input);
    assert HeldBy(holder, uploads[q], q);
    forall p | p in uploads && p != q ensures HeldBy(holder - {k}, uploads[p], p) {
      assert HeldBy(holder, uploads[p], p);
    }
  }

  lemma FileTaken(files: map<nat, Bytes>, next: nat, owner: map<nat, nat>, uploads: map<nat, Upload>, q: nat, v: Upload,
                  body: Bytes)
    requires FilesOk(files, next, owner, uploads) && q in uploads && !OwnsFile(uploads[q].pc)
    requires OwnsFile(v.pc) && v.pc.id == next
    ensures FilesOk(files[next := body], next + 1, owner[next := q], uploads[q := v])
  {
  }

  lemma FileReturned(files: map<nat, Bytes>, next: nat, owner: map<nat, nat>, uploads: map<nat, Upload>, q: nat,
                     v: Upload)
    requires FilesOk(files, next, owner, uploads) && q in uploads && OwnsFile(uploads[q].pc) && !OwnsFile(v.pc)
    ensures FilesOk(files - {uploads[q].pc.id}, next, owner - {uploads[q].pc.id}, uploads[q := v])
  {
    var id := uploads[q].pc.id;
    assert OwnedBy(owner, uploads[q], q);
    forall p | p in uploads && p != q ensures OwnedBy(owner - {id}, uploads[p], p) {
      assert OwnedBy(owner, uploads[p], p);
    }
  }

  /** What an upload is entitled to depends on no file but its own. */
  lemma PcStays(s: Setup, files: map<nat, Bytes>, later: map<nat, Bytes>, u: Upload)
    requires PcOk(s, files, u)
    requires OwnsFile(u.pc) && u.pc.id in files ==> u.pc.id in later && later[u.pc.id] == files[u.pc.id]
    ensures PcOk(s, later, u)
  {
    hide WellShaped, GoodField, Committable;
  }

  lemma UploadsStay(s: Setup, files: map<nat, Bytes>, later: map<nat, Bytes>, uploads: map<nat, Upload>, q: nat,
                    v: Upload)
    requires UploadsOk(s, files, uploads) && PcOk(s, later, v)
    requires forall p :: p in uploads && p != q && OwnsFile(uploads[p].pc) && uploads[p].pc.id in files ==>
               uploads[p].pc.id in later && later[uploads[p].pc.id] == files[uploads[p].pc.id]
    ensures UploadsOk(s, later, uploads[q := v])
  {
    hide PcOk;
    forall p | p in uploads && p != q ensures PcOk(s, later, uploads[p]) {
      PcStays(s, files, later, uploads[p]);
    }
  }

  lemma OtherFiles(files: map<nat, Bytes>, next: nat, owner: map<nat, nat>, uploads: map<nat, Upload>, q: nat, p: nat)
    requires FilesOk(files, next, owner, uploads) && q in uploads && p in uploads && p != q
    requires OwnsFile(uploads[q].pc) && OwnsFile(uploads[p].pc)
    ensures uploads[p].pc.id != uploads[q].pc.id
  {
    assert OwnedBy(owner, uploads[q], q) && OwnedBy(owner, uploads[p], p);
  }

  /** A step that takes and gives nothing: only where one upload stands changes. */
  lemma MoveKeeps(s: Setup, w: Relay, q: nat, u: Upload, pc: Pc)
    requires Inv(s, w) && q in w.uploads && w.uploads[q] == u && PcOk(s, w.files, u.(pc := pc))
    requires SameSlot(u, u.(pc := pc)) && SameFile(u, u.(pc := pc))
    ensures Inv(s, Move(w, q, u, pc))
  {
    hide PcOk, SlotsOk, FilesOk, UploadsOk, LimitsOk, SameSlot, SameFile;
    SlotsStay(w.slots, w.holder, w.uploads, q, u.(pc := pc));
    FilesStay(w.files, w.next, w.owner, w.uploads, q, u.(pc := pc));
    UploadsStay(s, w.files, w.files, w.uploads, q, u.(pc := pc));
  }

  lemma ArriveKeeps(s: Setup, w: Relay, l: Label)
    requires Inv(s, w) && Enabled(w, l) && l.Arrive?
    ensures Inv(s, Step(s, w, l))
  {
    var v := Upload(l.parts, l.client, Reading(0));
    assert PcOk(s, w.files, v);
    hide PcOk, SlotsOk, FilesOk, UploadsOk, LimitsOk;
    SlotsStay(w.slots, w.holder, w.uploads, l.q, v);
    FilesStay(w.files, w.next, w.owner, w.uploads, l.q, v);
    UploadsStay(s, w.files, w.files, w.uploads, l.q, v);
  }

  lemma GrantKeeps(s: Setup, w: Relay, q: nat, u: Upload, at: nat, input: Metadata)
    requires Inv(s, w) && q in w.uploads && w.uploads[q] == u && u.pc.Reading?
    requires PcOk(s, w.files, u.(pc := Admitted(at, input)))
    requires Room(s.maxSession, s.maxClient, w.slots, u.client, input)
    ensures Inv(s, Move(w, q, u, Admitted(at, input)).(slots := w.slots[KeyOf(input) := Slot(input.session, u.client)],
                                                       holder := w.holder[KeyOf(input) := q]))
  {
    hide PcOk, SlotsOk, FilesOk, UploadsOk, Within, Number;
    var v, slot := u.(pc := Admitted(at, input)), Slot(input.session, u.client);
    SlotTaken(w.slots, w.holder, w.uploads, q, v);
    FilesStay(w.files, w.next, w.owner, w.uploads, q, v);
    UploadsStay(s, w.files, w.files, w.uploads, q, v);
    GrantWithin(w.slots, false, KeyOf(input), slot, s.maxSession);
    GrantWithin(w.slots, true, KeyOf(input), slot, s.maxClient);
  }

  lemma ReadingKeeps(s: Setup, w: Relay, q: nat, u: Upload, n: nat)
    requires Inv(s, w) && q in w.uploads && w.uploads[q] == u && u.pc == Reading(n)
    ensures Inv(s, ReadNext(s, w, q, u, n))
  {
    assert PcOk(s, w.files, u);
    hide Inv, Room;
    if n < |u.parts| && u.parts[n].File? {
      var parsed := s.parse(FieldsOf(u.parts, n));
      if parsed.Some? && Room(s.maxSession, s.maxClient, w.slots, u.client, parsed.value) {
        GrantKeeps(s, w, q, u, n, parsed.value);
      } else {
        MoveKeeps(s, w, q, u, Finished(None));
      }
    } else if n < |u.parts| && GoodField(u.parts, n) {
      MoveKeeps(s, w, q, u, Reading(n + 1));
    } else {
      MoveKeeps(s, w, q, u, Finished(None));
    }
  }

  lemma TrailingKeeps(s: Setup, w: Relay, q: nat, u: Upload)
    requires Inv(s, w) && q in w.uploads && w.uploads[q] == u && u.pc.Staged? && u.pc.n < |u.parts|
    ensures Inv(s, ReadTrailing(w, q, u))
  {
    var pc := ReadTrailing(w, q, u).uploads[q].pc;
    UploadOk(s, w, q);
    TrailingOk(s, w.files, u, pc);
    hide Inv, PcOk;
    MoveKeeps(s, w, q, u, pc);
  }

  lemma UploadOk(s: Setup, w: Relay, q: nat)
    requires Inv(s, w) && q in w.uploads
    ensures PcOk(s, w.files, w.uploads[q])
  {
  }

  lemma TrailingOk(s: Setup, files: map<nat, Bytes>, u: Upload, pc: Pc)
    requires PcOk(s, files, u) && u.pc.Staged? && u.pc.n < |u.parts|
    requires || (u.parts[u.pc.n].Field? && u.parts[u.pc.n].name == "" && pc == u.pc.(n := u.pc.n + 1))
             || pc == Closing(u.pc.input, u.pc.id, None)
    ensures PcOk(s, files, u.(pc := pc))
  {
    hide WellShaped, GoodField, Committable;
    if pc.Staged? {
      UnnamedPart(u.parts, u.pc.at, u.pc.n);
    }
  }

  lemma ConcludeKeeps(s: Setup, w: Relay, q: nat, u: Upload)
    requires Inv(s, w) && Enabled(w, Conclude(q)) && w.uploads[q] == u
    ensures Inv(s, Step(s, w, Conclude(q)))
  {
    hide Inv, PcOk;
    UploadOk(s, w, q);
    ConcludeOk(s, w.files, u);
    MoveKeeps(s, w, q, u, Closing(u.pc.input, u.pc.id, Outcome(s, u.pc.input, w.files[u.pc.id])));
  }

  lemma ConcludeOk(s: Setup, files: map<nat, Bytes>, u: Upload)
    requires PcOk(s, files, u) && u.pc.Staged? && u.pc.n == |u.parts| && u.pc.id in files
    ensures PcOk(s, files, u.(pc := Closing(u.pc.input, u.pc.id, Outcome(s, u.pc.input, files[u.pc.id]))))
  {
    hide WellShaped, FieldsOf;
    assert u.parts[..|u.parts|] == u.parts;
    var result := Outcome(s, u.pc.input, files[u.pc.id]);
    if result.Some? {
      assert CommitsAt(s, u.parts, result.value, u.pc.at);
    }
  }

  lemma SaveKeeps(s: Setup, w: Relay, q: nat, u: Upload)
    requires Inv(s, w) && q in w.uploads && w.uploads[q] == u && u.pc.Admitted?
    requires u.pc.at < |u.parts| && u.parts[u.pc.at].File? && u.parts[u.pc.at].save.Saved?
    ensures Inv(s, StageFile(w, q, u, true))
  {
    hide PcOk, SlotsOk, FilesOk, UploadsOk, LimitsOk;
    UploadOk(s, w, q);
    var at, body := u.pc.at, u.parts[u.pc.at].body;
    var v := u.(pc := Staged(at, at + 1, u.pc.input, w.next));
    var files := w.files[w.next := body];
    StagedOk(s, w.files, u, files, w.next);
    FilesFresh(w.files, w.next, w.owner, w.uploads);
    SlotsStay(w.slots, w.holder, w.uploads, q, v);
    FileTaken(w.files, w.next, w.owner, w.uploads, q, v, body);
    UploadsStay(s, w.files, files, w.uploads, q, v);
  }

  lemma StagedOk(s: Setup, files: map<nat, Bytes>, u: Upload, later: map<nat, Bytes>, id: nat)
    requires PcOk(s, files, u) && u.pc.Admitted? && u.parts[u.pc.at].save.Saved?
    requires id in later && later[id] == u.parts[u.pc.at].body
    ensures PcOk(s, later, u.(pc := Staged(u.pc.at, u.pc.at + 1, u.pc.input, id)))
  {
    PrefixShape(u.parts, u.pc.at);
  }

  lemma FilesFresh(files: map<nat, Bytes>, next: nat, owner: map<nat, nat>, uploads: map<nat, Upload>)
    requires FilesOk(files, next, owner, uploads)
    ensures next !in files
  {
  }

  lemma StageKeeps(s: Setup, w: Relay, q: nat, u: Upload, preflight: bool)
    requires Inv(s, w) && q in w.uploads && w.uploads[q] == u && u.pc.Admitted?
    requires u.pc.at < |u.parts| && u.parts[u.pc.at].File?
    ensures Inv(s, StageFile(w, q, u, preflight))
  {
    hide Inv;
    if preflight && u.parts[u.pc.at].save.Saved? {
      SaveKeeps(s, w, q, u);
    } else {
      MoveKeeps(s, w, q, u, Releasing(u.pc.input, None));
    }
  }

  /** A result is as good while the file goes and when the slot goes. */
  lemma ResultStays(s: Setup, files: map<nat, Bytes>, later: map<nat, Bytes>, u: Upload)
    requires PcOk(s, files, u) && (u.pc.Closing? || u.pc.Releasing?)
    ensures PcOk(s, later,
                 u.(pc := if u.pc.Closing? then Releasing(u.pc.input, u.pc.result) else Finished(u.pc.result)))
  {
    hide Committable;
  }

  lemma CleanupKeeps(s: Setup, w: Relay, q: nat, u: Upload)
    requires Inv(s, w) && q in w.uploads && w.uploads[q] == u && u.pc.Closing?
    ensures Inv(s, RemoveFile(w, q, u))
  {
    hide PcOk, SlotsOk, FilesOk, UploadsOk, LimitsOk;
    var v, files := u.(pc := Releasing(u.pc.input, u.pc.result)), w.files - {u.pc.id};
    UploadOk(s, w, q);
    ResultStays(s, w.files, files, u);
    SlotsStay(w.slots, w.holder, w.uploads, q, v);
    FileReturned(w.files, w.next, w.owner, w.uploads, q, v);
    forall p | p in w.uploads && p != q && OwnsFile(w.uploads[p].pc) ensures w.uploads[p].pc.id != u.pc.id {
      OtherFiles(w.files, w.next, w.owner, w.uploads, q, p);
    }
    UploadsStay(s, w.files, files, w.uploads, q, v);
  }

  lemma ReleaseKeeps(s: Setup, w: Relay, q: nat, u: Upload)
    requires Inv(s, w) && q in w.uploads && w.uploads[q] == u && u.pc.Releasing?
    ensures Inv(s, ReturnSlot(w, q, u))
  {
    hide PcOk, SlotsOk, FilesOk, UploadsOk, Within;
    var v, k := u.(pc := Finished(u.pc.result)), KeyOf(u.pc.input);
    UploadOk(s, w, q);
    ResultStays(s, w.files, w.files, u);
    SlotReturned(w.slots, w.holder, w.uploads, q, v);
    FilesStay(w.files, w.next, w.owner, w.uploads, q, v);
    UploadsStay(s, w.files, w.files, w.uploads, q, v);
    ReleaseWithin(w.slots, false, k, s.maxSession);
    ReleaseWithin(w.slots, true, k, s.maxClient);
  }

  lemma StepKeeps(s: Setup, w: Relay, l: Label)
    requires Inv(s, w) && Enabled(w, l)
    ensures Inv(s, Step(s, w, l))
  {
    hide Inv, ReadNext, ReadTrailing, StageFile, RemoveFile, ReturnSlot;
    match l
    case Arrive(_, _, _) => ArriveKeeps(s, w, l);
    case Read(q) =>
      if w.uploads[q].pc.Reading? {
        ReadingKeeps(s, w, q, w.uploads[q], w.uploads[q].pc.n);
      } else {
        TrailingKeeps(s, w, q, w.uploads[q]);
      }
    case Stage(q, preflight) => StageKeeps(s, w, q, w.uploads[q], preflight);
    case Conclude(q) => ConcludeKeeps(s, w, q, w.uploads[q]);
    case Cleanup(q) => CleanupKeeps(s, w, q, w.uploads[q]);
    case Release(q) => ReleaseKeeps(s, w, q, w.uploads[q]);
  }

  lemma {:induction false} RunInv(s: Setup, ws: seq<Relay>, ls: seq<Label>, i: nat)
    requires Run(s, ws, ls) && i <= |ls|
    ensures Inv(s, ws[i])
  {
    if i > 0 {
      RunInv(s, ws, ls, i - 1);
      hide Inv, Step, Enabled;
      StepKeeps(s, ws[i - 1], ls[i - 1]);
    }
  }

  // ----------------------------------------------------------- main theorems

  /** Whatever the interleaving, the slots out and the files staged are exactly
      those of uploads under way: each has one holder, and an upload that has
      ended, in whatever way, has none. */
  lemma NothingLeaks(s: Setup, ws: seq<Relay>, ls: seq<Label>, i: nat, k: string, id: nat)
    requires Run(s, ws, ls) && i <= |ls|
    ensures var w := ws[i];
            && (k in w.slots <==>
                exists q :: q in w.uploads && HoldsSlot(w.uploads[q].pc) && KeyOf(w.uploads[q].pc.input) == k)
            && (id in w.files <==> exists q :: q in w.uploads && OwnsFile(w.uploads[q].pc) && w.uploads[q].pc.id == id)
  {
    RunInv(s, ws, ls, i);
    hide Run, UploadsOk, LimitsOk, KeyOf;
    var w := ws[i];
    if k in w.slots {
      assert SlotOf(w.slots[k], k, w.uploads[w.holder[k]]);
    }
    if id in w.files {
      assert FileOf(id, w.uploads[w.owner[id]]);
    }
  }

  /** So when all uploads have ended no slot is out and no file is left. */
  lemma AllEnded(s: Setup, ws: seq<Relay>, ls: seq<Label>, i: nat)
    requires Run(s, ws, ls) && i <= |ls| && forall q :: q in ws[i].uploads ==> ws[i].uploads[q].pc.Finished?
    ensures ws[i].slots == map[] && ws[i].files == map[]
  {
    forall k ensures k !in ws[i].slots {
      NothingLeaks(s, ws, ls, i, k, 0);
    }
    forall id ensures id !in ws[i].files {
      NothingLeaks(s, ws, ls, i, "", id);
    }
  }

  /** A step of one upload takes, returns, stages or removes only its own. */
  lemma StepsTouchOnlyTheirOwn(s: Setup, ws: seq<Relay>, ls: seq<Label>, i: nat, p: nat)
    requires Run(s, ws, ls) && i < |ls| && p in ws[i].uploads && p != ls[i].q
    ensures p in ws[i + 1].uploads && ws[i + 1].uploads[p] == ws[i].uploads[p]
    ensures HoldsSlot(ws[i].uploads[p].pc) ==>
              var k := KeyOf(ws[i].uploads[p].pc.input);
              k in ws[i].slots && k in ws[i + 1].slots && ws[i + 1].slots[k] == ws[i].slots[k]
    ensures OwnsFile(ws[i].uploads[p].pc) ==>
              var id := ws[i].uploads[p].pc.id;
              id in ws[i].files && id in ws[i + 1].files && ws[i + 1].files[id] == ws[i].files[id]
  {
    RunInv(s, ws, ls, i);
    RunInv(s, ws, ls, i + 1);
    var w, v := ws[i], ws[i + 1];
    StepRests(s, w, ls[i], p);
    hide UploadsOk, LimitsOk, KeyOf, Step, Run;
    assert HeldBy(w.holder, w.uploads[p], p) && HeldBy(v.holder, v.uploads[p], p);
    assert OwnedBy(w.owner, w.uploads[p], p) && OwnedBy(v.owner, v.uploads[p], p);
    if OwnsFile(w.uploads[p].pc) {
      BytesRest(s, w, ls[i], p);
    }
  }

  /** Another upload, and every file but the one at hand, is left alone. */
  predicate Rests(w: Relay, v: Relay, q: nat, u: Upload) {
    && q in v.uploads && v.uploads == w.uploads[q := v.uploads[q]]
    && forall id :: id in w.files && id != w.next && !FileOf(id, u) ==> id in v.files && v.files[id] == w.files[id]
  }

  lemma MeetFileRests(s: Setup, w: Relay, q: nat, u: Upload, n: nat)
    requires n <= |u.parts|
    ensures Rests(w, MeetFile(s, w, q, u, n), q, u)
  {
    hide Room, KeyOf, FieldsOf;
  }

  lemma ReadRests(s: Setup, w: Relay, q: nat, u: Upload, n: nat)
    ensures Rests(w, ReadNext(s, w, q, u, n), q, u)
  {
    hide MeetFile, GoodField;
    if n < |u.parts| {
      MeetFileRests(s, w, q, u, n);
    }
  }

  lemma StepRests(s: Setup, w: Relay, l: Label, p: nat)
    requires Enabled(w, l) && p in w.uploads && p != l.q
    ensures p in Step(s, w, l).uploads && Step(s, w, l).uploads[p] == w.uploads[p]
    ensures l.Arrive? ==> Step(s, w, l).files == w.files
    ensures !l.Arrive? ==> Rests(w, Step(s, w, l), l.q, w.uploads[l.q])
  {
    hide ReadNext, KeyOf, Outcome;
    if l.Read? {
      ReadRests(s, w, l.q, w.uploads[l.q], if w.uploads[l.q].pc.Reading? then w.uploads[l.q].pc.n else 0);
    }
  }

  lemma BytesRest(s: Setup, w: Relay, l: Label, p: nat)
    requires Inv(s, w) && Enabled(w, l) && p in w.uploads && p != l.q && OwnsFile(w.uploads[p].pc)
    ensures var id := w.uploads[p].pc.id;
            id in w.files && id in Step(s, w, l).files && Step(s, w, l).files[id] == w.files[id]
  {
    hide UploadsOk, LimitsOk, SlotsOk, FilesOk, Step;
    Owned(w.files, w.next, w.owner, w.uploads, p);
    StepRests(s, w, l, p);
    if !l.Arrive? && OwnsFile(w.uploads[l.q].pc) {
      OtherFiles(w.files, w.next, w.owner, w.uploads, l.q, p);
    }
  }

  lemma Owned(files: map<nat, Bytes>, next: nat, owner: map<nat, nat>, uploads: map<nat, Upload>, p: nat)
    requires FilesOk(files, next, owner, uploads) && p in uploads && OwnsFile(uploads[p].pc)
    ensures uploads[p].pc.id in files && uploads[p].pc.id != next
  {
    assert OwnedBy(owner, uploads[p], p);
  }

  /** Neither limit is ever exceeded. */
  lemma LimitsHold(s: Setup, ws: seq<Relay>, ls: seq<Label>, i: nat, key: string)
    requires Run(s, ws, ls) && i <= |ls|
    ensures s.maxSession > 0 ==> Number(ws[i].slots, false, key) <= s.maxSession
    ensures s.maxClient > 0 ==> Number(ws[i].slots, true, key) <= s.maxClient
  {
    RunInv(s, ws, ls, i);
    hide Run, SlotsOk, FilesOk, UploadsOk, Number;
  }

  /** Whatever is committed came from one file after all its metadata, with the
      declared size and hash. */
  lemma CommitsAreSound(s: Setup, ws: seq<Relay>, ls: seq<Label>, i: nat, q: nat)
    requires Run(s, ws, ls) && i <= |ls| && q in ws[i].uploads
    requires ws[i].uploads[q].pc.Finished? && ws[i].uploads[q].pc.result.Some?
    ensures Committable(s, ws[i].uploads[q].parts, ws[i].uploads[q].pc.result.value)
  {
    RunInv(s, ws, ls, i);
    hide Run, SlotsOk, FilesOk, LimitsOk, Committable;
    assert PcOk(s, ws[i].files, ws[i].uploads[q]);
  }
}
