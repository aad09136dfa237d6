/** The two multipart loops: the relay's, which holds an in-flight slot and a
    staged file, and the core's, which holds a staged file. */
module Multipart {
  import opened Text
  import opened Keys
  import opened Chunks
  import opened InFlight

  /** How staging a file part ended. A failed save leaves no file behind. */
  datatype Save = Saved | SaveRefused

  /** A multipart part as the loop meets it; `value` is None when the field is
      too large or unreadable, Broken is an error from NextPart. */
  datatype Part =
    | File(filename: string, body: Bytes, save: Save)
    | Field(name: string, value: Option<string>)
    | Broken

  /** The temp directory. Names of temp files do not repeat. */
  class Staging {
    var files: map<nat, Bytes>
    var next: nat

    ghost predicate Valid()
      reads this
    {
      forall id :: id in files ==> id < next
    }

    constructor ()
      ensures Valid() && files == map[]
    {
      files, next := map[], 0;
    }

    method Save(body: Bytes) returns (id: nat)
      requires Valid()
      modifies this
      ensures Valid() && id !in old(files) && files == old(files)[id := body]
    {
      id := next;
      files := files[id := body];
      next := next + 1;
    }

    method Cleanup(id: nat)
      requires Valid()
      modifies this
      ensures Valid() && files == old(files) - {id}
    {
      files := files - {id};
    }
  }

  // ------------------------------------------------------------------- relay

  /** relayUploadMetadata; `rest` holds the fields no check here looks at. */
  datatype Metadata = Metadata(session: string, index: nat, size: nat, sha: string, rest: seq<string>)

  /** What the loop asks of code outside it: parseRelayUploadMetadata, the core
      preflight, SHA-256, and the client's limiter key. */
  datatype Outside = Outside(parse: map<string, string> -> Option<Metadata>, preflight: Metadata -> bool,
                             sha: Bytes -> string, client: string)

  const ALLOWED: set<string> :=
    {"relay_session_id", "capability", "incident_id", "stream_id", "chunk_index", "media_type",
     "started_at", "ended_at", "byte_size", "sha256_hex", "original_filename"}

  /** The named fields among the first `n` parts; later ones win. */
  function FieldsOf(parts: seq<Part>, n: nat): map<string, string>
    requires n <= |parts|
  {
    if n == 0 then map[]
    else
      var p := parts[n - 1];
      if p.Field? && p.name != "" && p.value.Some? then FieldsOf(parts, n - 1)[p.name := p.value.value]
      else FieldsOf(parts, n - 1)
  }

  predicate GoodField(parts: seq<Part>, j: nat)
    requires j < |parts|
  {
    parts[j].Field?
    && (|| parts[j].name == ""
        || (parts[j].name in ALLOWED && parts[j].name !in FieldsOf(parts, j) && parts[j].value.Some?))
  }

  /** Limits of this size leave a slot for the upload. */
  ghost predicate Room(maxSession: int, maxClient: int, slots: map<string, Slot>, client: string, input: Metadata) {
    && RelayChunkKey(input.session, input.index) !in slots
    && (maxSession > 0 ==> Number(slots, false, input.session) < maxSession)
    && (maxClient > 0 ==> Number(slots, true, client) < maxClient)
  }

  /** The limiter would grant a slot for this upload. */
  ghost predicate HasRoom(limiter: RelayInFlightLimiter, slots: map<string, Slot>, client: string, input: Metadata) {
    Room(limiter.maxSession, limiter.maxClient, slots, client, input)
  }

  /** Part `i` is the one file of the request, and every metadata field is
      before it, allowed, readable and given once. */
  ghost predicate WellShaped(parts: seq<Part>, i: nat) {
    && i < |parts| && parts[i].File?
    && (forall j :: 0 <= j < i ==> GoodField(parts, j))
    && (forall j :: i < j < |parts| ==> parts[j].Field? && parts[j].name == "")
  }

  /** The metadata parses, a slot is free, the core agrees and the bytes fit. */
  ghost predicate FileOk(out: Outside, limiter: RelayInFlightLimiter, slots: map<string, Slot>,
                         fields: map<string, string>, part: Part)
  {
    && part.File? && part.save.Saved? && out.parse(fields).Some?
    && HasRoom(limiter, slots, out.client, out.parse(fields).value) && out.preflight(out.parse(fields).value)
  }

  /** The loop gets to its end with the file at `i` staged. */
  ghost predicate Reaches(out: Outside, limiter: RelayInFlightLimiter, slots: map<string, Slot>, parts: seq<Part>,
                          i: nat)
  {
    WellShaped(parts, i) && FileOk(out, limiter, slots, FieldsOf(parts, i), parts[i])
  }

  /** What the core is asked to commit. */
  datatype Commit = Commit(input: Metadata, body: Bytes)

  /** The file at `i` may be committed as `c`. */
  ghost predicate Commits(out: Outside, limiter: RelayInFlightLimiter, slots: map<string, Slot>,
                          parts: seq<Part>, i: nat, c: Commit)
  {
    && Reaches(out, limiter, slots, parts, i)
    && c == Commit(out.parse(FieldsOf(parts, i)).value, parts[i].body)
    && |c.body| == c.input.size && out.sha(c.body) == c.input.sha
  }

  /** The file part: parse, take a slot, ask the core, stage the bytes. */
  method TakeFile(out: Outside, limiter: RelayInFlightLimiter, staging: Staging, fields: map<string, string>,
                  part: Part)
    returns (input: Option<Metadata>, temp: Option<nat>)
    requires limiter.Valid() && staging.Valid() && part.File? && limiter as object != staging
    modifies limiter, staging
    ensures limiter.Valid() && staging.Valid()
    ensures input.Some? ==> out.parse(fields) == input && HasRoom(limiter, old(limiter.slots), out.client, input.value)
    ensures limiter.slots == SlotsAfter(old(limiter.slots), out.client, input)
    ensures temp.Some? ==> input.Some? && temp.value !in old(staging.files)
                           && staging.files == old(staging.files)[temp.value := part.body]
    ensures temp.None? ==> staging.files == old(staging.files)
    ensures temp.Some? <==> FileOk(out, limiter, old(limiter.slots), fields, part)
  {
    input, temp := None, None;
    var parsed := out.parse(fields);
    if parsed.None? {
      return;
    }
    var m := parsed.value;
    var slot := limiter.Acquire(m.session, out.client, RelayChunkKey(m.session, m.index));
    if !slot.Granted? {
      return;
    }
    input := parsed;
    if !out.preflight(m) || !part.save.Saved? {
      return;
    }
    var id := staging.Save(part.body);
    temp := Some(id);
  }

  /** In a well-shaped request every part is the file, an unnamed part, or a
      metadata field before the file. */
  lemma Shape(parts: seq<Part>, n: nat, i: nat)
    requires n < |parts| && WellShaped(parts, i)
    ensures !parts[n].Broken?
    ensures parts[n].File? ==> n == i
    ensures parts[n].Field? && parts[n].name != "" ==> n < i && GoodField(parts, n)
  {
    if n < i {
      assert GoodField(parts, n);
    }
  }

  /** No file of this request can be committed. */
  ghost predicate Hopeless(out: Outside, limiter: RelayInFlightLimiter, slots: map<string, Slot>, parts: seq<Part>) {
    forall i :: !Reaches(out, limiter, slots, parts, i)
  }

  lemma BadPart(out: Outside, limiter: RelayInFlightLimiter, slots: map<string, Slot>, parts: seq<Part>, n: nat)
    requires n < |parts| && (parts[n].Broken? || (parts[n].Field? && parts[n].name != "" && !GoodField(parts, n)))
    ensures Hopeless(out, limiter, slots, parts)
  {
    forall i ensures !Reaches(out, limiter, slots, parts, i) {
      if WellShaped(parts, i) {
        Shape(parts, n, i);
      }
    }
  }

  lemma PartAfterFile(out: Outside, limiter: RelayInFlightLimiter, slots: map<string, Slot>, parts: seq<Part>,
                      at: nat, n: nat)
    requires at < n < |parts| && parts[at].File? && (parts[n].File? || (parts[n].Field? && parts[n].name != ""))
    ensures Hopeless(out, limiter, slots, parts)
  {
    forall i ensures !Reaches(out, limiter, slots, parts, i) {
      if WellShaped(parts, i) {
        Shape(parts, at, i);
        Shape(parts, n, i);
      }
    }
  }

  lemma FileRefused(out: Outside, limiter: RelayInFlightLimiter, slots: map<string, Slot>, parts: seq<Part>, n: nat)
    requires n < |parts| && parts[n].File? && !FileOk(out, limiter, slots, FieldsOf(parts, n), parts[n])
    ensures Hopeless(out, limiter, slots, parts)
  {
    forall i ensures !Reaches(out, limiter, slots, parts, i) {
      if WellShaped(parts, i) {
        Shape(parts, n, i);
      }
    }
  }

  lemma NoFile(out: Outside, limiter: RelayInFlightLimiter, slots: map<string, Slot>, parts: seq<Part>)
    requires forall j :: 0 <= j < |parts| ==> GoodField(parts, j)
    ensures Hopeless(out, limiter, slots, parts)
  {
    forall i: nat ensures !Reaches(out, limiter, slots, parts, i) {
      if i < |parts| {
        assert GoodField(parts, i);
      }
    }
  }

  ghost function SlotsAfter(slots: map<string, Slot>, client: string, input: Option<Metadata>): map<string, Slot> {
    if input.None? then slots
    else slots[RelayChunkKey(input.value.session, input.value.index) := Slot(input.value.session, client)]
  }

  /** The part loop of uploadCompleteChunk. On failure nothing stays staged; a
      slot, if one was taken, is still held and reported in `input`. */
  method ReadParts(out: Outside, limiter: RelayInFlightLimiter, staging: Staging, parts: seq<Part>)
    returns (ok: bool, input: Option<Metadata>, temp: Option<nat>, ghost at: nat)
    requires limiter.Valid() && staging.Valid() && limiter as object != staging
    modifies limiter, staging
    ensures limiter.Valid() && staging.Valid()
    ensures limiter.slots == SlotsAfter(old(limiter.slots), out.client, input)
    ensures input.Some? ==> RelayChunkKey(input.value.session, input.value.index) !in old(limiter.slots)
    ensures ok ==> Reaches(out, limiter, old(limiter.slots), parts, at)
    ensures ok ==> && input == out.parse(FieldsOf(parts, at)) && temp.Some? && temp.value !in old(staging.files)
                   && staging.files == old(staging.files)[temp.value := parts[at].body]
    ensures !ok ==> staging.files == old(staging.files) && Hopeless(out, limiter, old(limiter.slots), parts)
  {
    ok, input, temp, at := false, None, None, 0;
    var fields: map<string, string> := map[];
    ghost var slots, files := limiter.slots, staging.files;
    hide Hopeless, HasRoom;
    for n := 0 to |parts|
      invariant limiter.Valid() && staging.Valid()
      invariant limiter.slots == SlotsAfter(slots, out.client, input)
      invariant temp.None? ==> && input.None? && staging.files == files && fields == FieldsOf(parts, n)
                               && (forall j :: 0 <= j < n ==> GoodField(parts, j))
      invariant temp.Some? ==>
        && at < n && WellShaped(parts[..n], at)
        && FileOk(out, limiter, slots, FieldsOf(parts, at), parts[at]) && input == out.parse(FieldsOf(parts, at))
        && temp.value !in files && staging.files == files[temp.value := parts[at].body]
    {
      var part := parts[n];
      match part
      case Broken =>
        BadPart(out, limiter, slots, parts, n);
        if temp.Some? {
          staging.Cleanup(temp.value);
        }
        return;
      case File(_, _, _) =>
        if temp.Some? {
          PartAfterFile(out, limiter, slots, parts, at, n);
          staging.Cleanup(temp.value);
          return;
        }
        input, temp := TakeFile(out, limiter, staging, fields, part);
        if temp.None? {
          FileRefused(out, limiter, slots, parts, n);
          return;
        }
        at := n;
        PrefixShape(parts, n);
      case Field(name, value) =>
        if name != "" {
          if temp.Some? {
            PartAfterFile(out, limiter, slots, parts, at, n);
            staging.Cleanup(temp.value);
            return;
          }
          if name !in ALLOWED || name in fields || value.None? {
            BadPart(out, limiter, slots, parts, n);
            return;
          }
          fields := fields[name := value.value];
        } else if temp.Some? {
          UnnamedPart(parts, at, n);
        }
    }
    assert parts[..|parts|] == parts;
    ok := temp.Some?;
    if !ok {
      NoFile(out, limiter, slots, parts);
    }
  }

  lemma PrefixShape(parts: seq<Part>, n: nat)
    requires n < |parts| && parts[n].File? && forall j :: 0 <= j < n ==> GoodField(parts, j)
    ensures WellShaped(parts[..n + 1], n)
  {
    var prefix := parts[..n + 1];
    forall j | 0 <= j < n ensures GoodField(prefix, j) {
      PrefixFields(parts, n + 1, j);
      assert GoodField(parts, j);
    }
  }

  lemma UnnamedPart(parts: seq<Part>, at: nat, n: nat)
    requires n < |parts| && WellShaped(parts[..n], at) && parts[n].Field? && parts[n].name == ""
    ensures WellShaped(parts[..n + 1], at)
  {
    var before, after := parts[..n], parts[..n + 1];
    forall j | 0 <= j < at ensures GoodField(after, j) {
      PrefixFields(parts, n + 1, j);
      PrefixFields(parts, n, j);
      assert GoodField(before, j);
    }
    forall j | at < j < n + 1 ensures after[j].Field? && after[j].name == "" {
      if j < n {
        assert before[j] == after[j];
      }
    }
  }

  lemma {:induction false} PrefixFields(parts: seq<Part>, m: nat, n: nat)
    requires n <= m <= |parts|
    ensures FieldsOf(parts[..m], n) == FieldsOf(parts, n)
  {
    if n > 0 {
      PrefixFields(parts, m, n - 1);
    }
  }

  /** uploadCompleteChunk up to the core commit: for every sequence of parts it
      ends with no staged file and no slot of its own, and it commits exactly
      when there is one file, all metadata is before it, and size and hash match
      what was declared. */
  method UploadCompleteChunk(out: Outside, limiter: RelayInFlightLimiter, staging: Staging, parts: seq<Part>)
    returns (committed: Option<Commit>)
    requires limiter.Valid() && staging.Valid() && limiter as object != staging
    modifies limiter, staging
    ensures limiter.Valid() && limiter.slots == old(limiter.slots)
    ensures staging.Valid() && staging.files == old(staging.files)
    ensures committed.Some? ==> exists i :: Commits(out, limiter, old(limiter.slots), parts, i, committed.value)
    ensures committed.None? ==> forall i, c :: !Commits(out, limiter, old(limiter.slots), parts, i, c)
  {
    committed := None;
    ghost var slots := limiter.slots;
    var ok, input, temp, at := ReadParts(out, limiter, staging, parts);
    if ok {
      var body := staging.files[temp.value];
      if |body| == input.value.size && out.sha(body) == input.value.sha {
        committed := Some(Commit(input.value, body));
        assert Commits(out, limiter, slots, parts, at, committed.value);
      } else {
        OneFile(out, limiter, slots, parts, at);
      }
      staging.Cleanup(temp.value);
    }
    if input.Some? {
      limiter.Release(input.value.session, out.client, RelayChunkKey(input.value.session, input.value.index));
    }
  }

  lemma OneFile(out: Outside, limiter: RelayInFlightLimiter, slots: map<string, Slot>, parts: seq<Part>, at: nat)
    requires Reaches(out, limiter, slots, parts, at)
    ensures forall i :: Reaches(out, limiter, slots, parts, i) ==> i == at
  {
    forall i | Reaches(out, limiter, slots, parts, i) ensures i == at {
      Shape(parts, at, i);
    }
  }

  // -------------------------------------------------------------------- core

  /** parseChunkFields, over the fields and the file part's own name. */
  type Parser<!T> = (map<string, string>, string) -> Option<T>

  /** Part `i` is the only file and was staged, nothing is broken, every named
      field is readable, and the fields, the last of each name, parse. */
  ghost predicate CoreAccepts<T>(parse: Parser<T>, parts: seq<Part>, i: nat) {
    && i < |parts| && parts[i].File? && parts[i].save.Saved?
    && (forall j :: 0 <= j < |parts| && j != i ==> ReadableField(parts[j]))
    && parse(FieldsOf(parts, |parts|), parts[i].filename).Some?
  }

  /** readChunkUpload, and the loop of readRelayCommitUpload: a failing request
      leaves no staged file, an accepted one exactly the file it hands over. */
  method ReadChunkUpload<T>(parse: Parser<T>, staging: Staging, parts: seq<Part>)
    returns (upload: Option<T>, temp: Option<nat>)
    requires staging.Valid()
    modifies staging
    ensures staging.Valid()
    ensures upload.Some? ==> exists i: nat ::
              && CoreAccepts(parse, parts, i) && upload == parse(FieldsOf(parts, |parts|), parts[i].filename)
              && temp.Some? && temp.value !in old(staging.files)
              && staging.files == old(staging.files)[temp.value := parts[i].body]
    ensures upload.None? ==> staging.files == old(staging.files) && forall i :: !CoreAccepts(parse, parts, i)
  {
    upload, temp := None, None;
    var fields: map<string, string> := map[];
    var filename := "";
    ghost var files, at := staging.files, 0;
    for n := 0 to |parts|
      invariant staging.Valid() && fields == FieldsOf(parts, n)
      invariant temp.None? ==> staging.files == files && NoFileBefore(parts, n)
      invariant temp.Some? ==>
        && FileAt(parts, at, n) && filename == parts[at].filename
        && temp.value !in files && staging.files == files[temp.value := parts[at].body]
    {
      match parts[n]
      case Broken =>
        if temp.Some? {
          staging.Cleanup(temp.value);
        }
        return;
      case File(name, body, save) =>
        if temp.Some? {
          staging.Cleanup(temp.value);
          return;
        }
        if save == SaveRefused {
          return;
        }
        var id := staging.Save(body);
        temp, filename, at := Some(id), name, n;
      case Field(name, value) =>
        if name != "" {
          if value.None? {
            if temp.Some? {
              staging.Cleanup(temp.value);
            }
            return;
          }
          fields := fields[name := value.value];
        }
    }
    if temp.None? {
      return;
    }
    upload := parse(fields, filename);
    if upload.None? {
      staging.Cleanup(temp.value);
      assert forall i :: CoreAccepts(parse, parts, i) ==> i == at;
      temp := None;
    } else {
      assert CoreAccepts(parse, parts, at);
    }
  }

  predicate ReadableField(p: Part) {
    p.Field? && (p.name == "" || p.value.Some?)
  }

  predicate NoFileBefore(parts: seq<Part>, n: nat)
    requires n <= |parts|
  {
    forall j :: 0 <= j < n ==> ReadableField(parts[j])
  }

  predicate FileAt(parts: seq<Part>, at: nat, n: nat)
    requires n <= |parts|
  {
    && at < n && parts[at].File? && parts[at].save.Saved?
    && forall j :: 0 <= j < n && j != at ==> ReadableField(parts[j])
  }
}
