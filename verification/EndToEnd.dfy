/** From the recorder to the client that checks its evidence: what was staged is
    what the bundle of the completed stream holds. */
module EndToEnd {
  import opened Text
  import opened Chunks
  import opened Store
  import opened Protocol
  import opened Invariant
  import opened Lifecycle
  import opened Desktop
  import opened Resume
  import opened Bundle
  import opened Archive
  import Staging
  import Envelope

  predicate SameChunk(c: ChunkEntry, e: Staged) {
    && c.index == e.index && c.media == e.media && c.size == e.size && c.sha == e.sha && c.filename == e.filename
  }

  /** The bundle's manifest lists exactly the staged chunks, in order. */
  predicate ListsStaged(chunks: seq<ChunkEntry>, staged: seq<Staged>) {
    && |chunks| == |staged|
    && forall k :: 0 <= k < |chunks| ==> chunks[k].index == k + 1 && SameChunk(chunks[k], staged[k])
  }

  /** Once a recorder's completion request was accepted, the stream of a live
      incident stays complete and keeps exactly the rows it had then. */
  lemma CompletedRecordingStays(cfg: Config, rec: Recording, ss: seq<System>, acts: seq<Action>, i: nat, j: nat)
    requires Execution(cfg, rec, ss, acts) && i < j <= |acts| && acts[i].AskCompletion?
    requires IsActive(ss[j].server.db, rec.incident)
    ensures (rec.incident, rec.stream) in ss[j].server.db.streams
    ensures ss[j].server.db.streams[(rec.incident, rec.stream)].status == StreamComplete(|ss[i].mem|)
    ensures forall r :: InStream(r, rec.incident, rec.stream) ==>
              (r in ss[i].server.db.rows <==> r in ss[j].server.db.rows)
  {
    hide SystemOk, Step, Init, LabelOf, AtomicRun, Contiguous;
    ExecutionOk(cfg, rec, ss, acts, i);
    Staging.CompletionStep(cfg, rec, ss[i], acts[i], ss[i + 1]);
    var ws, ls := Worlds(cfg, rec, ss, acts, j), Labels(cfg, rec, ss, acts, j);
    ServerRun(cfg, rec, ss, acts, j);
    ServerRun(cfg, rec, ss, acts, i + 1);
    ProjectionGrows(cfg, rec, ss, acts, i + 1, j);
    var a := |Labels(cfg, rec, ss, acts, i + 1)|;
    assert ws[a] == ss[i + 1].server;
    CompleteStreamsAreFrozen(cfg, ws, ls, a, |ls|, rec.incident, rec.stream, |ss[i].mem|);
  }

  /** A row of the recording's stream is the staged chunk with its index. */
  lemma RowIsStaged(cfg: Config, rec: Recording, m: seq<Staged>, rows: seq<Row>, ever: set<Row>, r: Row)
    requires ManifestOk(cfg, rec, m, ever) && HoldsExactly(cfg, rec, rows, m)
    requires r in rows && InStream(r, rec.incident, rec.stream)
    ensures 1 <= r.meta.index <= |m| && SameChunk(EntryOf(r), m[r.meta.index - 1]) && r.meta.media == rec.media
  {
    hide UploadsTrue, HoldsEntry, DescribesBody;
  }

  /** The listing of that stream is the staged chunks. */
  lemma ListingIsStaged(cfg: Config, rec: Recording, s: System, rows: seq<Row>, list: seq<Row>, media: string)
    requires ManifestOk(cfg, rec, s.mem, s.server.db.ever) && HoldsExactly(cfg, rec, s.server.db.rows, s.mem)
    requires forall r :: InStream(r, rec.incident, rec.stream) ==> (r in s.server.db.rows <==> r in rows)
    requires IsListing(rows, rec.incident, rec.stream, list) && InOrder(list, media, |s.mem|)
    ensures ListsStaged(seq(|list|, k requires 0 <= k < |list| => EntryOf(list[k])), s.mem)
    ensures list != [] ==> media == rec.media
  {
    hide ManifestOk, HoldsExactly, SameChunk, InStream;
    forall k | 0 <= k < |list|
      ensures list[k].meta.index == k + 1 && SameChunk(EntryOf(list[k]), s.mem[k])
    {
      assert list[k] in list;
      RowIsStaged(cfg, rec, s.mem, s.server.db.rows, s.server.db.ever, list[k]);
    }
    if list != [] {
      assert list[0] in list;
      RowIsStaged(cfg, rec, s.mem, s.server.db.rows, s.server.db.ever, list[0]);
    }
  }

  /** At any later moment the listing of a completed recording is what was
      staged when it was completed, with a blob for every row. */
  lemma ListedChunks(cfg: Config, rec: Recording, ss: seq<System>, acts: seq<Action>, i: nat, j: nat, list: seq<Row>)
    requires Execution(cfg, rec, ss, acts) && i < j <= |acts| && acts[i].AskCompletion?
    requires IsActive(ss[j].server.db, rec.incident)
    requires IsListing(ss[j].server.db.rows, rec.incident, rec.stream, list)
    ensures list != [] && InOrder(list, rec.media, |ss[i].mem|) && AllIntact(cfg, list, ss[j].server.blobs)
    ensures ListsStaged(seq(|list|, k requires 0 <= k < |list| => EntryOf(list[k])), ss[i].mem)
    ensures ss[i].pc.Idle? && |list| == |ss[i].mem|
    ensures forall k :: 0 <= k < |list| ==>
              list[k].meta.index == k + 1 && list[k].meta.sha == ss[i].mem[k].sha
              && Describes(cfg, list[k], ss[j].server.blobs)
  {
    hide Inv, ServerOk, ManifestOk, PcFits, SamePlan, Step, Init, LabelOf, AtomicRun, Contiguous, HoldsExactly;
    ExecutionOk(cfg, rec, ss, acts, i);
    Staging.CompletionStep(cfg, rec, ss[i], acts[i], ss[i + 1]);
    CompletionSucceeds(cfg, rec, ss, acts, i);
    CompletedRecordingStays(cfg, rec, ss, acts, i, j);
    ServerRun(cfg, rec, ss, acts, j);
    var ws, ls := Worlds(cfg, rec, ss, acts, j), Labels(cfg, rec, ss, acts, j);
    CompletedStreamsBundle(cfg, ws, ls, |ls|, rec.incident, rec.stream, list);
    var media := ss[j].server.db.streams[(rec.incident, rec.stream)].media;
    ListingIsStaged(cfg, rec, ss[i], ss[j].server.db.rows, list, media);
    var chunks := seq(|list|, k requires 0 <= k < |list| => EntryOf(list[k]));
    assert forall k :: 0 <= k < |list| ==> chunks[k] == EntryOf(list[k]);
  }

  /** In every execution in which a recorder completed its stream, and at any
      later moment while the incident lives: a client whose key opens the
      stored chunks verifies the bundle the server writes for it, and what the
      bundle lists is what the recorder staged, chunk for chunk. */
  lemma RecordingVerifies(cfg: Config, rec: Recording, ss: seq<System>, acts: seq<Action>, i: nat, j: nat,
                          client: Client, m: Bundle.Manifest, list: seq<Row>, found: map<string, Content>)
    requires Execution(cfg, rec, ss, acts) && i < j <= |acts| && acts[i].AskCompletion?
    requires IsActive(ss[j].server.db, rec.incident) && rec.incident != "" && ValidMedia(rec.media)
    requires IsListing(ss[j].server.db.rows, rec.incident, rec.stream, list) && client.sha == cfg.sha
    requires m.incident == rec.incident && m.stream == rec.stream && m.media == rec.media
    requires m.count == |m.chunks| && m.chunks == seq(|list|, k requires 0 <= k < |list| => EntryOf(list[k]))
    requires forall k :: 0 <= k < |list| ==>
               client.decrypts(rec.incident, rec.stream, rec.media, list[k].meta.index,
                               BlobAt(ss[j].server.blobs, list[k].path))
    requires forall name :: name in found <==> Unzipped(BundleEntries("", m, list, ss[j].server.blobs), name).Some?
    requires forall name :: name in found ==>
               Unzipped(BundleEntries("", m, list, ss[j].server.blobs), name) == Some(found[name])
    ensures forall k :: 0 <= k < |list| ==> list[k].path in ss[j].server.blobs
    ensures BundleVerifies(client, found, rec.incident, rec.stream, rec.media)
    ensures found["manifest.json"].manifest == m && ListsStaged(m.chunks, ss[i].mem)
  {
    hide Step, Init, Unzipped, BundleEntries, BundleVerifies, IsListing;
    ListedChunks(cfg, rec, ss, acts, i, j, list);
    assert PlainSegment(rec.media);
    hide PlainSegment;
    ServerBundleVerifies(cfg, client, m, list, ss[j].server.blobs, found);
  }

  // ------------------------------------------------------------- decryption

  function ContextOf(rec: Recording, index: nat): Envelope.Context {
    Envelope.Context(rec.incident, rec.stream, rec.media, index)
  }

  /** The bytes are an envelope of this plaintext for chunk `index` of the
      recording, as encryption under the key makes it with some nonce. */
  ghost predicate Seals(codec: Envelope.Codec, key: Envelope.Key, rec: Recording, index: nat, plain: Bytes, body: Bytes)
  {
    && Envelope.AssociatedData(ContextOf(rec, index)).Some?
    && var aad := Envelope.AssociatedData(ContextOf(rec, index)).value;
       codec.text(aad) && exists nonce :: SealedWith(codec, key, aad, nonce, plain, body)
  }

  predicate SealedWith(codec: Envelope.Codec, key: Envelope.Key, aad: string, nonce: Bytes, plain: Bytes, body: Bytes) {
    && |nonce| == Envelope.NONCE_SIZE
    && |codec.marshal(Envelope.HeaderFor(codec, key, aad, nonce))| <= Envelope.MAX_HEADER
    && body == Envelope.Frame(codec.marshal(Envelope.HeaderFor(codec, key, aad, nonce)),
                              codec.seal(key.bytes, nonce, plain, aad))
  }

  lemma SealOpens(codec: Envelope.Codec, key: Envelope.Key, rec: Recording, index: nat, plain: Bytes, body: Bytes)
    requires Envelope.Faithful(codec) && Envelope.KeyOk(key) && codec.text(key.id)
    requires Seals(codec, key, rec, index, plain, body)
    ensures Envelope.DecryptChunk(codec, key, ContextOf(rec, index), body) == Some(plain)
  {
    hide Envelope.Faithful, Envelope.KeyOk, Envelope.AssociatedData, Envelope.DecryptChunk;
    var aad := Envelope.AssociatedData(ContextOf(rec, index)).value;
    var nonce :| SealedWith(codec, key, aad, nonce, plain, body);
    Envelope.DecryptUndoesEncrypt(codec, key, ContextOf(rec, index), nonce, plain);
  }

  /** The client that holds the recorder's key. */
  function KeyHolder(cfg: Config, codec: Envelope.Codec, key: Envelope.Key): Client {
    Client(cfg.sha, (incident, stream, media, index, bytes) =>
      Envelope.DecryptChunk(codec, key, Envelope.Context(incident, stream, media, index), bytes).Some?)
  }

  /** Every file the recorder wrote before moment `i` seals the plaintext of its chunk. */
  ghost predicate AllSealed(codec: Envelope.Codec, key: Envelope.Key, rec: Recording, ss: seq<System>,
                            acts: seq<Action>,
                            i: nat, plain: nat -> Bytes)
    requires i <= |acts| < |ss|
  {
    forall j :: 0 <= j < i && acts[j].WriteFile? ==>
      Seals(codec, key, rec, |ss[j].mem| + 1, plain(|ss[j].mem| + 1), acts[j].body)
  }

  /** SHA-256 tells the files the recorder wrote from whatever else is stored. */
  ghost predicate NoCollision(cfg: Config, acts: seq<Action>, i: nat, list: seq<Row>, blobs: map<string, Bytes>)
    requires i <= |acts|
  {
    forall j, k :: 0 <= j < i && acts[j].WriteFile? && 0 <= k < |list| ==>
      cfg.sha(BlobAt(blobs, list[k].path)) == cfg.sha(acts[j].body) ==> BlobAt(blobs, list[k].path) == acts[j].body
  }

  /** The stored bytes of chunk k open to its plaintext. */
  lemma StoredChunkOpens(cfg: Config, rec: Recording, ss: seq<System>, acts: seq<Action>, i: nat, list: seq<Row>,
                         blobs: map<string, Bytes>, k: nat,
                         codec: Envelope.Codec, key: Envelope.Key, plain: nat -> Bytes)
    requires Execution(cfg, rec, ss, acts) && i <= |acts| && k < |list| && k < |ss[i].mem| && !ss[i].pc.Stopped?
    requires AllSealed(codec, key, rec, ss, acts, i, plain) && NoCollision(cfg, acts, i, list, blobs)
    requires Describes(cfg, list[k], blobs) && list[k].meta.sha == ss[i].mem[k].sha
    requires Envelope.Faithful(codec) && Envelope.KeyOk(key) && codec.text(key.id)
    ensures Envelope.DecryptChunk(codec, key, ContextOf(rec, k + 1), BlobAt(blobs, list[k].path)) == Some(plain(k + 1))
  {
    hide Step, Init, Inv, ServerOk, ManifestOk, PcFits, Seals, Envelope.Faithful, Envelope.KeyOk, Envelope.DecryptChunk;
    ExecutionOk(cfg, rec, ss, acts, i);
    assert UploadOf(rec, ss[i].mem[k]) == UploadOf(rec, Durable(ss[i])[k]);
    var j := Staging.EntryWrittenBy(cfg, rec, ss, acts, i, k);
    SealOpens(codec, key, rec, k + 1, plain(k + 1), acts[j].body);
  }

  /** End to end: when the recorder seals each plaintext for its own chunk, the
      bundle of its completed stream verifies for whoever holds the key, at any
      later moment while the incident lives, and decrypts to those plaintexts. */
  lemma RecordingDecrypts(cfg: Config, rec: Recording, ss: seq<System>, acts: seq<Action>, i: nat, j: nat,
                          m: Bundle.Manifest, list: seq<Row>, found: map<string, Content>,
                          codec: Envelope.Codec, key: Envelope.Key, plain: nat -> Bytes)
    requires Execution(cfg, rec, ss, acts) && i < j <= |acts| && acts[i].AskCompletion?
    requires IsActive(ss[j].server.db, rec.incident) && rec.incident != "" && ValidMedia(rec.media)
    requires IsListing(ss[j].server.db.rows, rec.incident, rec.stream, list)
    requires m.incident == rec.incident && m.stream == rec.stream && m.media == rec.media
    requires m.count == |m.chunks| && m.chunks == seq(|list|, k requires 0 <= k < |list| => EntryOf(list[k]))
    requires forall name :: name in found <==> Unzipped(BundleEntries("", m, list, ss[j].server.blobs), name).Some?
    requires forall name :: name in found ==>
               Unzipped(BundleEntries("", m, list, ss[j].server.blobs), name) == Some(found[name])
    requires Envelope.Faithful(codec) && Envelope.KeyOk(key) && codec.text(key.id)
    requires AllSealed(codec, key, rec, ss, acts, i, plain) && NoCollision(cfg, acts, i, list, ss[j].server.blobs)
    ensures BundleVerifies(KeyHolder(cfg, codec, key), found, rec.incident, rec.stream, rec.media)
    ensures |list| == |ss[i].mem| && forall k :: 0 <= k < |list| ==>
              Envelope.DecryptChunk(codec, key, ContextOf(rec, k + 1), BlobAt(ss[j].server.blobs, list[k].path))
              == Some(plain(k + 1))
  {
    hide Step, Init, AllSealed, NoCollision, Envelope.Faithful, Envelope.KeyOk, Envelope.DecryptChunk, Unzipped,
      BundleEntries, BundleVerifies, IsListing, Describes;
    var blobs := ss[j].server.blobs;
    ListedChunks(cfg, rec, ss, acts, i, j, list);
    forall k | 0 <= k < |list|
      ensures Envelope.DecryptChunk(codec, key, ContextOf(rec, k + 1), BlobAt(blobs, list[k].path))
              == Some(plain(k + 1))
    {
      StoredChunkOpens(cfg, rec, ss, acts, i, list, blobs, k, codec, key, plain);
    }
    RecordingVerifies(cfg, rec, ss, acts, i, j, KeyHolder(cfg, codec, key), m, list, found);
  }
}
