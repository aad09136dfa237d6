/** Stream completion, the evidence bundle the server writes from a completed
    stream, and the client that verifies it. */
module Bundle {
  import opened Chunks
  import opened Store
  import opened Protocol
  import opened Invariant
  import opened Safety
  import opened Lifecycle

  // ---------------------------------------------------------------- listings

  /** `list` is ListStreamChunks: the rows of the stream, by chunk index. */
  ghost predicate IsListing(rows: seq<Row>, incident: string, stream: string, list: seq<Row>) {
    && (forall r :: r in list <==> r in rows && InStream(r, incident, stream))
    && (forall a, b :: 0 <= a < b < |list| ==> list[a].meta.index <= list[b].meta.index && list[a] != list[b])
  }

  /** The listing is exactly the indexes 1..n with one media type. */
  predicate InOrder(list: seq<Row>, media: string, n: nat) {
    |list| == n && forall i :: 0 <= i < |list| ==> list[i].meta.index == i + 1 && list[i].meta.media == media
  }

  /** validateCompleteStreamChunkRows: a cursor over the listing and a counter. */
  method ValidateCompleteRows(list: seq<Row>, media: string, expected: nat) returns (ok: bool)
    ensures ok <==> InOrder(list, media, expected)
  {
    var count := 0;
    for i := 0 to |list|
      invariant count == i
      invariant forall k :: 0 <= k < i ==> list[k].meta.index == k + 1 && list[k].meta.media == media
    {
      count := count + 1;
      if list[i].meta.index != count || list[i].meta.media != media {
        return false;
      }
    }
    return count == expected;
  }

  /** Rows of one stream with the same index are the same row. */
  ghost predicate OneRowPerIndex(rows: seq<Row>, incident: string, stream: string) {
    forall r, t ::
      (r in rows && t in rows && InStream(r, incident, stream) && InStream(t, incident, stream)
       && r.meta.index == t.meta.index) ==> r == t
  }

  lemma ListedOnce(rows: seq<Row>, incident: string, stream: string, list: seq<Row>, a: nat, b: nat)
    requires IsListing(rows, incident, stream, list) && OneRowPerIndex(rows, incident, stream) && a < b < |list|
    ensures list[a].meta.index < list[b].meta.index
  {
    assert list[a] in list && list[b] in list;
  }

  /** Strictly increasing indexes that reach every number from one on are the numbers. */
  lemma {:induction false} IndexAt(rows: seq<Row>, incident: string, stream: string, media: string, n: nat,
                                   list: seq<Row>, k: nat)
    requires IsListing(rows, incident, stream, list) && OneRowPerIndex(rows, incident, stream)
    requires Contiguous(rows, incident, stream, media, n) && stream != "" && k < |list|
    ensures list[k].meta.index == k + 1
    decreases k
  {
    forall j | 0 <= j < k ensures list[j].meta.index == j + 1 {
      IndexAt(rows, incident, stream, media, n, list, j);
    }
    assert list[k] in list;
    if k > 0 {
      ListedOnce(rows, incident, stream, list, k - 1, k);
    }
    var p := Position(rows, incident, stream, media, n, list, k + 1);
    if k < p {
      ListedOnce(rows, incident, stream, list, k, p);
    }
  }

  /** Where a listing has a given index. */
  lemma Position(rows: seq<Row>, incident: string, stream: string, media: string, n: nat, list: seq<Row>, x: nat)
    returns (p: nat)
    requires IsListing(rows, incident, stream, list) && Contiguous(rows, incident, stream, media, n)
    requires stream != "" && 1 <= x <= n
    ensures p < |list| && list[p].meta.index == x
  {
    assert IdentityTaken(rows, Streamed(incident, stream, x));
    var r :| r in rows && IdentityOf(r.meta) == Streamed(incident, stream, x);
    assert InStream(r, incident, stream) && r in list;
    p :| 0 <= p < |list| && list[p] == r;
  }

  /** The cursor check accepts exactly the streams whose rows are 1..n. */
  lemma CompletionCheckIsContiguity(rows: seq<Row>, incident: string, stream: string, media: string, n: nat,
                                    list: seq<Row>)
    requires IsListing(rows, incident, stream, list) && OneRowPerIndex(rows, incident, stream) && stream != ""
    ensures InOrder(list, media, n) <==> Contiguous(rows, incident, stream, media, n)
  {
    if InOrder(list, media, n) {
      forall x | 1 <= x <= n ensures IdentityTaken(rows, Streamed(incident, stream, x)) {
        assert list[x - 1] in list;
        assert IdentityOf(list[x - 1].meta) == Streamed(incident, stream, x);
      }
      forall r | r in rows && InStream(r, incident, stream) ensures 1 <= r.meta.index <= n && r.meta.media == media {
        assert r in list;
      }
    }
    if Contiguous(rows, incident, stream, media, n) {
      forall k | 0 <= k < |list| ensures list[k].meta.index == k + 1 && list[k].meta.media == media {
        IndexAt(rows, incident, stream, media, n, list, k);
        assert list[k] in list;
      }
      if n > 0 {
        var p := Position(rows, incident, stream, media, n, list, n);
      }
      if list != [] {
        assert list[|list| - 1] in list;
      }
    }
  }

  lemma ReachableRowsUnique(cfg: Config, w: World, incident: string, stream: string)
    requires Inv(cfg, w)
    ensures OneRowPerIndex(w.db.rows, incident, stream)
  {
    InvHistory(cfg, w);
    hide Inv;
    forall r, t | r in w.db.rows && t in w.db.rows && InStream(r, incident, stream) && InStream(t, incident, stream)
                  && r.meta.index == t.meta.index
      ensures r == t
    {
      SameIdentitySameRow(w.db, r, t);
    }
  }

  // -------------------------------------------------------------- the bundle

  datatype ChunkEntry = ChunkEntry(index: nat, media: string, size: nat, sha: string, startedAt: int, endedAt: int,
                                   filename: string)

  datatype Manifest = Manifest(incident: string, stream: string, media: string, count: nat, total: nat,
                               chunks: seq<ChunkEntry>)

  function EntryOf(r: Row): ChunkEntry {
    ChunkEntry(r.meta.index, r.meta.media, r.meta.size, r.meta.sha, r.meta.startedAt, r.meta.endedAt, r.meta.filename)
  }

  function Sum(list: seq<Row>): nat {
    if list == [] then 0 else Sum(list[..|list| - 1]) + list[|list| - 1].meta.size
  }

  /** MakeStreamManifest: one entry per row, in order, and the total of their sizes. */
  method MakeManifest(incident: string, stream: string, media: string, list: seq<Row>) returns (m: Manifest)
    ensures m.incident == incident && m.stream == stream && m.media == media
    ensures m.count == |m.chunks| == |list| && m.total == Sum(list)
    ensures forall i :: 0 <= i < |list| ==> m.chunks[i] == EntryOf(list[i])
  {
    var chunks: seq<ChunkEntry> := [];
    var total := 0;
    for i := 0 to |list|
      invariant |chunks| == i && total == Sum(list[..i])
      invariant forall k :: 0 <= k < i ==> chunks[k] == EntryOf(list[k])
    {
      assert list[..i + 1][..i] == list[..i];
      total := total + list[i].meta.size;
      chunks := chunks + [EntryOf(list[i])];
    }
    assert list[..|list|] == list;
    m := Manifest(incident, stream, media, |list|, total, chunks);
  }

  /** Every listed row's blob has the row's size and hash. */
  ghost predicate AllIntact(cfg: Config, list: seq<Row>, blobs: map<string, Bytes>) {
    forall i :: 0 <= i < |list| ==> Describes(cfg, list[i], blobs)
  }

  /** ValidStreamChunks and VerifyChunkFiles, as buildCompletedStreamBundle runs them. */
  method BuildBundle(cfg: Config, stream: Stream, list: seq<Row>, blobs: map<string, Bytes>) returns (ok: bool)
    ensures ok <==> && stream.status.StreamComplete? && list != []
                    && InOrder(list, stream.media, stream.status.expected) && AllIntact(cfg, list, blobs)
  {
    if !stream.status.StreamComplete? || list == [] || |list| != stream.status.expected {
      return false;
    }
    for i := 0 to |list|
      invariant forall k :: 0 <= k < i ==> list[k].meta.index == k + 1 && list[k].meta.media == stream.media
    {
      if list[i].meta.index != i + 1 || list[i].meta.media != stream.media {
        return false;
      }
    }
    for i := 0 to |list|
      invariant forall k :: 0 <= k < i ==> Describes(cfg, list[k], blobs)
    {
      var path := list[i].path;
      if path !in blobs || |blobs[path]| != list[i].meta.size || cfg.sha(blobs[path]) != list[i].meta.sha {
        assert !Describes(cfg, list[i], blobs);
        return false;
      }
    }
    return true;
  }

  /** In every reachable state, each completed stream of a live incident passes
      all checks of the bundle builder: its listing is not empty, is 1..expected
      and has intact blobs. */
  lemma CompletedStreamsBundle(cfg: Config, ws: seq<World>, ls: seq<Label>, i: nat, incident: string, stream: string,
                               list: seq<Row>)
    requires AtomicRun(cfg, ws, ls) && i <= |ls| && IsActive(ws[i].db, incident)
    requires (incident, stream) in ws[i].db.streams
    requires ws[i].db.streams[(incident, stream)].status.StreamComplete?
    requires IsListing(ws[i].db.rows, incident, stream, list)
    ensures var s := ws[i].db.streams[(incident, stream)];
            list != [] && InOrder(list, s.media, s.status.expected) && AllIntact(cfg, list, ws[i].blobs)
  {
    hide Inv, Run, Contiguous;
    RunInv(cfg, ws, ls, i);
    CompletedIsPositive(cfg, ws, ls, i, (incident, stream));
    RunLength(cfg, ws, ls);
    var w := ws[i];
    CompleteIsContiguous(cfg, w, incident, stream);
    ReachableRowsUnique(cfg, w, incident, stream);
    var s := w.db.streams[(incident, stream)];
    CompletionCheckIsContiguity(w.db.rows, incident, stream, s.media, s.status.expected, list);
    ListedIntact(cfg, w, incident, stream, list);
  }

  lemma CompleteIsContiguous(cfg: Config, w: World, incident: string, stream: string)
    requires Inv(cfg, w) && IsActive(w.db, incident) && (incident, stream) in w.db.streams
    requires w.db.streams[(incident, stream)].status.StreamComplete?
    ensures stream != ""
    ensures var s := w.db.streams[(incident, stream)];
            Contiguous(w.db.rows, incident, stream, s.media, s.status.expected)
  {
  }

  lemma ListedIntact(cfg: Config, w: World, incident: string, stream: string, list: seq<Row>)
    requires Inv(cfg, w) && IsActive(w.db, incident) && IsListing(w.db.rows, incident, stream, list)
    ensures AllIntact(cfg, list, w.blobs)
  {
    hide DbSound, RequestsOk, Exclusive, DoomedSound, Describes;
    forall k | 0 <= k < |list| ensures Describes(cfg, list[k], w.blobs) {
      assert list[k] in list;
    }
  }
}
