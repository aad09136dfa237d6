/** The zip archive: entry names, the server's writer and the client's verifier. */
module Archive {
  import opened Text
  import opened Keys
  import opened Chunks
  import opened Store
  import opened Protocol
  import opened Safety
  import opened Bundle

  // ------------------------------------------------------------------- names
  // In this section a char is a rune: the source cleans names rune by rune.

  predicate SafeChar(c: char) {
    'a' <= c <= 'z' || 'A' <= c <= 'Z' || '0' <= c <= '9' || c == '_' || c == '-' || c == '.'
  }

  function Cleaned(c: char): char {
    if SafeChar(c) then c else '_'
  }

  /** safeDownloadFilename builds the name character by character: unsafe ones
      become underscores, and a name that would mean nothing is replaced. */
  method SafeDownloadFilename(value: string) returns (name: string)
    ensures name == DownloadFilename(value)
  {
    name := "";
    for i := 0 to |value|
      invariant |name| == i && forall k :: 0 <= k < i ==> name[k] == Cleaned(value[k])
    {
      name := name + [Cleaned(value[i])];
    }
    assert name == seq(|value|, i requires 0 <= i < |value| => Cleaned(value[i]));
    if name == "" || name == "." || name == ".." {
      name := "evidence.zip";
    }
  }

  function DownloadFilename(value: string): (name: string)
    ensures name != "" && name != "." && name != ".."
    ensures forall c :: c in name ==> SafeChar(c)
    ensures (forall c :: c in value ==> SafeChar(c)) && value != "" && value != "." && value != ".." ==> name == value
  {
    var name := seq(|value|, i requires 0 <= i < |value| => Cleaned(value[i]));
    if name == "" || name == "." || name == ".." then "evidence.zip" else name
  }

  function TrimLeft(s: string): string {
    if s != "" && s[0] == '.' then TrimLeft(s[1..]) else s
  }

  function TrimRight(s: string): string {
    if s != "" && s[|s| - 1] == '.' then TrimRight(s[..|s| - 1]) else s
  }

  function ZipSegment(value: string): string {
    TrimRight(TrimLeft(DownloadFilename(value)))
  }

  /** Safe characters that neither start nor end with a dot. */
  predicate PlainSegment(s: string) {
    s != "" && s[0] != '.' && s[|s| - 1] != '.' && forall c :: c in s ==> SafeChar(c)
  }

  lemma {:induction false} TrimLeftTrims(s: string)
    ensures TrimLeft(s) == "" || TrimLeft(s)[0] != '.'
    ensures forall c :: c in TrimLeft(s) ==> c in s
  {
    if s != "" && s[0] == '.' {
      TrimLeftTrims(s[1..]);
    }
  }

  lemma {:induction false} TrimRightTrims(s: string)
    ensures var t := TrimRight(s); t == "" || (t[|t| - 1] != '.' && t[0] == s[0])
    ensures TrimRight(s) <= s
  {
    if s != "" && s[|s| - 1] == '.' {
      TrimRightTrims(s[..|s| - 1]);
    }
  }

  /** A segment is empty or plain, whatever it was made from. */
  lemma SegmentIsPlain(s: string)
    ensures ZipSegment(s) == "" || PlainSegment(ZipSegment(s))
  {
    var name := DownloadFilename(s);
    TrimLeftTrims(name);
    TrimRightTrims(TrimLeft(name));
  }

  /** An identifier is its own segment exactly when it is plain. */
  lemma SegmentStaysIff(s: string)
    ensures ZipSegment(s) == s <==> PlainSegment(s)
  {
    SegmentIsPlain(s);
    if s == "" {
      assert ZipSegment("") == "evidence.zip";
    } else if PlainSegment(s) {
      assert s[0] in s;
    }
  }

  /** Any other identifier shares the segment of a plain one, unless it is all
      dots and its segment is empty. */
  lemma OthersShareASegment(s: string)
    requires !PlainSegment(s) && ZipSegment(s) != ""
    ensures PlainSegment(ZipSegment(s)) && ZipSegment(s) != s && ZipSegment(ZipSegment(s)) == ZipSegment(s)
  {
    SegmentIsPlain(s);
    SegmentStaysIff(s);
    SegmentStaysIff(ZipSegment(s));
  }

  lemma UnsafeSegmentsCollide()
    ensures ZipSegment("a/b") == ZipSegment("a_b") && "a/b" != "a_b"
  {
    assert DownloadFilename("a/b") == "a_b";
    assert DownloadFilename("a_b") == "a_b";
  }

  /** The identifiers the server makes are plain. */
  lemma ServerIdsArePlain(s: string)
    requires ServerId(s)
    ensures PlainSegment(s)
  {
    assert s[0] in s && s[|s| - 1] in s;
  }

  // ------------------------------------------------------------------ writer

  datatype Content = Json(manifest: Manifest) | Blob(bytes: Bytes)

  datatype ZipEntry = ZipEntry(name: string, content: Content)

  function ChunkEntryName(prefix: string, media: string, index: nat): string {
    prefix + ("chunks/" + ChunkFileName(ZipSegment(media), index))
  }

  /** writeStreamBundleToZip: stops at a chunk that cannot be opened. */
  method WriteBundle(prefix: string, m: Manifest, list: seq<Row>, blobs: map<string, Bytes>)
    returns (r: Option<seq<ZipEntry>>)
    ensures r.Some? <==> forall i :: 0 <= i < |list| ==> list[i].path in blobs
    ensures r.Some? ==> r.value == BundleEntries(prefix, m, list, blobs)
  {
    var entries := [ZipEntry(prefix + "manifest.json", Json(m))];
    for i := 0 to |list|
      invariant |entries| == i + 1 && entries[0] == ZipEntry(prefix + "manifest.json", Json(m))
      invariant forall k :: 0 <= k < i ==>
                  list[k].path in blobs && entries[k + 1] == ChunkZipEntry(prefix, list[k], blobs)
    {
      if list[i].path !in blobs {
        return None;
      }
      entries := entries + [ChunkZipEntry(prefix, list[i], blobs)];
    }
    assert entries == BundleEntries(prefix, m, list, blobs);
    return Some(entries);
  }

  function BlobAt(blobs: map<string, Bytes>, path: string): Bytes {
    if path in blobs then blobs[path] else []
  }

  function ChunkZipEntry(prefix: string, r: Row, blobs: map<string, Bytes>): ZipEntry {
    ZipEntry(ChunkEntryName(prefix, r.meta.media, r.meta.index), Blob(BlobAt(blobs, r.path)))
  }

  function BundleEntries(prefix: string, m: Manifest, list: seq<Row>, blobs: map<string, Bytes>): seq<ZipEntry> {
    [ZipEntry(prefix + "manifest.json", Json(m))]
    + seq(|list|, i requires 0 <= i < |list| => ChunkZipEntry(prefix, list[i], blobs))
  }

  lemma ChunkNamesDiffer(prefix: string, media: string, x: nat, y: nat)
    requires ChunkEntryName(prefix, media, x) == ChunkEntryName(prefix, media, y)
    ensures x == y
  {
    hide ChunkFileName, ZipSegment;
    var a, b := ChunkFileName(ZipSegment(media), x), ChunkFileName(ZipSegment(media), y);
    ConcatLeftCancel(prefix, "chunks/" + a, "chunks/" + b);
    ConcatLeftCancel("chunks/", a, b);
    ChunkFileNameInjective(ZipSegment(media), x, ZipSegment(media), y);
  }

  lemma ManifestNameDiffers(prefix: string, media: string, x: nat)
    ensures prefix + "manifest.json" != ChunkEntryName(prefix, media, x)
  {
    assert (prefix + "manifest.json")[|prefix|] == 'm';
    assert ChunkEntryName(prefix, media, x)[|prefix|] == 'c';
  }

  /** No two entries of a stream bundle have the same name. */
  lemma EntryNamesDistinct(prefix: string, m: Manifest, media: string, list: seq<Row>, blobs: map<string, Bytes>,
                           a: nat, b: nat)
    requires InOrder(list, media, |list|) && a < b < |BundleEntries(prefix, m, list, blobs)|
    ensures BundleEntries(prefix, m, list, blobs)[a].name != BundleEntries(prefix, m, list, blobs)[b].name
  {
    hide ChunkEntryName;
    ManifestNameDiffers(prefix, media, b);
    if a > 0 && ChunkEntryName(prefix, media, a) == ChunkEntryName(prefix, media, b) {
      ChunkNamesDiffer(prefix, media, a, b);
    }
  }

  /** The name of an entry of one stream in an incident bundle. */
  function InDirectory(stream: string, name: string): string {
    "streams/" + (ZipSegment(stream) + "/" + name)
  }

  /** In an incident bundle two entries have the same name exactly when their
      streams have the same segment and they have the same name within it. */
  lemma EntriesCollideIff(s: string, t: string, x: string, y: string)
    ensures InDirectory(s, x) == InDirectory(t, y) <==> ZipSegment(s) == ZipSegment(t) && x == y
  {
    SegmentIsPlain(s);
    SegmentIsPlain(t);
    hide ZipSegment;
    var a, b := ZipSegment(s), ZipSegment(t);
    if InDirectory(s, x) == InDirectory(t, y) {
      ConcatLeftCancel("streams/", a + "/" + x, b + "/" + y);
      FirstCutUnique(a, x, b, y, '/');
    }
  }

  /** So streams with plain identifiers share no entry. */
  lemma StreamDirectoriesDistinct(s: string, t: string, x: string, y: string)
    requires PlainSegment(s) && PlainSegment(t)
    ensures InDirectory(s, x) == InDirectory(t, y) <==> s == t && x == y
  {
    SegmentStaysIff(s);
    SegmentStaysIff(t);
    EntriesCollideIff(s, t, x, y);
  }

  // ---------------------------------------------------------------- verifier

  /** readBundleEntries: the last entry with a name wins. */
  function Unzipped(entries: seq<ZipEntry>, name: string): Option<Content> {
    if entries == [] then None
    else
      var e := entries[|entries| - 1];
      if e.name == name then Some(e.content) else Unzipped(entries[..|entries| - 1], name)
  }

  method ReadEntries(entries: seq<ZipEntry>) returns (found: map<string, Content>)
    ensures forall name :: name in found <==> Unzipped(entries, name).Some?
    ensures forall name :: name in found ==> Unzipped(entries, name) == Some(found[name])
  {
    found := map[];
    for i := 0 to |entries|
      invariant forall name :: name in found <==> Unzipped(entries[..i], name).Some?
      invariant forall name :: name in found ==> Unzipped(entries[..i], name) == Some(found[name])
    {
      assert entries[..i + 1][..i] == entries[..i];
      found := found[entries[i].name := entries[i].content];
    }
    assert entries[..|entries|] == entries;
  }

  /** The client's keys: SHA-256 and decryption under a chunk's coordinates. */
  datatype Client = Client(sha: Bytes -> string, decrypts: (string, string, string, nat, Bytes) -> bool)

  /** validateBundleManifest; an empty expectation is not checked. */
  predicate ManifestMatches(m: Manifest, incident: string, stream: string, media: string) {
    && m.incident != "" && m.stream != "" && m.media != ""
    && (incident == "" || m.incident == incident) && (stream == "" || m.stream == stream)
    && (media == "" || m.media == media)
  }

  predicate ChunkVerifies(client: Client, found: map<string, Content>, m: Manifest, c: ChunkEntry) {
    var media := if c.media == "" then m.media else c.media;
    var name := "chunks/" + ChunkFileName(media, c.index);
    && name in found && found[name].Blob?
    && (c.sha == "" || client.sha(found[name].bytes) == c.sha)
    && client.decrypts(m.incident, m.stream, media, c.index, found[name].bytes)
  }

  /** The archive is a bundle for these coordinates, every listed chunk checks
      out, and the count is right. */
  predicate BundleVerifies(client: Client, found: map<string, Content>, incident: string, stream: string, media: string)
  {
    && "manifest.json" in found && found["manifest.json"].Json?
    && var m := found["manifest.json"].manifest;
    && ManifestMatches(m, incident, stream, media)
    && (forall i :: 0 <= i < |m.chunks| ==> ChunkVerifies(client, found, m, m.chunks[i]))
    && m.chunks != [] && (m.count == 0 || m.count == |m.chunks|)
  }

  /** verifyStreamBundleDecryption. */
  method VerifyBundle(client: Client, found: map<string, Content>, incident: string, stream: string, media: string)
    returns (verified: Option<nat>)
    ensures verified.Some? <==> BundleVerifies(client, found, incident, stream, media)
    ensures verified.Some? ==> verified.value == |found["manifest.json"].manifest.chunks|
  {
    if "manifest.json" !in found || !found["manifest.json"].Json? {
      return None;
    }
    var m := found["manifest.json"].manifest;
    if !ManifestMatches(m, incident, stream, media) {
      return None;
    }
    var count := 0;
    for i := 0 to |m.chunks|
      invariant count == i && forall k :: 0 <= k < i ==> ChunkVerifies(client, found, m, m.chunks[k])
    {
      if !ChunkVerifies(client, found, m, m.chunks[i]) {
        return None;
      }
      count := count + 1;
    }
    if count == 0 || (m.count != 0 && count != m.count) {
      return None;
    }
    return Some(count);
  }

  // -------------------------------------------------------------- round trip

  lemma {:induction false} UnzippedDistinct(entries: seq<ZipEntry>, k: nat)
    requires k < |entries| && forall a, b :: 0 <= a < b < |entries| ==> entries[a].name != entries[b].name
    ensures Unzipped(entries, entries[k].name) == Some(entries[k].content)
  {
    if k < |entries| - 1 {
      UnzippedDistinct(entries[..|entries| - 1], k);
    }
  }

  /** What the server wrote from a verified listing, the client verifies, with
      exactly as many chunks as the manifest counts, provided its key opens
      each chunk. */
  lemma ServerBundleVerifies(cfg: Config, client: Client, m: Manifest, list: seq<Row>, blobs: map<string, Bytes>,
                             found: map<string, Content>)
    requires list != [] && InOrder(list, m.media, |list|) && AllIntact(cfg, list, blobs) && client.sha == cfg.sha
    requires m.incident != "" && m.stream != "" && PlainSegment(m.media)
    requires m.count == |m.chunks| == |list| && forall i :: 0 <= i < |list| ==> m.chunks[i] == EntryOf(list[i])
    requires forall i :: 0 <= i < |list| ==>
               client.decrypts(m.incident, m.stream, m.media, list[i].meta.index, BlobAt(blobs, list[i].path))
    requires forall name :: name in found <==> Unzipped(BundleEntries("", m, list, blobs), name).Some?
    requires forall name :: name in found ==> Unzipped(BundleEntries("", m, list, blobs), name) == Some(found[name])
    ensures BundleVerifies(client, found, m.incident, m.stream, m.media)
    ensures found["manifest.json"].manifest == m && m.count == |list|
  {
    hide ZipSegment, ChunkFileName, Unzipped;
    var entries := BundleEntries("", m, list, blobs);
    forall a, b | 0 <= a < b < |entries| ensures entries[a].name != entries[b].name {
      EntryNamesDistinct("", m, m.media, list, blobs, a, b);
    }
    SegmentStaysIff(m.media);
    UnzippedDistinct(entries, 0);
    assert entries[0].name == "manifest.json";
    assert found["manifest.json"] == Json(m);
    forall i | 0 <= i < |m.chunks| ensures ChunkVerifies(client, found, m, m.chunks[i]) {
      UnzippedDistinct(entries, i + 1);
      var name := "chunks/" + ChunkFileName(m.media, i + 1);
      assert entries[i + 1] == ChunkZipEntry("", list[i], blobs);
      assert entries[i + 1].name == name;
      assert found[name] == Blob(BlobAt(blobs, list[i].path));
    }
  }

  /** The whole way: in every reachable state of the server, the bundle of any
      completed stream of a live incident can be written, and a client whose key
      opens the stored chunks verifies all of them and counts `expected`. */
  lemma CompletedStreamVerifies(cfg: Config, ws: seq<World>, ls: seq<Label>, at: nat, client: Client, m: Manifest,
                                list: seq<Row>, found: map<string, Content>)
    requires AtomicRun(cfg, ws, ls) && at <= |ls| && IsActive(ws[at].db, m.incident)
    requires (m.incident, m.stream) in ws[at].db.streams
    requires ws[at].db.streams[(m.incident, m.stream)].status.StreamComplete?
    requires m.media == ws[at].db.streams[(m.incident, m.stream)].media && PlainSegment(m.media)
    requires IsListing(ws[at].db.rows, m.incident, m.stream, list)
    requires m.incident != "" && m.stream != "" && client.sha == cfg.sha
    requires m.count == |m.chunks| == |list| && forall i :: 0 <= i < |list| ==> m.chunks[i] == EntryOf(list[i])
    requires forall i :: 0 <= i < |list| ==>
               client.decrypts(m.incident, m.stream, m.media, list[i].meta.index, BlobAt(ws[at].blobs, list[i].path))
    requires forall name :: name in found <==> Unzipped(BundleEntries("", m, list, ws[at].blobs), name).Some?
    requires forall name :: name in found ==>
               Unzipped(BundleEntries("", m, list, ws[at].blobs), name) == Some(found[name])
    ensures forall i :: 0 <= i < |list| ==> list[i].path in ws[at].blobs
    ensures BundleVerifies(client, found, m.incident, m.stream, m.media)
    ensures |found["manifest.json"].manifest.chunks| == ws[at].db.streams[(m.incident, m.stream)].status.expected
  {
    hide Run, Unzipped, BundleEntries, PlainSegment;
    RunLength(cfg, ws, ls);
    CompletedStreamsBundle(cfg, ws, ls, at, m.incident, m.stream, list);
    ServerBundleVerifies(cfg, client, m, list, ws[at].blobs, found);
  }
}
