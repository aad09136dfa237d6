/** Every key and path the server derives from chunk coordinates, with the
    conditions under which two different chunks can never share one. */
module Keys {
  import opened Text

  /** storage.safePathSegment. */
  predicate SafeSegment(v: string) {
    v != "" && v != "." && v != ".." && '/' !in v && '\\' !in v
  }

  /** "<media>_<%06d>.enc": the file name of a committed or staged chunk. */
  function ChunkFileName(media: string, index: nat): (s: string) {
    media + "_" + (Padded6(index) + ".enc")
  }

  /** storage.storedBlobPath. The segments are safe, so path.Join only inserts
      slashes. None is ErrUnsafePath. */
  function StoredBlobPath(incident: string, stream: string, media: string, index: nat): (p: Option<string>)
    ensures p.Some? <==> SafeSegment(incident) && SafeSegment(media) && (stream != "" ==> SafeSegment(stream))
  {
    if !SafeSegment(incident) || !SafeSegment(media) || (stream != "" && !SafeSegment(stream)) then None
    else if stream != "" then
      Some("incidents/" + (incident + "/" + ("streams/" + (stream + "/" + ChunkFileName(media, index)))))
    else
      Some("incidents/" + (incident + "/" + ChunkFileName(media, index)))
  }

  lemma ConcatLeftCancel(p: string, a: string, b: string)
    requires p + a == p + b
    ensures a == b
  {
    assert a == (p + a)[|p|..] && b == (p + b)[|p|..];
  }

  lemma ConcatRightCancel(p: string, a: string, b: string)
    requires a + p == b + p
    ensures a == b
  {
    assert a == (a + p)[..|a + p| - |p|] && b == (b + p)[..|b + p| - |p|];
  }

  lemma ChunkFileNameInjective(m: string, i: nat, n: string, j: nat)
    requires ChunkFileName(m, i) == ChunkFileName(n, j)
    ensures m == n && i == j
  {
    var a, b := Padded6(i) + ".enc", Padded6(j) + ".enc";
    assert '_' !in a && '_' !in b;
    LastCutUnique(m, a, n, b, '_');
    ConcatRightCancel(".enc", Padded6(i), Padded6(j));
    Padded6Injective(i, j);
  }

  lemma ChunkFileNameHasNoSlash(media: string, index: nat)
    requires '/' !in media
    ensures '/' !in ChunkFileName(media, index)
  {
  }

  /** Two chunks are stored at one path only when all four coordinates agree:
      no streamed chunk can land on a legacy one, whatever the identifiers. */
  lemma StoredBlobPathInjective(i1: string, s1: string, m1: string, x1: nat,
                                i2: string, s2: string, m2: string, x2: nat)
    requires StoredBlobPath(i1, s1, m1, x1).Some?
    requires StoredBlobPath(i1, s1, m1, x1) == StoredBlobPath(i2, s2, m2, x2)
    ensures i1 == i2 && s1 == s2 && m1 == m2 && x1 == x2
  {
    var t1, t2 := PathTail(s1, m1, x1), PathTail(s2, m2, x2);
    ConcatLeftCancel("incidents/", i1 + "/" + t1, i2 + "/" + t2);
    FirstCutUnique(i1, t1, i2, t2, '/');
    PathTailInjective(s1, m1, x1, s2, m2, x2);
  }

  function PathTail(stream: string, media: string, index: nat): string {
    if stream == "" then ChunkFileName(media, index)
    else "streams/" + (stream + "/" + ChunkFileName(media, index))
  }

  lemma PathTailInjective(s1: string, m1: string, x1: nat, s2: string, m2: string, x2: nat)
    requires SafeSegment(m1) && SafeSegment(m2)
    requires '/' !in s1 && '/' !in s2
    requires PathTail(s1, m1, x1) == PathTail(s2, m2, x2)
    ensures s1 == s2 && m1 == m2 && x1 == x2
  {
    ChunkFileNameHasNoSlash(m1, x1);
    ChunkFileNameHasNoSlash(m2, x2);
    assert s1 != "" ==> PathTail(s1, m1, x1)[7] == '/';
    assert s2 != "" ==> PathTail(s2, m2, x2)[7] == '/';
    if s1 != "" {
      var r1, r2 := s1 + "/" + ChunkFileName(m1, x1), s2 + "/" + ChunkFileName(m2, x2);
      ConcatLeftCancel("streams/", r1, r2);
      FirstCutUnique(s1, ChunkFileName(m1, x1), s2, ChunkFileName(m2, x2), '/');
    }
    ChunkFileNameInjective(m1, x1, m2, x2);
  }

  // ------------------------------------------------------------ relay keys

  /** relayChunkKey: the in-flight key of a chunk within a relay session. */
  function RelayChunkKey(session: string, index: nat): string {
    session + ":" + Decimal(index)
  }

  /** Injective even for session ids that contain ':' or end in digits. */
  lemma RelayChunkKeyInjective(s1: string, x1: nat, s2: string, x2: nat)
    requires RelayChunkKey(s1, x1) == RelayChunkKey(s2, x2)
    ensures s1 == s2 && x1 == x2
  {
    LastCutUnique(s1, Decimal(x1), s2, Decimal(x2), ':');
    DecimalInjective(x1, x2);
  }

  /** relayFanoutKey: session, incident and stream joined by NUL bytes. */
  function FanoutKey(session: string, incident: string, stream: string): string {
    session + "\0" + (incident + "\0" + stream)
  }

  /** The join separates subscriptions as long as the first two parts are free of NUL. */
  lemma FanoutKeyInjective(a1: string, b1: string, c1: string, a2: string, b2: string, c2: string)
    requires '\0' !in a1 && '\0' !in a2 && '\0' !in b1 && '\0' !in b2
    requires FanoutKey(a1, b1, c1) == FanoutKey(a2, b2, c2)
    ensures a1 == a2 && b1 == b2 && c1 == c2
  {
    FirstCutUnique(a1, b1 + "\0" + c1, a2, b2 + "\0" + c2, '\0');
    FirstCutUnique(b1, c1, b2, c2, '\0');
  }

  /** Some other subscription has the key of this one. */
  ghost predicate SharesFanoutKey(a: string, b: string, c: string) {
    exists x, y, z :: FanoutKey(x, y, z) == FanoutKey(a, b, c) && (x, y, z) != (a, b, c)
  }

  /** A key is shared exactly when one of its parts holds a NUL byte. */
  lemma FanoutKeySharedIff(a: string, b: string, c: string)
    ensures SharesFanoutKey(a, b, c) <==> '\0' in a || '\0' in b || '\0' in c
  {
    if '\0' in a {
      var p := Before(a, '\0');
      MoveCut(p, a[|p| + 1..], b, c);
      assert a == p + "\0" + a[|p| + 1..];
    } else if '\0' in b {
      var p := Before(b, '\0');
      MoveCut(a, p, b[|p| + 1..], c);
      assert b == p + "\0" + b[|p| + 1..];
    } else if '\0' in c {
      var p := Before(c, '\0');
      assert c == p + "\0" + c[|p| + 1..];
      MoveCut(a, b, p, c[|p| + 1..]);
      assert FanoutKey(a, b, c) == FanoutKey(a, b + "\0" + p, c[|p| + 1..]);
    } else {
      forall x, y, z | FanoutKey(x, y, z) == FanoutKey(a, b, c) ensures (x, y, z) == (a, b, c) {
        CutsAreFixed(a, b, c, x, y, z);
      }
    }
  }

  lemma FanoutKeyCollides()
    ensures FanoutKey("s\0i", "j", "k") == FanoutKey("s", "i\0j", "k")
  {
    MoveCut("s", "i", "j", "k");
  }

  /** Four parts joined can be read as three in two ways. */
  lemma MoveCut(p: string, q: string, r: string, s: string)
    ensures FanoutKey(p + "\0" + q, r, s) == FanoutKey(p, q + "\0" + r, s)
    ensures |p + "\0" + q| > |p| && |q + "\0" + r| > |r|
  {
  }

  /** Without NUL in the parts the key has its two cuts and no third. */
  lemma CutsAreFixed(a: string, b: string, c: string, x: string, y: string, z: string)
    requires '\0' !in a && '\0' !in b && '\0' !in c && FanoutKey(x, y, z) == FanoutKey(a, b, c)
    ensures x == a && y == b && z == c
  {
    var k := FanoutKey(a, b, c);
    assert forall i :: 0 <= i < |k| && k[i] == '\0' ==> i == |a| || i == |a| + 1 + |b|;
    assert k[|x|] == '\0' && k[|x| + 1 + |y|] == '\0';
    assert k[..|x|] == x && k[|x| + 1..|x| + 1 + |y|] == y && k[|x| + 2 + |y|..] == z;
    assert k[..|a|] == a && k[|a| + 1..|a| + 1 + |b|] == b && k[|a| + 2 + |b|..] == c;
  }

  // ------------------------------------------------------------ identifiers

  /** Letters, digits, '_' and '-': what hexadecimal and base64url are made of. */
  predicate IdChar(c: char) {
    'a' <= c <= 'z' || 'A' <= c <= 'Z' || '0' <= c <= '9' || c == '_' || c == '-'
  }

  /** An identifier the server makes: a prefix with hexadecimal digits for
      incidents and streams, base64url for relay sessions. */
  predicate ServerId(s: string) {
    s != "" && forall c :: c in s ==> IdChar(c)
  }

  /** newID: a prefix, an underscore and the hexadecimal digits of random bytes. */
  function NewId(prefix: string, hex: string): string {
    prefix + "_" + hex
  }

  lemma NewIdIsServerId(prefix: string, hex: string)
    requires forall c :: c in prefix ==> 'a' <= c <= 'z'
    requires forall c :: c in hex ==> '0' <= c <= '9' || 'a' <= c <= 'f'
    ensures ServerId(NewId(prefix, hex))
  {
  }

  /** So subscriptions of server-made identifiers have keys of their own. */
  lemma ServerIdsHaveOwnKeys(a: string, b: string, c: string)
    requires ServerId(a) && ServerId(b) && ServerId(c)
    ensures !SharesFanoutKey(a, b, c)
  {
    FanoutKeySharedIff(a, b, c);
  }

  // -------------------------------------------------------- desktop client

  /** desktopIdempotencyKey. */
  function DesktopIdempotencyKey(incident: string, stream: string, media: string, index: nat): string {
    "simclient-desktop-" + incident + "-" + stream + "-" + media + "-" + Padded6(index)
  }

  /** Within one recording every chunk has its own idempotency key. */
  lemma DesktopIdempotencyKeyInjective(incident: string, stream: string, media: string, x: nat, y: nat)
    requires DesktopIdempotencyKey(incident, stream, media, x) == DesktopIdempotencyKey(incident, stream, media, y)
    ensures x == y
  {
    ConcatLeftCancel("simclient-desktop-" + incident + "-" + stream + "-" + media + "-", Padded6(x), Padded6(y));
    Padded6Injective(x, y);
  }
}
