/** The v1 chunk envelope: magic, four-byte header length, JSON header,
    ciphertext, with the chunk's coordinates bound as associated data. */
module Envelope {
  import opened Text
  import opened Chunks
  import opened Keys

  datatype Context = Context(incident: string, stream: string, media: string, index: int)

  datatype Key = Key(version: int, scheme: string, algorithm: string, id: string, bytes: Bytes)

  datatype Header = Header(version: int, scheme: string, algorithm: string, keyId: string,
                           nonceB64: string, aad: string)

  /** What the envelope relies on: AES-256-GCM (NIST SP 800-38D), JSON, base64url
      without padding (section 5 of RFC 4648), and UTF-8 validity. */
  datatype Codec = Codec(seal: (Bytes, Bytes, Bytes, string) -> Bytes,
                         open: (Bytes, Bytes, Bytes, string) -> Option<Bytes>,
                         marshal: Header -> Bytes,
                         unmarshal: Bytes -> Option<Header>,
                         encode64: Bytes -> string,
                         decode64: string -> Option<Bytes>,
                         utf8: Bytes -> bool,
                         text: string -> bool)

  const SCHEME := "proofline-chunk-encryption-v1"
  const ALGORITHM := "AES-256-GCM"
  const VERSION: int := 1
  const KEY_SIZE: int := 32
  const NONCE_SIZE: int := 12
  const MAX_HEADER: int := 16 * 1024
  const MAGIC: Bytes := [0x50, 0x4c, 0x43, 0x48, 0x4e, 0x4b, 0x31, 0x0a]

  /** Each pair is inverse: opening undoes sealing and a sealed text is never
      empty, JSON round-trips headers made of valid UTF-8, base64 any bytes. */
  ghost predicate Faithful(codec: Codec) {
    && (forall k, n, p, a :: codec.open(k, n, codec.seal(k, n, p, a), a) == Some(p) && codec.seal(k, n, p, a) != [])
    && (forall h: Header :: codec.text(h.keyId) && codec.text(h.aad) ==>
          codec.unmarshal(codec.marshal(h)) == Some(h) && codec.utf8(codec.marshal(h)) && codec.marshal(h) != [])
    && (forall b :: codec.decode64(codec.encode64(b)) == Some(b) && (b != [] ==> codec.encode64(b) != ""))
  }

  // --------------------------------------------------------- associated data

  predicate OneLine(s: string) {
    '\r' !in s && '\n' !in s
  }

  /** BuildAssociatedData. */
  function AssociatedData(c: Context): Option<string> {
    if OneLine(c.incident) && OneLine(c.stream) && OneLine(c.media) && c.index > 0 then
      Some("ProoflineChunk:v1\nincident_id=" + (c.incident + "\n" + ("stream_id=" + (c.stream + "\n"
           + ("media_type=" + (c.media + "\n" + ("chunk_index=" + (Decimal(c.index) + "\n" + ""))))))))
    else None
  }

  /** Two contexts never share their associated data. */
  lemma AssociatedDataInjective(c: Context, d: Context)
    requires AssociatedData(c).Some? && AssociatedData(c) == AssociatedData(d)
    ensures c == d
  {
    var c3, d3 := "chunk_index=" + (Decimal(c.index) + "\n" + ""), "chunk_index=" + (Decimal(d.index) + "\n" + "");
    var c2, d2 := "media_type=" + (c.media + "\n" + c3), "media_type=" + (d.media + "\n" + d3);
    var c1, d1 := "stream_id=" + (c.stream + "\n" + c2), "stream_id=" + (d.stream + "\n" + d2);
    LineUnique("ProoflineChunk:v1\nincident_id=", c.incident, c1, d.incident, d1);
    LineUnique("stream_id=", c.stream, c2, d.stream, d2);
    LineUnique("media_type=", c.media, c3, d.media, d3);
    assert '\n' !in Decimal(c.index) && '\n' !in Decimal(d.index);
    LineUnique("chunk_index=", Decimal(c.index), "", Decimal(d.index), "");
    DecimalInjective(c.index, d.index);
  }

  /** A line that starts alike is cut at its end. */
  lemma LineUnique(name: string, a: string, x: string, b: string, y: string)
    requires '\n' !in a && '\n' !in b && name + (a + "\n" + x) == name + (b + "\n" + y)
    ensures a == b && x == y
  {
    ConcatLeftCancel(name, a + "\n" + x, b + "\n" + y);
    FirstCutUnique(a, x, b, y, '\n');
  }

  // ----------------------------------------------------------------- framing

  /** binary.BigEndian.PutUint32. */
  function Big32(n: nat): (b: Bytes)
    requires n < 0x1_0000_0000
    ensures |b| == 4 && Read32(b) == n
  {
    [(n / 0x100_0000) as Byte, (n / 0x1_0000 % 0x100) as Byte, (n / 0x100 % 0x100) as Byte, (n % 0x100) as Byte]
  }

  function Read32(b: Bytes): nat
    requires |b| == 4
  {
    b[0] as nat * 0x100_0000 + b[1] as nat * 0x1_0000 + b[2] as nat * 0x100 + b[3] as nat
  }

  lemma Read32Injective(b: Bytes)
    requires |b| == 4
    ensures Read32(b) < 0x1_0000_0000 && Big32(Read32(b)) == b
  {
    var n := Read32(b);
    var x, y, z, w := b[0] as nat, b[1] as nat, b[2] as nat, b[3] as nat;
    assert n / 0x100_0000 == x && n / 0x1_0000 == x * 0x100 + y && n / 0x100 == (x * 0x100 + y) * 0x100 + z;
    assert Big32(n)[0] == b[0] && Big32(n)[1] == b[1] && Big32(n)[2] == b[2] && Big32(n)[3] == b[3];
  }

  function Frame(header: Bytes, ciphertext: Bytes): Bytes
    requires |header| < 0x1_0000_0000
  {
    MAGIC + (Big32(|header|) + (header + ciphertext))
  }

  /** parseHeaderJSON after the JSON decoder. */
  predicate HeaderOk(codec: Codec, h: Header) {
    && h.version == VERSION && h.scheme == SCHEME && h.algorithm == ALGORITHM
    && h.keyId != "" && h.nonceB64 != "" && h.aad != ""
    && codec.decode64(h.nonceB64).Some? && |codec.decode64(h.nonceB64).value| == NONCE_SIZE
  }

  function ParseHeader(codec: Codec, b: Bytes): Option<Header> {
    match codec.unmarshal(b)
    case None => None
    case Some(h) => if HeaderOk(codec, h) then Some(h) else None
  }

  /** parseEnvelope. */
  function ParseEnvelope(codec: Codec, b: Bytes): Option<(Header, Bytes)> {
    if |b| < |MAGIC| + 4 || !(MAGIC <= b) then None
    else
      var n := Read32(b[8..12]);
      if n == 0 || n > MAX_HEADER || |b| < 12 + n then None
      else
        var header, ciphertext := b[12..12 + n], b[12 + n..];
        if !codec.utf8(header) || ciphertext == [] then None
        else
          match ParseHeader(codec, header)
          case None => None
          case Some(h) => Some((h, ciphertext))
  }

  /** The bytes are a frame around these header bytes and this ciphertext. */
  ghost predicate FrameOf(codec: Codec, b: Bytes, header: Bytes, h: Header, ciphertext: Bytes) {
    && 0 < |header| <= MAX_HEADER && b == Frame(header, ciphertext) && ciphertext != []
    && codec.utf8(header) && ParseHeader(codec, header) == Some(h)
  }

  /** The parser accepts exactly the frames: what it returns concatenates back to
      the input with the magic and the big-endian length in front. */
  lemma ParserInvertsFrame(codec: Codec, b: Bytes, h: Header, ciphertext: Bytes)
    ensures ParseEnvelope(codec, b) == Some((h, ciphertext))
            <==> exists header :: FrameOf(codec, b, header, h, ciphertext)
  {
    if ParseEnvelope(codec, b) == Some((h, ciphertext)) {
      var n := Read32(b[8..12]);
      Read32Injective(b[8..12]);
      assert b == MAGIC + (b[8..12] + (b[12..12 + n] + b[12 + n..]));
      assert FrameOf(codec, b, b[12..12 + n], h, ciphertext);
    }
    forall header | FrameOf(codec, b, header, h, ciphertext)
      ensures ParseEnvelope(codec, b) == Some((h, ciphertext))
    {
      FrameParses(codec, header, h, ciphertext);
    }
  }

  lemma FrameParses(codec: Codec, header: Bytes, h: Header, ciphertext: Bytes)
    requires 0 < |header| <= MAX_HEADER && ciphertext != [] && codec.utf8(header)
    requires ParseHeader(codec, header) == Some(h)
    ensures ParseEnvelope(codec, Frame(header, ciphertext)) == Some((h, ciphertext))
  {
    hide ParseHeader, Big32;
    var b := Frame(header, ciphertext);
    assert b[8..12] == Big32(|header|);
    assert b[12..12 + |header|] == header && b[12 + |header|..] == ciphertext;
  }

  // ------------------------------------------------------ encrypt and decrypt

  /** validateKey. */
  predicate KeyOk(key: Key) {
    && key.version == VERSION && key.scheme == SCHEME && key.algorithm == ALGORITHM
    && key.id != "" && |key.bytes| == KEY_SIZE
  }

  function HeaderFor(codec: Codec, key: Key, aad: string, nonce: Bytes): Header {
    Header(VERSION, SCHEME, ALGORITHM, key.id, codec.encode64(nonce), aad)
  }

  /** EncryptChunk with the nonce it draws; built up by appends. */
  method EncryptChunk(codec: Codec, key: Key, c: Context, nonce: Bytes, plaintext: Bytes) returns (r: Option<Bytes>)
    requires |nonce| == NONCE_SIZE
    ensures r.Some? <==> KeyOk(key) && AssociatedData(c).Some?
                         && |codec.marshal(HeaderFor(codec, key, AssociatedData(c).value, nonce))| <= MAX_HEADER
    ensures r.Some? ==> r.value == Frame(codec.marshal(HeaderFor(codec, key, AssociatedData(c).value, nonce)),
                                         codec.seal(key.bytes, nonce, plaintext, AssociatedData(c).value))
  {
    if !KeyOk(key) {
      return None;
    }
    var aad := AssociatedData(c);
    if aad.None? {
      return None;
    }
    var header := codec.marshal(HeaderFor(codec, key, aad.value, nonce));
    if |header| > MAX_HEADER {
      return None;
    }
    var ciphertext := codec.seal(key.bytes, nonce, plaintext, aad.value);
    var bytes: Bytes := [];
    bytes := bytes + MAGIC;
    bytes := bytes + Big32(|header|);
    bytes := bytes + header;
    bytes := bytes + ciphertext;
    assert bytes == Frame(header, ciphertext);
    return Some(bytes);
  }

  /** DecryptChunk. */
  function DecryptChunk(codec: Codec, key: Key, c: Context, b: Bytes): Option<Bytes> {
    if !KeyOk(key) then None
    else
      match ParseEnvelope(codec, b)
      case None => None
      case Some((header, ciphertext)) =>
        if header.keyId != key.id then None
        else if AssociatedData(c).None? || header.aad != AssociatedData(c).value then None
        else
          match codec.decode64(header.nonceB64)
          case None => None
          case Some(nonce) => codec.open(key.bytes, nonce, ciphertext, AssociatedData(c).value)
  }

  /** Decrypting undoes encrypting. The texts in the header must be valid UTF-8,
      since JSON does not keep others. */
  lemma DecryptUndoesEncrypt(codec: Codec, key: Key, c: Context, nonce: Bytes, plaintext: Bytes)
    requires Faithful(codec) && KeyOk(key) && |nonce| == NONCE_SIZE
    requires AssociatedData(c).Some? && codec.text(key.id) && codec.text(AssociatedData(c).value)
    requires |codec.marshal(HeaderFor(codec, key, AssociatedData(c).value, nonce))| <= MAX_HEADER
    ensures DecryptChunk(codec, key, c,
              Frame(codec.marshal(HeaderFor(codec, key, AssociatedData(c).value, nonce)),
                    codec.seal(key.bytes, nonce, plaintext, AssociatedData(c).value))) == Some(plaintext)
  {
    var aad := AssociatedData(c).value;
    assert aad[0] == 'P';
    var h := HeaderFor(codec, key, aad, nonce);
    var header, ciphertext := codec.marshal(h), codec.seal(key.bytes, nonce, plaintext, aad);
    assert codec.unmarshal(header) == Some(h) && HeaderOk(codec, h);
    hide AssociatedData, Faithful;
    FrameParses(codec, header, h, ciphertext);
  }

  /** An envelope opens under at most one context and one key id, whatever its
      bytes and whatever the cipher does: the associated-data check alone
      tells contexts apart. */
  lemma OneContextPerEnvelope(codec: Codec, k: Key, c: Context, l: Key, d: Context, b: Bytes)
    requires DecryptChunk(codec, k, c, b).Some? && DecryptChunk(codec, l, d, b).Some?
    ensures c == d && k.id == l.id
  {
    hide AssociatedData, ParseEnvelope;
    AssociatedDataInjective(c, d);
  }
}
