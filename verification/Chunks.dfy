/** The immutable metadata of an uploaded chunk and the comparison of two
    uploads of the same chunk. Instants are nanoseconds since a fixed epoch. */
module Chunks {
  import opened Text
  import opened Keys

  newtype Byte = x: int | 0 <= x < 256
  type Bytes = seq<Byte>

  /** The inputs of one upload: what chunkUpload, the chunks table and the
      upload_operations table all carry. `size` is the byte count of the staged
      body and `sha` the declared lowercase hexadecimal SHA-256. An empty
      `stream` marks a legacy unstreamed chunk. */
  datatype Meta = Meta(incident: string, stream: string, index: nat, media: string,
                       startedAt: int, endedAt: int, filename: string, size: nat, sha: string)

  /** The two unique indexes of the chunks table. */
  datatype Identity =
    | Streamed(incident: string, stream: string, index: nat)
    | Legacy(incident: string, media: string, index: nat)

  function IdentityOf(m: Meta): Identity {
    if m.stream != "" then Streamed(m.incident, m.stream, m.index)
    else Legacy(m.incident, m.media, m.index)
  }

  function PathOf(m: Meta): Option<string> {
    StoredBlobPath(m.incident, m.stream, m.media, m.index)
  }

  lemma PathDeterminesCoordinates(m: Meta, n: Meta)
    requires PathOf(m).Some? && PathOf(m) == PathOf(n)
    ensures m.incident == n.incident && m.stream == n.stream && m.media == n.media && m.index == n.index
    ensures IdentityOf(m) == IdentityOf(n)
  {
    StoredBlobPathInjective(m.incident, m.stream, m.media, m.index, n.incident, n.stream, n.media, n.index);
  }

  // ----------------------------------------------------------------- instants

  const MIN_INT64: int := -0x8000_0000_0000_0000
  const MAX_INT64: int := 0x7fff_ffff_ffff_ffff
  const MICROSECOND: int := 1000

  newtype Int64 = x: int | -0x8000_0000_0000_0000 <= x <= 0x7fff_ffff_ffff_ffff

  /** time.Time.Sub saturates instead of overflowing. */
  function Sub(t: int, u: int): Int64 {
    if t - u < MIN_INT64 then MIN_INT64 as Int64
    else if t - u > MAX_INT64 then MAX_INT64 as Int64
    else (t - u) as Int64
  }

  /** Negation of a 64-bit Duration wraps at the minimum. */
  function Negate(d: Int64): Int64 {
    if d as int == MIN_INT64 then d else -d
  }

  /** metadataTimesEqual, and postgresTimeEqual, with 64-bit durations. */
  predicate TimesEqual(stored: int, input: int) {
    var delta := Sub(stored, input);
    var distance := if delta < 0 then Negate(delta) else delta;
    distance < 1000
  }

  predicate WithinMicrosecond(t: int, u: int) {
    -MICROSECOND < t - u < MICROSECOND
  }

  /** The comparison is what it promises except when the stored instant lies
      2^63 nanoseconds (about 292 years) or more before the input: the
      saturated difference then negates to itself and counts as small. */
  lemma TimesEqualExactly(stored: int, input: int)
    ensures TimesEqual(stored, input) <==> WithinMicrosecond(stored, input) || stored - input <= MIN_INT64
  {
  }

  /** 1 January 1700 and 1 January 2000 compare equal, in that order only. */
  lemma TimesEqualAcceptsCenturies()
    ensures var y1700, y2000 := -8520336000 * 1000000000, 946684800 * 1000000000;
            TimesEqual(y1700, y2000) && !TimesEqual(y2000, y1700)
  {
  }

  /** The comparison is correct exactly when the stored instant is less than
      2^63 nanoseconds before the input. */
  lemma TimesEqualCorrectIff(stored: int, input: int)
    ensures (TimesEqual(stored, input) <==> WithinMicrosecond(stored, input)) <==> stored - input > MIN_INT64
  {
    TimesEqualExactly(stored, input);
  }

  /** SQLite keeps RFC 3339 nanoseconds; PostgreSQL keeps whole microseconds. */
  datatype Backend = Sqlite | Postgres

  function StoreTime(b: Backend, t: int): int {
    if b == Sqlite then t else t - t % 1000
  }

  function Stored(b: Backend, m: Meta): Meta {
    m.(startedAt := StoreTime(b, m.startedAt), endedAt := StoreTime(b, m.endedAt))
  }

  // --------------------------------------------------------------- comparison

  /** uploadMatchesChunk: `stored` is the row's metadata, `input` the upload's. */
  predicate UploadMatches(stored: Meta, input: Meta) {
    && stored.incident == input.incident
    && stored.stream == input.stream
    && stored.index == input.index
    && stored.media == input.media
    && TimesEqual(stored.startedAt, input.startedAt)
    && TimesEqual(stored.endedAt, input.endedAt)
    && stored.filename == input.filename
    && stored.size == input.size
    && stored.sha == input.sha
  }

  /** uploadOperationMatchesParams without its fingerprint conjunct: SQLite
      compares instants exactly, PostgreSQL within its own precision. */
  predicate OperationMatches(b: Backend, op: Meta, input: Meta) {
    && op.(startedAt := input.startedAt, endedAt := input.endedAt) == input
    && (if b == Sqlite then op.startedAt == input.startedAt && op.endedAt == input.endedAt
        else TimesEqual(op.startedAt, input.startedAt) && TimesEqual(op.endedAt, input.endedAt))
  }

  /** A row stores an upload when it is that upload up to the microsecond. */
  predicate SameUpload(stored: Meta, input: Meta) {
    && stored.(startedAt := input.startedAt, endedAt := input.endedAt) == input
    && WithinMicrosecond(stored.startedAt, input.startedAt)
    && WithinMicrosecond(stored.endedAt, input.endedAt)
  }

  /** Truncation by the backend never turns a faithful retry into a mismatch. */
  lemma RetryMatches(b: Backend, m: Meta)
    ensures UploadMatches(Stored(b, m), m)
    ensures OperationMatches(b, Stored(b, m), m)
    ensures SameUpload(Stored(b, m), m)
    ensures IdentityOf(Stored(b, m)) == IdentityOf(m) && PathOf(Stored(b, m)) == PathOf(m)
  {
    TimesEqualExactly(StoreTime(b, m.startedAt), m.startedAt);
    TimesEqualExactly(StoreTime(b, m.endedAt), m.endedAt);
  }

  /** What a match guarantees, exactly: the same upload, or a row whose
      instants are centuries older than the ones offered. */
  lemma UploadMatchesExactly(stored: Meta, input: Meta)
    requires UploadMatches(stored, input)
    ensures IdentityOf(stored) == IdentityOf(input)
    ensures SameUpload(stored, input)
            <==> stored.startedAt - input.startedAt > MIN_INT64 && stored.endedAt - input.endedAt > MIN_INT64
  {
    TimesEqualExactly(stored.startedAt, input.startedAt);
    TimesEqualExactly(stored.endedAt, input.endedAt);
  }

  datatype FieldName = MediaType | StartedAt | EndedAt | OriginalFilename | ByteSize | Sha256Hex

  /** chunkReconciliationMismatchedFields, for a row found by the upload's
      identity: it names exactly the fields that differ, and none exactly when a
      retry of the upload would be taken for a replay of the row. */
  method MismatchedFields(stored: Meta, input: Meta) returns (names: seq<FieldName>)
    requires IdentityOf(stored) == IdentityOf(input)
    ensures names == [] <==> UploadMatches(stored, input)
    ensures MediaType in names <==> stored.media != input.media
    ensures StartedAt in names <==> !TimesEqual(stored.startedAt, input.startedAt)
    ensures EndedAt in names <==> !TimesEqual(stored.endedAt, input.endedAt)
    ensures OriginalFilename in names <==> stored.filename != input.filename
    ensures ByteSize in names <==> stored.size != input.size
    ensures Sha256Hex in names <==> stored.sha != input.sha
  {
    hide TimesEqual;
    names := [];
    if stored.media != input.media {
      names := names + [MediaType];
    }
    if !TimesEqual(stored.startedAt, input.startedAt) {
      names := names + [StartedAt];
    }
    if !TimesEqual(stored.endedAt, input.endedAt) {
      names := names + [EndedAt];
    }
    if stored.filename != input.filename {
      names := names + [OriginalFilename];
    }
    if stored.size != input.size {
      names := names + [ByteSize];
    }
    if stored.sha != input.sha {
      names := names + [Sha256Hex];
    }
  }
}
