/** The length-prefixed field encoding hashed into upload fingerprints and
    lease keys, with a decoder that undoes it for every field value. */
module Fingerprint {
  import opened Text
  import opened Chunks

  /** One field: name=<len>:<value>\n. */
  function Field(name: string, value: string): string {
    name + "=" + (Decimal(|value|) + ":" + (value + "\n"))
  }

  type Fields = seq<(string, string)>

  /** The concatenation of a list of named fields. */
  function Encode(fields: Fields): string {
    if fields == [] then "" else Field(fields[0].0, fields[0].1) + Encode(fields[1..])
  }

  lemma {:induction false} EncodeAppend(fields: Fields, f: (string, string))
    ensures Encode(fields + [f]) == Encode(fields) + Field(f.0, f.1)
  {
    if fields == [] {
      assert (fields + [f])[1..] == [];
    } else {
      assert (fields + [f])[1..] == fields[1..] + [f];
      EncodeAppend(fields[1..], f);
    }
  }

  lemma AppendsAssociate(before: string, name: string, size: string, value: string)
    ensures before + name + "=" + size + ":" + value + "\n" == before + (name + "=" + (size + ":" + (value + "\n")))
  {
  }

  /** A string builder of fields, appended to in place. */
  class Builder {
    var text: string
    ghost var fields: Fields

    ghost predicate Valid()
      reads this
    {
      text == Encode(fields)
    }

    constructor ()
      ensures Valid() && fields == []
    {
      text, fields := "", [];
    }

    /** appendFingerprintField. */
    method AppendField(name: string, value: string)
      requires Valid()
      modifies this
      ensures Valid() && fields == old(fields) + [(name, value)]
      ensures text == old(text) + Field(name, value)
    {
      EncodeAppend(fields, (name, value));
      ghost var before, size := text, Decimal(|value|);
      text := text + name;
      text := text + "=";
      text := text + Decimal(|value|);
      text := text + ":";
      text := text + value;
      text := text + "\n";
      fields := fields + [(name, value)];
      AppendsAssociate(before, name, size, value);
    }
  }

  /** Reads one field off the front: the name, the decimal length up to the
      first ':', that many characters and the newline. */
  function ReadField(name: string, s: string): Option<(string, string)> {
    var head := name + "=";
    if head <= s then ReadValue(s[|head|..]) else None
  }

  function ReadValue(body: string): Option<(string, string)> {
    var digits := Before(body, ':');
    if digits == body then None else ReadTail(digits, body[|digits| + 1..])
  }

  function ReadTail(digits: string, tail: string): Option<(string, string)> {
    if exists c :: c in digits && !IsDigit(c) then None
    else
      var n := Value(digits);
      if Decimal(n) != digits || |tail| <= n || tail[n] != '\n' then None
      else Some((tail[..n], tail[n + 1..]))
  }

  lemma ReadTailSound(digits: string, tail: string)
    requires ReadTail(digits, tail).Some?
    ensures var (value, rest) := ReadTail(digits, tail).value;
            digits == Decimal(|value|) && tail == value + "\n" + rest
  {
    hide Decimal, Value;
    var n := Value(digits);
    assert tail == tail[..n] + [tail[n]] + tail[n + 1..];
  }

  lemma ReadValueSound(body: string)
    requires ReadValue(body).Some?
    ensures var (value, rest) := ReadValue(body).value;
            body == Decimal(|value|) + ":" + (value + "\n" + rest)
  {
    hide Decimal, ReadTail, Before;
    var digits := Before(body, ':');
    ReadTailSound(digits, body[|digits| + 1..]);
    assert body == digits + [body[|digits|]] + body[|digits| + 1..];
  }

  /** The decoder accepts only what the encoder writes. */
  lemma ReadFieldSound(name: string, s: string)
    requires ReadField(name, s).Some?
    ensures var (value, rest) := ReadField(name, s).value;
            s == Field(name, value) + rest
  {
    hide ReadValue, Decimal, Field;
    var head := name + "=";
    ReadValueSound(s[|head|..]);
    var (value, rest) := ReadField(name, s).value;
    assert s == head + s[|head|..];
    FieldThenRest(name, value, rest);
  }

  /** Decodes the values of the named fields, in order, consuming all of `s`. */
  function Decode(names: seq<string>, s: string): Option<seq<string>>
    decreases |names|
  {
    if names == [] then if s == "" then Some([]) else None
    else
      match ReadField(names[0], s)
      case None => None
      case Some((value, rest)) =>
        match Decode(names[1..], rest)
        case None => None
        case Some(values) => Some([value] + values)
  }

  lemma FieldThenRest(name: string, value: string, rest: string)
    ensures Field(name, value) + rest == (name + "=") + (Decimal(|value|) + ":" + (value + "\n" + rest))
  {
    hide Decimal;
    var digits := Decimal(|value|);
    assert (digits + ":" + (value + "\n")) + rest == digits + ":" + (value + "\n" + rest);
  }

  /** A field reads back whatever its value holds: '=', ':', digits, newlines. */
  lemma ReadFieldUndoesField(name: string, value: string, rest: string)
    ensures ReadField(name, Field(name, value) + rest) == Some((value, rest))
  {
    hide ReadValue, ReadTail, Decimal;
    var head, digits, tail := name + "=", Decimal(|value|), value + "\n" + rest;
    FieldThenRest(name, value, rest);
    assert (head + (digits + ":" + tail))[|head|..] == digits + ":" + tail;
    ReadValueUndoes(digits, tail);
    ReadTailUndoes(value, rest);
  }

  lemma ReadTailUndoes(value: string, rest: string)
    ensures ReadTail(Decimal(|value|), value + "\n" + rest) == Some((value, rest))
  {
    hide Decimal, Value;
    ValueDecimal(|value|);
    var tail := value + "\n" + rest;
    assert tail[..|value|] == value && tail[|value|] == '\n' && tail[|value| + 1..] == rest;
  }

  lemma ReadValueUndoes(digits: string, tail: string)
    requires ':' !in digits
    ensures ReadValue(digits + ":" + tail) == ReadTail(digits, tail)
  {
    hide ReadTail, Before;
    BeforeCut(digits, tail, ':');
    var body := digits + ":" + tail;
    assert body[|digits| + 1..] == tail;
  }

  function Names(fields: Fields): seq<string> {
    seq(|fields|, i requires 0 <= i < |fields| => fields[i].0)
  }

  function Values(fields: Fields): seq<string> {
    seq(|fields|, i requires 0 <= i < |fields| => fields[i].1)
  }

  /** Decoding undoes encoding, for every list of fields. */
  lemma {:induction false} DecodeUndoesEncode(fields: Fields)
    ensures Decode(Names(fields), Encode(fields)) == Some(Values(fields))
  {
    if fields == [] {
      assert Names(fields) == [] && Values(fields) == [];
    } else {
      hide ReadField, Field, Encode, Names, Values;
      ReadFieldUndoesField(fields[0].0, fields[0].1, Encode(fields[1..]));
      DecodeUndoesEncode(fields[1..]);
      FieldsSplit(fields);
    }
  }

  lemma FieldsSplit(fields: Fields)
    requires fields != []
    ensures Encode(fields) == Field(fields[0].0, fields[0].1) + Encode(fields[1..])
    ensures Names(fields) == [fields[0].0] + Names(fields[1..])
    ensures Values(fields) == [fields[0].1] + Values(fields[1..])
  {
  }

  function Zip(names: seq<string>, values: seq<string>): Fields
    requires |names| == |values|
  {
    seq(|names|, i requires 0 <= i < |names| => (names[i], values[i]))
  }

  /** And nothing else decodes: whatever is accepted is the encoding of what was read. */
  lemma {:induction false} DecodeSound(names: seq<string>, s: string)
    requires Decode(names, s).Some?
    ensures |Decode(names, s).value| == |names|
    ensures s == Encode(Zip(names, Decode(names, s).value))
    decreases |names|
  {
    if names != [] {
      ReadFieldSound(names[0], s);
      var (value, rest) := ReadField(names[0], s).value;
      DecodeSound(names[1..], rest);
      var fields := Zip(names, Decode(names, s).value);
      assert fields[1..] == Zip(names[1..], Decode(names[1..], rest).value);
    }
  }

  lemma EncodeInjective(f: Fields, g: Fields)
    requires Names(f) == Names(g) && Encode(f) == Encode(g)
    ensures f == g
  {
    DecodeUndoesEncode(f);
    DecodeUndoesEncode(g);
    assert Values(f) == Values(g);
    assert |Names(f)| == |f| && |Names(g)| == |g|;
    forall i | 0 <= i < |f| ensures f[i] == g[i] {
      assert Names(f)[i] == Names(g)[i] && Values(f)[i] == Values(g)[i];
    }
  }

  // -------------------------------------------------------------- the two keys

  /** The fields of uploadCoordinationKey; uploadFingerprintHash starts with them. */
  function LeaseFields(m: Meta): Fields {
    [("incident_id", m.incident), ("stream_id", m.stream),
     ("chunk_index", Decimal(m.index)), ("media_type", m.media)]
  }

  /** The nine fields of uploadFingerprintHash; `fmt` renders an instant as
      RFC 3339 with nanoseconds. */
  function FingerprintFields(fmt: int -> string, m: Meta): Fields {
    LeaseFields(m) +
    [("started_at", fmt(m.startedAt)), ("ended_at", fmt(m.endedAt)),
     ("original_filename", m.filename), ("byte_size", Decimal(m.size)), ("sha256_hex", m.sha)]
  }

  /** The four appends both keys start with. */
  method AppendCoordinates(builder: Builder, m: Meta)
    requires builder.Valid() && builder.fields == []
    modifies builder
    ensures builder.Valid() && builder.fields == LeaseFields(m)
  {
    hide Encode, Decimal, Field;
    builder.AppendField("incident_id", m.incident);
    builder.AppendField("stream_id", m.stream);
    builder.AppendField("chunk_index", Decimal(m.index));
    builder.AppendField("media_type", m.media);
  }

  /** The text hashed by uploadFingerprintHash, built as the source builds it. */
  method FingerprintPreimage(fmt: int -> string, m: Meta) returns (text: string)
    ensures text == Encode(FingerprintFields(fmt, m))
  {
    hide Encode, Decimal, Field, LeaseFields;
    var builder := new Builder();
    AppendCoordinates(builder, m);
    builder.AppendField("started_at", fmt(m.startedAt));
    builder.AppendField("ended_at", fmt(m.endedAt));
    builder.AppendField("original_filename", m.filename);
    builder.AppendField("byte_size", Decimal(m.size));
    builder.AppendField("sha256_hex", m.sha);
    assert builder.fields == FingerprintFields(fmt, m);
    text := builder.text;
  }

  /** The text hashed by uploadCoordinationKey. */
  method LeasePreimage(m: Meta) returns (text: string)
    ensures text == Encode(LeaseFields(m))
  {
    var builder := new Builder();
    AppendCoordinates(builder, m);
    text := builder.text;
  }

  ghost predicate Injective<T(!new)>(f: T -> string) {
    forall t, u :: f(t) == f(u) ==> t == u
  }

  /** Equal fingerprint pre-images mean equal uploads, in all nine fields. */
  lemma FingerprintInjective(fmt: int -> string, m: Meta, n: Meta)
    requires Injective(fmt)
    requires Encode(FingerprintFields(fmt, m)) == Encode(FingerprintFields(fmt, n))
    ensures m == n
  {
    var f, g := FingerprintFields(fmt, m), FingerprintFields(fmt, n);
    assert Names(f) == Names(g);
    EncodeInjective(f, g);
    assert f[0] == g[0] && f[1] == g[1] && f[2] == g[2] && f[3] == g[3] && f[4] == g[4];
    assert f[5] == g[5] && f[6] == g[6] && f[7] == g[7] && f[8] == g[8];
    DecimalInjective(m.index, n.index);
    DecimalInjective(m.size, n.size);
  }

  /** Equal lease pre-images mean equal chunk coordinates. */
  lemma LeaseKeyInjective(m: Meta, n: Meta)
    requires Encode(LeaseFields(m)) == Encode(LeaseFields(n))
    ensures m.incident == n.incident && m.stream == n.stream && m.index == n.index && m.media == n.media
  {
    var f, g := LeaseFields(m), LeaseFields(n);
    assert Names(f) == Names(g);
    EncodeInjective(f, g);
    assert f[0] == g[0] && f[1] == g[1] && f[2] == g[2] && f[3] == g[3];
    DecimalInjective(m.index, n.index);
  }
}
