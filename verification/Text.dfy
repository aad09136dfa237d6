/** Text primitives shared by every key, path and fingerprint format: decimal
    printing with its inverse, and unique splitting at a separator. A Go string
    is modelled as the sequence of its bytes, one `char` each. */
module Text {

  datatype Option<+T> = None | Some(value: T)

  // ---------------------------------------------------------------- decimals

  predicate IsDigit(c: char) {
    '0' <= c <= '9'
  }

  function DigitChar(d: nat): (c: char)
    requires d < 10
    ensures IsDigit(c) && (c as int) - ('0' as int) == d
  {
    ('0' as int + d) as char
  }

  /** strconv.Itoa and %d on a non-negative number. */
  function Decimal(n: nat): (s: string)
    ensures |s| > 0 && forall c :: c in s ==> IsDigit(c)
  {
    if n < 10 then [DigitChar(n)] else Decimal(n / 10) + [DigitChar(n % 10)]
  }

  /** The number a digit string denotes. */
  function Value(s: string): nat
    requires forall c :: c in s ==> IsDigit(c)
  {
    if s == [] then 0
    else
      var last := s[|s| - 1];
      assert last in s && IsDigit(last);
      10 * Value(s[..|s| - 1]) + (last as int - '0' as int)
  }

  lemma {:induction false} ValueDecimal(n: nat)
    ensures Value(Decimal(n)) == n
  {
    var s := Decimal(n);
    if n < 10 {
      assert s[..|s| - 1] == [];
    } else {
      assert s[..|s| - 1] == Decimal(n / 10);
      ValueDecimal(n / 10);
    }
  }

  lemma DecimalInjective(m: nat, n: nat)
    requires Decimal(m) == Decimal(n)
    ensures m == n
  {
    ValueDecimal(m);
    ValueDecimal(n);
  }

  function Zeros(k: nat): (s: string)
    ensures |s| == k && forall c :: c in s ==> c == '0'
  {
    if k == 0 then "" else "0" + Zeros(k - 1)
  }

  /** The format %06d: at least six digits, never truncated. */
  function Padded6(n: nat): (s: string)
    ensures |s| >= 6 && forall c :: c in s ==> IsDigit(c)
  {
    var d := Decimal(n);
    if |d| >= 6 then d else Zeros(6 - |d|) + d
  }

  lemma {:induction false} ValueAfterZeros(k: nat, s: string)
    requires forall c :: c in s ==> IsDigit(c)
    ensures Value(Zeros(k) + s) == Value(s)
    decreases |s|, k
  {
    var t := Zeros(k) + s;
    if s == [] {
      if k > 0 {
        assert t[..k - 1] == Zeros(k - 1) + s by { ZerosPrefix(k); }
        ValueAfterZeros(k - 1, s);
      } else {
        assert t == s;
      }
    } else {
      assert t[..|t| - 1] == Zeros(k) + s[..|s| - 1];
      ValueAfterZeros(k, s[..|s| - 1]);
    }
  }

  lemma {:induction false} ZerosPrefix(k: nat)
    requires k > 0
    ensures Zeros(k)[..k - 1] == Zeros(k - 1)
  {
    forall i | 0 <= i < k - 1 ensures Zeros(k)[i] == Zeros(k - 1)[i] {
      assert Zeros(k)[i] in Zeros(k) && Zeros(k - 1)[i] in Zeros(k - 1);
    }
  }

  /** Zero padding loses nothing: %06d is injective on every index, including
      those of seven digits and more. */
  lemma Padded6Injective(m: nat, n: nat)
    requires Padded6(m) == Padded6(n)
    ensures m == n
  {
    ValuePadded6(m);
    ValuePadded6(n);
  }

  lemma ValuePadded6(n: nat)
    ensures Value(Padded6(n)) == n
  {
    ValueDecimal(n);
    var d := Decimal(n);
    if |d| < 6 {
      ValueAfterZeros(6 - |d|, d);
    }
  }

  // ------------------------------------------------------------- separators

  /** A separator absent from both left parts splits a string in one way only. */
  lemma FirstCutUnique(a: string, b: string, c: string, d: string, sep: char)
    requires sep !in a && sep !in c
    requires a + [sep] + b == c + [sep] + d
    ensures a == c && b == d
  {
    var s, t := a + [sep] + b, c + [sep] + d;
    assert s[|a|] == sep && t[|c|] == sep;
    assert |a| == |c|;
    assert a == s[..|a|] && c == t[..|c|];
    assert b == s[|a| + 1..] && d == t[|c| + 1..];
  }

  /** The same from the right: a separator absent from both right parts. */
  lemma LastCutUnique(a: string, b: string, c: string, d: string, sep: char)
    requires sep !in b && sep !in d
    requires a + [sep] + b == c + [sep] + d
    ensures a == c && b == d
  {
    var s, t := a + [sep] + b, c + [sep] + d;
    assert s[|a|] == sep && t[|c|] == sep;
    assert |a| == |c|;
    assert a == s[..|a|] && c == t[..|c|];
    assert b == s[|a| + 1..] && d == t[|c| + 1..];
  }

  /** The prefix of `s` before the first `sep`, or all of `s` when there is none. */
  function Before(s: string, sep: char): (p: string)
    ensures sep !in p && p <= s
    ensures sep in s ==> |p| < |s| && s[|p|] == sep
    ensures sep !in s ==> p == s
  {
    if s == [] || s[0] == sep then [] else [s[0]] + Before(s[1..], sep)
  }

  lemma BeforeCut(a: string, b: string, sep: char)
    requires sep !in a
    ensures Before(a + [sep] + b, sep) == a
  {
    var s := a + [sep] + b;
    var p := Before(s, sep);
    assert s[|a|] == sep;
    assert s == p + [sep] + s[|p| + 1..];
    FirstCutUnique(a, b, p, s[|p| + 1..], sep);
  }
}
