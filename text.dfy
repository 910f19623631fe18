/**
 * String helpers shared by the models: whitespace stripping, ASCII digit tests, decimal
 * formatting and parsing, and the `split` shapes the source uses.
 */
module Text {
  import opened Wrappers

  /**
   * The whitespace both C# `char.IsWhiteSpace` and Python `str.isspace` recognise: tab to
   * carriage return, space, next line, no-break space and the Unicode space separators, line
   * separator and paragraph separator.
   */
  predicate IsSpace(c: char)
  {
    || 9 <= c as int <= 13 || c == ' ' || c as int == 0x85 || c as int == 0xA0 || c as int == 0x1680
    || 0x2000 <= c as int <= 0x200A || c as int == 0x2028 || c as int == 0x2029
    || c as int == 0x202F || c as int == 0x205F || c as int == 0x3000
  }

  /** Drops the leading whitespace. */
  function TrimStart(s: string): (r: string)
    ensures |r| <= |s|
    ensures r == s[|s| - |r|..]
    ensures forall i :: 0 <= i < |s| - |r| ==> IsSpace(s[i])
    ensures r != [] ==> !IsSpace(r[0])
  {
    if s != [] && IsSpace(s[0]) then
      var r := TrimStart(s[1..]);
      assert s[1..][|s| - 1 - |r|..] == s[|s| - |r|..];
      assert forall i :: 1 <= i < |s| - |r| ==> s[i] == s[1..][i - 1];
      r
    else s
  }

  /** Drops the trailing whitespace. */
  function TrimEnd(s: string): (r: string)
    ensures |r| <= |s|
    ensures r == s[..|r|]
    ensures forall i :: |r| <= i < |s| ==> IsSpace(s[i])
    ensures r != [] ==> !IsSpace(r[|r| - 1])
  {
    if s != [] && IsSpace(s[|s| - 1]) then TrimEnd(s[..|s| - 1]) else s
  }

  /** Python `str.strip()` / C# `string.Trim()`: both ends. */
  function Strip(s: string): (r: string)
    ensures r != [] ==> !IsSpace(r[0]) && !IsSpace(r[|r| - 1])
    ensures |r| <= |s|
  {
    TrimEnd(TrimStart(s))
  }

  /** Every entry stripped, in order: the `d.strip() for d in ...` and `Select(d => d.Trim())` step. */
  function StripEach(ts: seq<string>): (r: seq<string>)
    ensures |r| == |ts|
    ensures forall j :: 0 <= j < |ts| ==> r[j] == Strip(ts[j])
  {
    if ts == [] then [] else StripEach(ts[..|ts| - 1]) + [Strip(ts[|ts| - 1])]
  }

  lemma StripEachSnoc(ts: seq<string>, i: nat)
    requires i < |ts|
    ensures StripEach(ts[..i + 1]) == StripEach(ts[..i]) + [Strip(ts[i])]
  {
    assert ts[..i + 1][..i] == ts[..i];
  }

  /** A string that starts and ends with a non-space character is its own strip. */
  lemma StripOfStripped(s: string)
    requires s != [] ==> !IsSpace(s[0]) && !IsSpace(s[|s| - 1])
    ensures Strip(s) == s
  {
  }

  lemma StripIdempotent(s: string)
    ensures Strip(Strip(s)) == Strip(s)
  {
    StripOfStripped(Strip(s));
  }

  predicate IsDigit(c: char)
  {
    '0' <= c <= '9'
  }

  predicate AllDigits(s: string)
  {
    forall i :: 0 <= i < |s| ==> IsDigit(s[i])
  }

  /** Python `str.isdigit()`: non-empty and every character a digit. */
  predicate PyIsDigit(s: string)
  {
    s != [] && AllDigits(s)
  }

  lemma DigitsAreStripped(s: string)
    requires AllDigits(s)
    ensures Strip(s) == s
  {
    if s != [] {
      assert IsDigit(s[0]) && IsDigit(s[|s| - 1]);
      StripOfStripped(s);
    }
  }

  predicate StartsWith(s: string, prefix: string)
  {
    |prefix| <= |s| && s[..|prefix|] == prefix
  }

  predicate EndsWith(s: string, suffix: string)
  {
    |suffix| <= |s| && s[|s| - |suffix|..] == suffix
  }

  /** The index of the first `c` in `s`. */
  function Find(s: string, c: char): (r: Option<nat>)
    ensures r.None? <==> c !in s
    ensures r.Some? ==> r.value < |s| && s[r.value] == c && c !in s[..r.value]
  {
    if s == [] then None
    else if s[0] == c then Some(0)
    else match Find(s[1..], c)
      case None => None
      case Some(i) => Some(i + 1)
  }

  /** Python `s.split(c)[0]`: the text before the first `c`, or all of `s`. */
  function BeforeFirst(s: string, c: char): (r: string)
    ensures c !in r
    ensures StartsWith(s, r)
    ensures c in s ==> |r| < |s| && s[|r|] == c
    ensures c !in s ==> r == s
  {
    match Find(s, c)
    case None => s
    case Some(i) => s[..i]
  }

  /** C# `s.Split(c, 2)`: one part when `c` is absent, else the text before and after the first `c`. */
  function SplitFirst(s: string, c: char): (r: seq<string>)
    ensures c !in s ==> r == [s]
    ensures c in s ==> |r| == 2 && r[0] + [c] + r[1] == s && c !in r[0]
  {
    match Find(s, c)
    case None => [s]
    case Some(i) =>
      assert s == s[..i] + [c] + s[i + 1..];
      [s[..i], s[i + 1..]]
  }

  /** Python `s.split(c)` for a one-character separator. */
  function SplitOn(s: string, c: char): (r: seq<string>)
    ensures |r| >= 1
    ensures forall i :: 0 <= i < |r| ==> c !in r[i]
    decreases |s|
  {
    match Find(s, c)
    case None => [s]
    case Some(i) => [s[..i]] + SplitOn(s[i + 1..], c)
  }

  /** Python `c.join(parts)`. */
  function Join(parts: seq<string>, c: char): string
  {
    if parts == [] then ""
    else if |parts| == 1 then parts[0]
    else parts[0] + [c] + Join(parts[1..], c)
  }

  /** Splitting and re-joining with the same separator gives back the text. */
  lemma {:induction false} JoinSplitOn(s: string, c: char)
    ensures Join(SplitOn(s, c), c) == s
    decreases |s|
  {
    match Find(s, c)
    case None =>
    case Some(i) =>
      var rest := SplitOn(s[i + 1..], c);
      JoinSplitOn(s[i + 1..], c);
      assert SplitOn(s, c) == [s[..i]] + rest;
      assert ([s[..i]] + rest)[1..] == rest;
      assert s == s[..i] + [c] + s[i + 1..];
  }

  /** ASCII upper-casing, for the column-name comparison. */
  function Upper(s: string): (r: string)
    ensures |r| == |s|
  {
    if s == [] then ""
    else
      var c := s[0];
      [if 'a' <= c <= 'z' then (c as int - 32) as char else c] + Upper(s[1..])
  }

  /** ASCII lower-casing. */
  function Lower(s: string): (r: string)
    ensures |r| == |s|
  {
    if s == [] then ""
    else
      var c := s[0];
      [if 'A' <= c <= 'Z' then (c as int + 32) as char else c] + Lower(s[1..])
  }

  /** Python `s[:n]`. */
  function Truncate(s: string, n: nat): (r: string)
    ensures |r| <= n && StartsWith(s, r)
    ensures |s| <= n ==> r == s
  {
    if |s| <= n then s else s[..n]
  }

  function Repeat(c: char, n: nat): (r: string)
    ensures |r| == n && forall i :: 0 <= i < n ==> r[i] == c
  {
    if n == 0 then "" else [c] + Repeat(c, n - 1)
  }

  /** Python `s.zfill(width)`: left-pads with zeros, after a leading sign if there is one. */
  function ZFill(s: string, width: nat): (r: string)
    ensures |r| == if |s| >= width then |s| else width
  {
    if |s| >= width then s
    else if s != [] && (s[0] == '+' || s[0] == '-') then [s[0]] + Repeat('0', width - |s|) + s[1..]
    else Repeat('0', width - |s|) + s
  }

  /** Zero-filling an all-digit string keeps it all digits and keeps its numeric value. */
  lemma ZFillDigits(s: string, width: nat)
    requires AllDigits(s)
    ensures AllDigits(ZFill(s, width))
    ensures |s| < width ==> ZFill(s, width) == Repeat('0', width - |s|) + s
    ensures DecimalValue(ZFill(s, width)) == DecimalValue(s)
  {
    if |s| < width {
      if s != [] {
        assert IsDigit(s[0]);
      }
      LeadingZeros(width - |s|, s);
    }
  }

  lemma {:induction false} LeadingZeros(k: nat, s: string)
    requires AllDigits(s)
    ensures DecimalValue(Repeat('0', k) + s) == DecimalValue(s)
  {
    if k > 0 {
      LeadingZeros(k - 1, s);
      var t := Repeat('0', k - 1) + s;
      assert AllDigits(t) by {
        forall i | 0 <= i < |t| ensures IsDigit(t[i]) {
          if i >= k - 1 {
            assert t[i] == s[i - (k - 1)];
          }
        }
      }
      assert Repeat('0', k) + s == ['0'] + t;
      DecimalOfZeroPrefix(t);
    } else {
      assert Repeat('0', k) + s == s;
    }
  }

  lemma {:induction false} DecimalOfZeroPrefix(s: string)
    requires AllDigits(s)
    ensures DecimalValue(['0'] + s) == DecimalValue(s)
    decreases |s|
  {
    if s != [] {
      var t := ['0'] + s;
      assert t[..|t| - 1] == ['0'] + s[..|s| - 1];
      DecimalOfZeroPrefix(s[..|s| - 1]);
    }
  }

  function DigitChar(d: nat): char
    requires d < 10
  {
    "0123456789"[d]
  }

  function DigitValue(c: char): nat
    requires IsDigit(c)
  {
    c as int - '0' as int
  }

  /** The decimal text of a natural number, as `{n}` interpolation writes it. */
  function NatToString(n: nat): (r: string)
    ensures PyIsDigit(r)
  {
    if n < 10 then [DigitChar(n)] else NatToString(n / 10) + [DigitChar(n % 10)]
  }

  /** The value of an all-digit string, read most significant digit first. */
  function DecimalValue(s: string): nat
    requires AllDigits(s)
  {
    if s == [] then 0 else DecimalValue(s[..|s| - 1]) * 10 + DigitValue(s[|s| - 1])
  }

  lemma {:induction false} DecimalOfNatToString(n: nat)
    ensures DecimalValue(NatToString(n)) == n
  {
    if n >= 10 {
      DecimalOfNatToString(n / 10);
      var s := NatToString(n);
      assert s[..|s| - 1] == NatToString(n / 10);
    }
  }

  const Int32Min: int := -0x8000_0000
  const Int32Max: int := 0x7FFF_FFFF

  /**
   * .NET `int.TryParse(s, out v)` with the default integer style: surrounding whitespace,
   * an optional sign, one or more digits, and a value inside the 32-bit range.
   */
  function TryParseInt32(s: string): (r: Option<int>)
    ensures r.Some? ==> Int32Min <= r.value <= Int32Max
  {
    var t := Strip(s);
    var negative := t != [] && t[0] == '-';
    var body := if t != [] && (t[0] == '-' || t[0] == '+') then t[1..] else t;
    if !PyIsDigit(body) then None
    else
      var v: int := if negative then 0 - DecimalValue(body) as int else DecimalValue(body);
      if Int32Min <= v <= Int32Max then Some(v) else None
  }

  /** Formatting a non-negative 32-bit value and parsing it back gives the value. */
  lemma TryParseInt32OfNatToString(n: nat)
    requires n <= Int32Max
    ensures TryParseInt32(NatToString(n)) == Some(n)
  {
    var s := NatToString(n);
    DigitsAreStripped(s);
    assert IsDigit(s[0]);
    DecimalOfNatToString(n);
  }
}
