/**
  The values that travel between the Python models and the document store: decimals, UUIDs,
  timestamps, and the field dictionaries (documents) built from them.
 */
module Documents {
  import opened Wrappers

  /** A finite Python `decimal.Decimal` (and a BSON Decimal128): coefficient * 10^exponent.
      The pair is kept as written, so Decimal("8500.0") is (85000, -1) and Decimal("8500")
      is (8500, 0): equal in value, distinct in representation, as `str()` shows them. */
  datatype Decimal = Decimal(coefficient: int, exponent: int)

  function Pow10(n: nat): nat
  {
    if n == 0 then 1 else 10 * Pow10(n - 1)
  }

  /** The numeric order of two decimals, whatever their exponents. */
  predicate AtMost(a: Decimal, b: Decimal)
  {
    if a.exponent <= b.exponent then
      a.coefficient <= b.coefficient * Pow10(b.exponent - a.exponent)
    else
      a.coefficient * Pow10(a.exponent - b.exponent) <= b.coefficient
  }

  /** A naive `datetime`, as a count of clock ticks. */
  type Time = int

  /** A UUID, held as the 32 lower-case hexadecimal digits of its 128-bit value. */
  datatype Uuid = Uuid(hex: string)

  predicate IsHexDigit(c: char)
  {
    '0' <= c <= '9' || 'a' <= c <= 'f' || 'A' <= c <= 'F'
  }

  predicate IsLowerHexDigit(c: char)
  {
    '0' <= c <= '9' || 'a' <= c <= 'f'
  }

  predicate WellFormed(u: Uuid)
  {
    |u.hex| == 32 && forall i :: 0 <= i < 32 ==> IsLowerHexDigit(u.hex[i])
  }

  function ToLower(c: char): char
  {
    if 'A' <= c <= 'F' then (c as int + 32) as char else c
  }

  function LowerAll(s: string): string
  {
    if s == [] then [] else [ToLower(s[0])] + LowerAll(s[1..])
  }

  /** `s.replace('-', '')` */
  function WithoutHyphens(s: string): string
  {
    if s == [] then [] else (if s[0] == '-' then [] else [s[0]]) + WithoutHyphens(s[1..])
  }

  function StripLeadingBraces(s: string): string
  {
    if s != [] && (s[0] == '{' || s[0] == '}') then StripLeadingBraces(s[1..]) else s
  }

  function StripTrailingBraces(s: string): string
  {
    if s != [] && (s[|s| - 1] == '{' || s[|s| - 1] == '}') then StripTrailingBraces(s[..|s| - 1]) else s
  }

  /** `s.strip('{}')` */
  function StripBraces(s: string): string
  {
    StripTrailingBraces(StripLeadingBraces(s))
  }

  /** `uuid.UUID(s)`: braces stripped from both ends, every hyphen dropped, then exactly 32
      hexadecimal digits of either case; None where the library raises ValueError. */
  function ParseUuid(s: string): (r: Option<Uuid>)
    ensures r.Some? ==> WellFormed(r.value)
  {
    var digits := WithoutHyphens(StripBraces(s));
    if |digits| == 32 && forall i :: 0 <= i < 32 ==> IsHexDigit(digits[i]) then
      LowerAllPointwise(digits);
      Some(Uuid(LowerAll(digits)))
    else
      None
  }

  predicate IsUuid(s: string)
  {
    ParseUuid(s).Some?
  }

  /** `str(uuid)`: the 8-4-4-4-12 hyphenated lower-case form. */
  function FormatUuid(u: Uuid): string
    requires WellFormed(u)
  {
    var h := u.hex;
    h[..8] + ("-" + (h[8..12] + ("-" + (h[12..16] + ("-" + (h[16..20] + ("-" + h[20..])))))))
  }

  /** A field value as Python holds it in a model's field dictionary or a stored document. */
  datatype Value =
    | Null
    | Text(s: string)
    | Int(i: int)
    | Bool(b: bool)
    | Dec(d: Decimal)      // decimal.Decimal
    | Dec128(d: Decimal)   // bson.Decimal128
    | Id(u: Uuid)          // uuid.UUID
    | DateTime(t: Time)    // datetime.datetime

  /** A field dictionary: a model's `dict(self)` or a document of the collection. */
  type Document = map<string, Value>

  /** Lower-casing works character by character. */
  lemma {:induction false} LowerAllPointwise(s: string)
    ensures |LowerAll(s)| == |s|
    ensures forall i :: 0 <= i < |s| ==> LowerAll(s)[i] == ToLower(s[i])
  {
    if s != [] {
      LowerAllPointwise(s[1..]);
      assert forall i :: 1 <= i < |s| ==> LowerAll(s)[i] == LowerAll(s[1..])[i - 1];
    }
  }

  lemma {:induction false} WithoutHyphensConcat(a: string, b: string)
    ensures WithoutHyphens(a + b) == WithoutHyphens(a) + WithoutHyphens(b)
  {
    if a != [] {
      var head := if a[0] == '-' then [] else [a[0]];
      assert (a + b)[0] == a[0];
      assert (a + b)[1..] == a[1..] + b;
      WithoutHyphensConcat(a[1..], b);
      calc {
        WithoutHyphens(a + b);
        head + WithoutHyphens(a[1..] + b);
        head + (WithoutHyphens(a[1..]) + WithoutHyphens(b));
        (head + WithoutHyphens(a[1..])) + WithoutHyphens(b);
        WithoutHyphens(a) + WithoutHyphens(b);
      }
    } else {
      assert a + b == b;
    }
  }

  lemma {:induction false} WithoutHyphensNoop(s: string)
    requires '-' !in s
    ensures WithoutHyphens(s) == s
  {
    if s != [] {
      WithoutHyphensNoop(s[1..]);
    }
  }

  lemma DashDropped(x: string, y: string)
    requires '-' !in x
    ensures WithoutHyphens(x + ("-" + y)) == x + WithoutHyphens(y)
  {
    WithoutHyphensConcat(x, "-" + y);
    WithoutHyphensNoop(x);
    assert ("-" + y)[1..] == y;
  }

  lemma NoHyphenInDigits(u: Uuid, lo: nat, hi: nat)
    requires WellFormed(u) && lo <= hi <= 32
    ensures '-' !in u.hex[lo..hi]
  {
    forall j | 0 <= j < hi - lo ensures u.hex[lo..hi][j] != '-' {
      assert u.hex[lo..hi][j] == u.hex[lo + j];
    }
  }

  lemma FormatDropsHyphens(u: Uuid)
    requires WellFormed(u)
    ensures WithoutHyphens(FormatUuid(u)) == u.hex
  {
    var h := u.hex;
    var a, b, c, d, e := h[..8], h[8..12], h[12..16], h[16..20], h[20..];
    NoHyphenInDigits(u, 0, 8);
    NoHyphenInDigits(u, 8, 12);
    NoHyphenInDigits(u, 12, 16);
    NoHyphenInDigits(u, 16, 20);
    NoHyphenInDigits(u, 20, 32);
    var t4 := d + ("-" + e);
    var t3 := c + ("-" + t4);
    var t2 := b + ("-" + t3);
    var t1 := a + ("-" + t2);
    assert FormatUuid(u) == t1;
    assert WithoutHyphens(t4) == h[16..] by {
      DashDropped(d, e);
      WithoutHyphensNoop(e);
      assert d + e == h[16..];
    }
    assert WithoutHyphens(t3) == h[12..] by {
      DashDropped(c, t4);
      assert c + h[16..] == h[12..];
    }
    assert WithoutHyphens(t2) == h[8..] by {
      DashDropped(b, t3);
      assert b + h[12..] == h[8..];
    }
    DashDropped(a, t2);
    assert a + h[8..] == h;
  }

  lemma LowerHexUnchanged(u: Uuid)
    requires WellFormed(u)
    ensures LowerAll(u.hex) == u.hex
  {
    LowerAllPointwise(u.hex);
  }

  lemma FormatHasNoBraces(u: Uuid)
    requires WellFormed(u)
    ensures StripBraces(FormatUuid(u)) == FormatUuid(u)
  {
    var s := FormatUuid(u);
    assert IsLowerHexDigit(u.hex[0]) && IsLowerHexDigit(u.hex[31]);
    assert s[0] == u.hex[0] && s[|s| - 1] == u.hex[31];
  }

  /** `uuid.UUID(str(u)) == u`: the string a client gets back for an id parses to that id. */
  lemma ParseFormatted(u: Uuid)
    requires WellFormed(u)
    ensures ParseUuid(FormatUuid(u)) == Some(u)
  {
    FormatHasNoBraces(u);
    FormatDropsHyphens(u);
    LowerHexUnchanged(u);
    assert forall i :: 0 <= i < 32 ==> IsHexDigit(u.hex[i]);
  }
}
