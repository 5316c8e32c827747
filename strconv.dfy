/** The two pieces of Go's standard library whose behaviour the handlers
    depend on and that are simple enough to write out: the byte length of a
    string (`len` on a Go string) and base-10 integer parsing
    (`strconv.ParseInt(s, 10, 64)`). */
module Strconv {
  import opened Values

  /** Bytes in the UTF-8 encoding of one character. */
  function Utf8Width(c: char): nat {
    if c as int < 0x80 then 1
    else if c as int < 0x800 then 2
    else if c as int < 0x1_0000 then 3
    else 4
  }

  /** Go's `len` of a string: the length of its UTF-8 encoding, which is at
      least the number of characters and at most four bytes per character. */
  function Utf8Len(s: string): (n: nat)
    ensures |s| <= n <= 4 * |s|
  {
    if s == [] then 0 else Utf8Width(s[0]) + Utf8Len(s[1..])
  }

  /** On ASCII text the byte length is the character count. */
  lemma {:induction false} AsciiLen(s: string)
    requires forall i :: 0 <= i < |s| ==> s[i] as int < 0x80
    ensures Utf8Len(s) == |s|
  {
    if s != [] {
      AsciiLen(s[1..]);
    }
  }

  predicate IsDigit(c: char) {
    '0' <= c <= '9'
  }

  predicate AllDigits(s: string) {
    forall i :: 0 <= i < |s| ==> IsDigit(s[i])
  }

  /** The number a string of decimal digits denotes, most significant first. */
  function DecimalValue(ds: string): nat
    requires AllDigits(ds)
  {
    if ds == [] then 0
    else DecimalValue(ds[..|ds| - 1]) * 10 + (ds[|ds| - 1] as int - '0' as int)
  }

  /** The text after an optional leading sign. */
  function Magnitude(s: string): string {
    if |s| > 0 && (s[0] == '+' || s[0] == '-') then s[1..] else s
  }

  /** `strconv.ParseInt(s, 10, 64)` reduced to the grammar that base 10
      accepts: an optional `+` or `-`, then one or more ASCII digits (leading
      zeros allowed, no underscores, no spaces), denoting a number in the
      int64 range. Anything else is a failure. */
  function ParseInt(s: string): (r: Option<int64>)
    ensures r.Some? ==> |Magnitude(s)| > 0 && AllDigits(Magnitude(s))
    ensures r.Some? ==> (r.value < 0 ==> s[0] == '-')
  {
    var digits := Magnitude(s);
    if |digits| == 0 || !AllDigits(digits) then None
    else
      var n: int := DecimalValue(digits);
      var v: int := if s[0] == '-' then -n else n;
      if MIN_INT64 <= v <= MAX_INT64 then Some(v) else None
  }

  function Digit(d: nat): char
    requires d < 10
  {
    ('0' as int + d) as char
  }

  /** Decimal text of a natural number, without leading zeros. */
  function FormatNat(n: nat): string
    decreases n
  {
    if n < 10 then [Digit(n)] else FormatNat(n / 10) + [Digit(n % 10)]
  }

  /** Decimal text of an int64, with a `-` for negative numbers
      (`strconv.FormatInt(n, 10)`). */
  function FormatInt(n: int64): string {
    if n < 0 then "-" + FormatNat(-(n as int)) else FormatNat(n)
  }

  lemma {:induction false} FormatNatDenotes(n: nat)
    ensures |FormatNat(n)| > 0 && AllDigits(FormatNat(n))
    ensures DecimalValue(FormatNat(n)) == n
    decreases n
  {
    if n >= 10 {
      FormatNatDenotes(n / 10);
      var s := FormatNat(n);
      assert s[..|s| - 1] == FormatNat(n / 10);
    }
  }

  /** Parsing the decimal text of any int64 gives that number back. */
  lemma ParseFormatRoundTrip(n: int64)
    ensures ParseInt(FormatInt(n)) == Some(n)
  {
    if n < 0 {
      FormatNatDenotes(-(n as int));
      var s := FormatInt(n);
      assert Magnitude(s) == FormatNat(-(n as int));
    } else {
      FormatNatDenotes(n);
      var s := FormatInt(n);
      assert IsDigit(s[0]);
    }
  }
}
