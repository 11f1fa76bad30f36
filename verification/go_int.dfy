/**
 Go's `int`, taken to be 64 bits wide as on a 64-bit platform:
 two's-complement wrap-around of `+`, and the decimal rendering `fmt` uses for the `%d` verb.
 */
module GoInt {
  import opened Optional

  const TwoTo64: int := 0x1_0000_0000_0000_0000
  const MinInt64: int := -0x8000_0000_0000_0000
  const MaxInt64: int := 0x7fff_ffff_ffff_ffff

  type Int64 = x: int | MinInt64 <= x <= MaxInt64

  /** Go's `x + y` on `int`: the exact sum when it fits, otherwise the sum moved back into range
      by 2^64, as two's-complement addition wraps around. */
  function Add(x: Int64, y: Int64): (r: Int64)
    ensures MinInt64 <= x + y <= MaxInt64 ==> r == x + y
    ensures r == x + y || r == x + y - TwoTo64 || r == x + y + TwoTo64
  {
    if x + y > MaxInt64 then x + y - TwoTo64
    else if x + y < MinInt64 then x + y + TwoTo64
    else x + y
  }

  /** A multiple of 2^64 leaves no remainder. */
  lemma MultipleOfTwoTo64(k: int)
    ensures (TwoTo64 * k) % TwoTo64 == 0
  {
    var n := TwoTo64 * k;
    assert n == TwoTo64 * (n / TwoTo64) + n % TwoTo64;
    assert TwoTo64 * (k - n / TwoTo64) == n % TwoTo64;
  }

  /** Adding four int64 values left to right with wrap-around gives a value congruent to their
      exact sum modulo 2^64, and the exact sum itself whenever it fits, even when an intermediate
      sum wrapped. */
  lemma AddFour(w: Int64, x: Int64, y: Int64, z: Int64)
    ensures (Add(Add(Add(w, x), y), z) - (w + x + y + z)) % TwoTo64 == 0
    ensures MinInt64 <= w + x + y + z <= MaxInt64 ==> Add(Add(Add(w, x), y), z) == w + x + y + z
  {
    var s1 := Add(w, x);
    var s2 := Add(s1, y);
    var t := Add(s2, z);
    // how many times each addition wrapped, and in which direction
    var k1 := if s1 == w + x then 0 else if s1 < w + x then -1 else 1;
    var k2 := if s2 == s1 + y then 0 else if s2 < s1 + y then -1 else 1;
    var k3 := if t == s2 + z then 0 else if t < s2 + z then -1 else 1;
    var k := k1 + k2 + k3;
    assert t - (w + x + y + z) == TwoTo64 * k;
    MultipleOfTwoTo64(k);
  }

  /** The ASCII digit for `d`. */
  function DigitChar(d: nat): (c: char)
    requires d < 10
    ensures '0' <= c <= '9'
  {
    ('0' as int + d) as char
  }

  predicate IsDigit(c: char) {
    '0' <= c <= '9'
  }

  predicate AllDigits(s: string) {
    forall i :: 0 <= i < |s| ==> IsDigit(s[i])
  }

  /** The decimal digits of `n`, most significant first, without leading zeros. */
  function NatDigits(n: nat): (s: string)
    ensures |s| > 0 && AllDigits(s)
    ensures s[0] == '0' <==> n == 0
    decreases n
  {
    if n < 10 then [DigitChar(n)] else NatDigits(n / 10) + [DigitChar(n % 10)]
  }

  /** What `fmt` prints for `%d`: an optional minus sign followed by the digits of the magnitude. */
  function FormatInt(n: int): (s: string)
    ensures |s| > 0
    ensures s[0] == '-' <==> n < 0
    ensures n >= 0 ==> AllDigits(s)
    ensures n < 0 ==> |s| > 1 && AllDigits(s[1..])
    ensures n != 0 ==> s[if n < 0 then 1 else 0] != '0'
    ensures n == 0 ==> s == "0"
  {
    if n < 0 then "-" + NatDigits(-n) else NatDigits(n)
  }

  /** The value of a string of decimal digits; the reading of `FormatInt`'s output back into a number. */
  function ParseNat(s: string): nat
    requires AllDigits(s)
  {
    if |s| == 0 then 0 else ParseNat(s[..|s| - 1]) * 10 + (s[|s| - 1] as int - '0' as int)
  }

  /** Reads an optionally signed decimal numeral; `None` for anything else. */
  function ParseInt(s: string): Option<int> {
    if |s| > 1 && s[0] == '-' && AllDigits(s[1..]) then Some(-(ParseNat(s[1..]) as int))
    else if |s| > 0 && AllDigits(s) then Some(ParseNat(s))
    else None
  }

  lemma {:induction false} ParseNatDigits(n: nat)
    ensures ParseNat(NatDigits(n)) == n
    decreases n
  {
    if n >= 10 {
      var s := NatDigits(n);
      assert s[..|s| - 1] == NatDigits(n / 10);
      ParseNatDigits(n / 10);
    }
  }

  /** `%d` loses nothing: the rendered numeral reads back as the number printed. */
  lemma FormatIntRoundTrip(n: int)
    ensures ParseInt(FormatInt(n)) == Some(n)
  {
    if n < 0 {
      ParseNatDigits(-n);
      assert FormatInt(n)[1..] == NatDigits(-n);
    } else {
      ParseNatDigits(n);
    }
  }
}
