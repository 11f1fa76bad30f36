/**
 The part of Go's `strings` and `unicode` packages the formatter relies on: `strings.TrimSpace`,
 which removes leading and trailing white space as `unicode.IsSpace` defines it. Strings are
 sequences of Unicode scalar values.
 */
module GoStrings {

  /** `unicode.IsSpace`: the Latin-1 spaces (tab, newline, vertical tab, form feed, carriage
      return, space, U+0085, U+00A0) and the other code points with the Unicode White_Space property. */
  function IsSpace(c: char): (b: bool)
    ensures c as int <= 0xFF ==> (b <==> c as int in {0x09, 0x0A, 0x0B, 0x0C, 0x0D, 0x20, 0x85, 0xA0})
  {
    var n := c as int;
    || 0x09 <= n <= 0x0D
    || n == 0x20 || n == 0x85 || n == 0xA0
    || n == 0x1680
    || 0x2000 <= n <= 0x200A
    || n == 0x2028 || n == 0x2029 || n == 0x202F || n == 0x205F
    || n == 0x3000
  }

  /** The code points of Unicode's White_Space property, as ranges. */
  const WhiteSpaceRanges: seq<(int, int)> := [
    (0x0009, 0x000D), (0x0020, 0x0020), (0x0085, 0x0085), (0x00A0, 0x00A0), (0x1680, 0x1680),
    (0x2000, 0x200A), (0x2028, 0x2029), (0x202F, 0x202F), (0x205F, 0x205F), (0x3000, 0x3000)
  ]

  predicate InRanges(n: int, ranges: seq<(int, int)>) {
    exists k :: 0 <= k < |ranges| && ranges[k].0 <= n <= ranges[k].1
  }

  /** A character is white space exactly when it lies in one of the White_Space ranges. */
  lemma IsSpaceIsWhiteSpace(c: char)
    ensures IsSpace(c) <==> InRanges(c as int, WhiteSpaceRanges)
  {
    var n := c as int;
    var r := WhiteSpaceRanges;
    if IsSpace(c) {
      var k :=
        if n <= 0x0D then 0 else if n == 0x20 then 1 else if n == 0x85 then 2
        else if n == 0xA0 then 3 else if n == 0x1680 then 4 else if n <= 0x200A then 5
        else if n <= 0x2029 then 6 else if n == 0x202F then 7 else if n == 0x205F then 8 else 9;
      assert r[k].0 <= n <= r[k].1;
    }
  }

  predicate AllSpace(s: string) {
    forall k :: 0 <= k < |s| ==> IsSpace(s[k])
  }

  /** Neither the first nor the last character of `s` is white space. */
  predicate NoEdgeSpace(s: string) {
    |s| == 0 || (!IsSpace(s[0]) && !IsSpace(s[|s| - 1]))
  }

  /** `r` is the part of `s` from index `i` on, with everything before `i` and everything after
      `r` white space. */
  predicate CutAt(s: string, r: string, i: int) {
    && 0 <= i <= |s| - |r|
    && r == s[i..i + |r|]
    && (forall k :: 0 <= k < i ==> IsSpace(s[k]))
    && (forall k :: i + |r| <= k < |s| ==> IsSpace(s[k]))
  }

  /** The index of the first character at or after `i` that is not white space, or `|s|`. */
  function SkipSpace(s: string, i: nat): (n: nat)
    requires i <= |s|
    ensures i <= n <= |s|
    ensures forall k :: i <= k < n ==> IsSpace(s[k])
    ensures n < |s| ==> !IsSpace(s[n])
    decreases |s| - i
  {
    if i == |s| || !IsSpace(s[i]) then i else SkipSpace(s, i + 1)
  }

  /** Scanning back from `j` no further than `lo`: the end of the last character that is not
      white space, or `lo`. */
  function SkipSpaceBack(s: string, lo: nat, j: nat): (n: nat)
    requires lo <= j <= |s|
    ensures lo <= n <= j
    ensures forall k :: n <= k < j ==> IsSpace(s[k])
    ensures n > lo ==> !IsSpace(s[n - 1])
    decreases j
  {
    if j == lo || !IsSpace(s[j - 1]) then j else SkipSpaceBack(s, lo, j - 1)
  }

  /** `strings.TrimSpace`: `s` without its leading and trailing white space. */
  function TrimSpace(s: string): (r: string)
    ensures NoEdgeSpace(r)
    ensures CutAt(s, r, SkipSpace(s, 0))
  {
    var lo := SkipSpace(s, 0);
    var hi := SkipSpaceBack(s, lo, |s|);
    s[lo..hi]
  }

  /** Trimming a string whose characters before `lo` and from `hi` on are white space, while
      those at `lo` and `hi - 1` are not, leaves exactly the characters from `lo` to `hi`. */
  lemma TrimSpaceBetween(s: string, lo: nat, hi: nat)
    requires lo <= hi <= |s|
    requires forall k :: 0 <= k < lo ==> IsSpace(s[k])
    requires forall k :: hi <= k < |s| ==> IsSpace(s[k])
    requires lo < hi ==> !IsSpace(s[lo]) && !IsSpace(s[hi - 1])
    ensures TrimSpace(s) == s[lo..hi]
  {
    var i := SkipSpace(s, 0);
    var j := SkipSpaceBack(s, i, |s|);
    if lo < hi {
      assert i == lo;
      assert j == hi;
    } else {
      assert i == |s|;
    }
  }

  /** A string without white space at either end is left as it is. */
  lemma TrimSpaceNoOp(s: string)
    requires NoEdgeSpace(s)
    ensures TrimSpace(s) == s
  {
    TrimSpaceBetween(s, 0, |s|);
  }

  /** Trimming twice is trimming once. */
  lemma TrimSpaceIdempotent(s: string)
    ensures TrimSpace(TrimSpace(s)) == TrimSpace(s)
  {
    TrimSpaceNoOp(TrimSpace(s));
  }

  /** Trimming removes exactly the white-space padding around a word that has none of its own. */
  lemma TrimSpacePadding(pre: string, word: string, post: string)
    requires AllSpace(pre) && AllSpace(post) && NoEdgeSpace(word)
    ensures TrimSpace(pre + word + post) == word
  {
    var s := pre + word + post;
    var lo, hi := |pre|, |pre| + |word|;
    assert s[lo..hi] == word;
    assert forall k :: hi <= k < |s| ==> s[k] == post[k - hi];
    TrimSpaceBetween(s, lo, hi);
  }
}
