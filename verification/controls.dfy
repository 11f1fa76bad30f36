/**
 The failed-controls list of an image policy alert, as the Slack formatter prints it: the names
 joined with ", ". The join is not injective (`[]` and `[""]` both print as "", and a name
 holding ", " reads like two names); a split gives back the names when there is at least one name
 and none contains a comma.
 */
module Controls {

  /** The failed controls as the formatter's loop builds them: the first name alone, then each
      further name after ", ". (The `TrimSuffix` call that follows discards its result.) */
  function JoinControls(cs: seq<string>): (r: string)
    ensures |cs| == 0 ==> r == ""
  {
    if |cs| == 0 then ""
    else if |cs| == 1 then cs[0]
    else JoinControls(cs[..|cs| - 1]) + ", " + cs[|cs| - 1]
  }

  /** Joining from the front: the first name, ", ", then the rest joined. */
  lemma {:induction false} JoinControlsCons(x: string, rest: seq<string>)
    requires |rest| > 0
    ensures JoinControls([x] + rest) == x + ", " + JoinControls(rest)
    decreases |rest|
  {
    var cs := [x] + rest;
    var last := rest[|rest| - 1];
    assert cs[|cs| - 1] == last;
    if |rest| == 1 {
      assert cs[..|cs| - 1] == [x];
    } else {
      var init := rest[..|rest| - 1];
      assert cs[..|cs| - 1] == [x] + init;
      JoinControlsCons(x, init);
      var j := JoinControls(init);
      assert JoinControls(cs) == (x + ", " + j) + ", " + last;
      assert JoinControls(rest) == j + ", " + last;
      assert (x + ", " + j) + ", " + last == x + ", " + (j + ", " + last);
    }
  }

  /** The joined list starts with the first name and ends with the last; an empty first or last
      name leaves a leading or trailing ", ". */
  lemma {:induction false} JoinControlsEnds(cs: seq<string>)
    requires |cs| > 0
    ensures |JoinControls(cs)| >= |cs[0]| && JoinControls(cs)[..|cs[0]|] == cs[0]
    ensures |JoinControls(cs)| >= |cs[|cs| - 1]|
    ensures JoinControls(cs)[|JoinControls(cs)| - |cs[|cs| - 1]|..] == cs[|cs| - 1]
  {
    if |cs| > 1 {
      JoinControlsCons(cs[0], cs[1..]);
      assert cs == [cs[0]] + cs[1..];
      var r := JoinControls(cs);
      var rest := JoinControls(cs[1..]);
      assert r == cs[0] + (", " + rest);
      assert r == JoinControls(cs[..|cs| - 1]) + ", " + cs[|cs| - 1];
    }
  }

  /** The index of the first comma at or after `i`, or `|s|`. */
  function CommaFrom(s: string, i: nat): (n: nat)
    requires i <= |s|
    ensures i <= n <= |s|
    ensures forall k :: i <= k < n ==> s[k] != ','
    ensures n < |s| ==> s[n] == ','
    decreases |s| - i
  {
    if i == |s| || s[i] == ',' then i else CommaFrom(s, i + 1)
  }

  /** Undoes one ", " separator: drops the single space after a comma, if there is one. */
  function DropSpace(s: string): string {
    if |s| > 0 && s[0] == ' ' then s[1..] else s
  }

  /** Splits a joined controls list at each comma, dropping the one space that follows it. */
  function SplitControls(s: string): (parts: seq<string>)
    ensures |parts| > 0
    decreases |s|
  {
    var i := CommaFrom(s, 0);
    if i == |s| then [s] else [s[..i]] + SplitControls(DropSpace(s[i + 1..]))
  }

  predicate NoComma(s: string) {
    forall k :: 0 <= k < |s| ==> s[k] != ','
  }

  /** The first separator of a joined list is the one after the first name. */
  lemma SplitAfterFirst(x: string, y: string)
    requires NoComma(x)
    ensures SplitControls(x + ", " + y) == [x] + SplitControls(y)
  {
    var s := x + ", " + y;
    assert forall k :: 0 <= k < |x| ==> s[k] == x[k];
    assert s[|x|] == ',';
    var i := CommaFrom(s, 0);
    assert i == |x|;
    assert s[..i] == x;
    var tail := s[i + 1..];
    assert |tail| > 0 && tail[0] == ' ';
    assert tail[1..] == y;
    assert DropSpace(tail) == y;
  }

  /** When no control name contains a comma, the joined list splits back into exactly the names,
      in order. (Without that, or for the empty list, which joins like [""], it cannot.) */
  lemma {:induction false} SplitJoinRoundTrip(cs: seq<string>)
    requires |cs| > 0
    requires forall k :: 0 <= k < |cs| ==> NoComma(cs[k])
    ensures SplitControls(JoinControls(cs)) == cs
    decreases |cs|
  {
    if |cs| == 1 {
      assert CommaFrom(cs[0], 0) == |cs[0]|;
    } else {
      var x, rest := cs[0], cs[1..];
      assert cs == [x] + rest;
      JoinControlsCons(x, rest);
      SplitAfterFirst(x, JoinControls(rest));
      SplitJoinRoundTrip(rest);
    }
  }

  /** The empty list and the list of one empty name print the same. */
  lemma EmptyControlsAmbiguous()
    ensures JoinControls([]) == JoinControls([""]) == ""
  {
  }
}
