/** ASCII text operations, as Python's `str.upper` and `str.strip` behave on ASCII. */
module Texts {

  function UpperChar(c: char): char {
    if 'a' <= c <= 'z' then c - 'a' + 'A' else c
  }

  function Upper(s: string): (r: string)
    ensures |r| == |s|
    ensures forall i :: 0 <= i < |s| ==> r[i] == UpperChar(s[i])
  {
    seq(|s|, i requires 0 <= i < |s| => UpperChar(s[i]))
  }

  predicate IsSpace(c: char) {
    c == ' ' || '\t' <= c <= '\r' || 28 as char <= c <= 31 as char
  }

  function Strip(s: string): (r: string)
    ensures |r| <= |s|
    ensures r != "" ==> !IsSpace(r[0]) && !IsSpace(r[|r| - 1])
  {
    if s == "" then s
    else if IsSpace(s[0]) then Strip(s[1..])
    else if IsSpace(s[|s| - 1]) then Strip(s[..|s| - 1])
    else s
  }

  lemma UpperOfUpper(s: string)
    ensures Upper(Upper(s)) == Upper(s)
  {
  }

  lemma {:induction false} StripCommutesWithUpper(s: string)
    ensures Strip(Upper(s)) == Upper(Strip(s))
  {
    if s != "" {
      if IsSpace(s[0]) {
        assert Upper(s)[1..] == Upper(s[1..]);
        StripCommutesWithUpper(s[1..]);
      } else if IsSpace(s[|s| - 1]) {
        assert Upper(s)[..|s| - 1] == Upper(s[..|s| - 1]);
        StripCommutesWithUpper(s[..|s| - 1]);
      }
    }
  }

  predicate AllSpace(s: string) {
    forall i :: 0 <= i < |s| ==> IsSpace(s[i])
  }

  lemma MoreSpace(s: string, before: string, middle: string, after: string)
    requires |s| > 0
    requires AllSpace(before) && AllSpace(after)
    ensures IsSpace(s[0]) && s[1..] == before + middle + after ==>
      AllSpace([s[0]] + before) && s == ([s[0]] + before) + middle + after
    ensures IsSpace(s[|s| - 1]) && s[..|s| - 1] == before + middle + after ==>
      AllSpace(after + [s[|s| - 1]]) && s == before + middle + (after + [s[|s| - 1]])
  {
    assert s == [s[0]] + s[1..] && s == s[..|s| - 1] + [s[|s| - 1]];
  }

  /** Stripping takes whitespace off both ends and leaves the rest as it is. */
  lemma {:induction false} StripIs(s: string) returns (before: string, after: string)
    ensures s == before + Strip(s) + after && AllSpace(before) && AllSpace(after)
    decreases |s|
  {
    before, after := "", "";
    if s != "" && IsSpace(s[0]) {
      before, after := StripIs(s[1..]);
      MoreSpace(s, before, Strip(s[1..]), after);
      before := [s[0]] + before;
    } else if s != "" && IsSpace(s[|s| - 1]) {
      before, after := StripIs(s[..|s| - 1]);
      MoreSpace(s, before, Strip(s[..|s| - 1]), after);
      after := after + [s[|s| - 1]];
    }
  }

  /** Letters `a` to `z` become `A` to `Z`, one for one, and other characters stay. */
  lemma UpperIs(s: string, i: nat)
    requires i < |s|
    ensures 'a' <= s[i] <= 'z' ==> 'A' <= Upper(s)[i] <= 'Z' && Upper(s)[i] as int - s[i] as int == 'A' as int - 'a' as int
    ensures !('a' <= s[i] <= 'z') ==> Upper(s)[i] == s[i]
  {
  }
}
