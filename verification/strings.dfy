/** Scanning helpers over `string`. */
module Strings {

  /** First index of a character from `stops` in `s`, or |s| when none occurs. */
  function Find(s: string, stops: set<char>): (i: nat)
    ensures i <= |s|
    ensures i < |s| ==> s[i] in stops
    ensures forall j :: 0 <= j < i ==> s[j] !in stops
  {
    if s == [] then 0 else if s[0] in stops then 0 else 1 + Find(s[1..], stops)
  }

  /** Finding a separator right after a prefix that does not contain it. */
  lemma FindAfter(a: string, c: char, b: string)
    requires c !in a
    ensures Find(a + [c] + b, {c}) == |a|
  {
    var s := a + [c] + b;
    assert s[|a|] == c;
    assert forall j :: 0 <= j < |a| ==> s[j] == a[j];
  }
}
