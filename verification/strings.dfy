/** Small facts about strings shared by the parsers of the model. */
module Strings {
  import opened Wrappers

  predicate HasPrefix(s: string, p: string) {
    |p| <= |s| && s[..|p|] == p
  }

  predicate HasSuffix(s: string, p: string) {
    |p| <= |s| && s[|s| - |p|..] == p
  }

  /** Position of the first `c` in `s`, or `|s|` when there is none. */
  function IndexOf(s: string, c: char): (k: nat)
    ensures k <= |s|
    ensures forall i | 0 <= i < k :: s[i] != c
    ensures k < |s| ==> s[k] == c
  {
    if |s| == 0 then 0 else if s[0] == c then 0 else 1 + IndexOf(s[1..], c)
  }

  /** Splits `s` at its first comma into the text before it and the text
      after the `", "` that starts there; `None` when that comma is not
      followed by a space. */
  function SplitAtComma(s: string): (r: Option<(string, string)>)
    ensures r.Some? ==> ',' !in r.value.0 && s == r.value.0 + ", " + r.value.1
  {
    var k := IndexOf(s, ',');
    if k + 2 <= |s| && s[k + 1] == ' ' then
      assert s == s[..k] + ", " + s[k + 2..] by {
        assert s[k..k + 2] == ", ";
        assert s == s[..k] + s[k..k + 2] + s[k + 2..];
      }
      Some((s[..k], s[k + 2..]))
    else None
  }

  /** Joining two parts with `", "` and splitting at the first comma gives
      the parts back when the first holds no comma. */
  lemma SplitAtCommaJoin(a: string, b: string)
    requires ',' !in a
    ensures SplitAtComma(a + ", " + b) == Some((a, b))
  {
    var s := a + ", " + b;
    assert forall i | 0 <= i < |a| :: s[i] == a[i] && s[i] != ',';
    assert s[|a|] == ',';
    assert IndexOf(s, ',') == |a|;
    assert s[..|a|] == a;
    assert s[|a| + 2..] == b;
  }
}
