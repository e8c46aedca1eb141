/**
 * ES6Plugin.mobileCheck: a user agent is in scope when it is present and the
 * alternation `Android|webOS|iPhone|iPad|iPod|BlackBerry|IEMobile|Opera Mini`
 * is found somewhere in it (Matcher.find, case-sensitive). The regular
 * expression is modelled as the scan it performs: each start position in
 * turn, each alternative in turn.
 */
module DeviceGate {
  import opened Wrappers

  const Markers: seq<string> :=
    ["Android", "webOS", "iPhone", "iPad", "iPod", "BlackBerry", "IEMobile", "Opera Mini"]

  /** w occurs in s starting at index k. */
  predicate OccursAt(s: string, w: string, k: nat)
  {
    k + |w| <= |s| && s[k..k + |w|] == w
  }

  /** w is a (case-sensitive) substring of s. */
  ghost predicate Contains(s: string, w: string)
  {
    exists k: nat :: OccursAt(s, w, k)
  }

  /** The alternatives from index j on, tried in order at position k. */
  function AlternativeAt(s: string, k: nat, j: nat): (b: bool)
    requires j <= |Markers|
    decreases |Markers| - j
    ensures b <==> exists m :: j <= m < |Markers| && OccursAt(s, Markers[m], k)
  {
    if j == |Markers| then false
    else OccursAt(s, Markers[j], k) || AlternativeAt(s, k, j + 1)
  }

  /** Matcher.find from position `from`: some alternative matches at or after it. */
  function FindFrom(s: string, from: nat): (b: bool)
    decreases |s| - from
    ensures b <==> exists m, k: nat :: 0 <= m < |Markers| && from <= k && OccursAt(s, Markers[m], k)
  {
    if |s| < from then false
    else AlternativeAt(s, from, 0) || FindFrom(s, from + 1)
  }

  lemma FindIsContains(s: string)
    ensures FindFrom(s, 0) <==> exists w :: w in Markers && Contains(s, w)
  {
    if FindFrom(s, 0) {
      var m, k: nat :| 0 <= m < |Markers| && OccursAt(s, Markers[m], k);
      assert Markers[m] in Markers && Contains(s, Markers[m]);
    }
    if w :| w in Markers && Contains(s, w) {
      var m :| 0 <= m < |Markers| && Markers[m] == w;
      var k: nat :| OccursAt(s, w, k);
      assert OccursAt(s, Markers[m], k);
    }
  }

  /** True exactly when the agent is present and contains one of the markers. */
  function MobileCheck(userAgent: Option<string>): (b: bool)
    ensures userAgent.None? ==> !b
    ensures b <==> userAgent.Some? && exists m :: m in Markers && Contains(userAgent.value, m)
  {
    if userAgent.None? then false
    else
      FindIsContains(userAgent.value);
      FindFrom(userAgent.value, 0)
  }

  /** Any agent that embeds a marker, wherever it sits, is in scope. */
  lemma MarkerAnywhere(p: string, w: string, q: string)
    requires w in Markers
    ensures MobileCheck(Some(p + w + q))
  {
    var s := p + w + q;
    assert OccursAt(s, w, |p|);
  }

  predicate IsUpper(c: char) { 'A' <= c <= 'Z' }

  /** The test is case-sensitive: an agent without capital letters is never in scope. */
  lemma {:induction false} NoCapitalsNotMobile(s: string)
    requires forall i :: 0 <= i < |s| ==> !IsUpper(s[i])
    ensures !MobileCheck(Some(s))
  {
    forall m, k: nat | 0 <= m < |Markers|
      ensures !OccursAt(s, Markers[m], k)
    {
      var w := Markers[m];
      var c := if m == 1 then 3 else if m in {2, 3, 4} then 1 else 0;
      assert IsUpper(w[c]);
      if k + |w| <= |s| {
        assert s[k..k + |w|][c] == s[k + c];
      }
    }
  }
}
