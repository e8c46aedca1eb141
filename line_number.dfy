/**
 * The line-number extraction of ES6Plugin.getLineNumber: the leftmost
 * occurrence of the pattern `line ([0-9]+)` in a compiler message, and the
 * decimal value of its greedy digit run, or 0 when the pattern never occurs.
 * The regular expression is modelled as the specific scan it performs.
 */
module LineNumber {
  import opened Wrappers

  predicate IsDigit(c: char) { '0' <= c <= '9' }

  predicate AllDigits(s: string) { forall k :: 0 <= k < |s| ==> IsDigit(s[k]) }

  /** The pattern `line ([0-9]+)` starts at index i of s. */
  predicate MatchAt(s: string, i: nat)
  {
    i + 6 <= |s| && s[i..i + 5] == "line " && IsDigit(s[i + 5])
  }

  /** No occurrence of the pattern anywhere in s. */
  predicate NoMatch(s: string)
  {
    forall k: nat :: k < |s| ==> !MatchAt(s, k)
  }

  /** Matcher.find from index `from`: the leftmost start of a match at or after it. */
  function FindMatch(s: string, from: nat): (r: Option<nat>)
    decreases |s| - from
    ensures r.Some? ==> from <= r.value && MatchAt(s, r.value)
    ensures r.Some? ==> forall k: nat :: from <= k < r.value ==> !MatchAt(s, k)
    ensures r.None? ==> forall k: nat :: from <= k ==> !MatchAt(s, k)
  {
    if |s| < from + 6 then None
    else if MatchAt(s, from) then Some(from)
    else FindMatch(s, from + 1)
  }

  /** Length of the maximal run of digits that starts at index j (the greedy `[0-9]+`). */
  function DigitRun(s: string, j: nat): (n: nat)
    requires j <= |s|
    decreases |s| - j
    ensures j + n <= |s|
    ensures forall k :: j <= k < j + n ==> IsDigit(s[k])
    ensures j + n == |s| || !IsDigit(s[j + n])
  {
    if j == |s| || !IsDigit(s[j]) then 0 else 1 + DigitRun(s, j + 1)
  }

  function DigitValue(c: char): nat
    requires IsDigit(c)
  {
    (c as int) - ('0' as int)
  }

  function Pow10(k: nat): (r: nat)
    ensures r >= 1
  {
    if k == 0 then 1 else 10 * Pow10(k - 1)
  }

  /**
   * Integer.parseInt of a run of decimal digits, without the 32-bit bound:
   * k digits give a value below 10^k, leading zeros add nothing.
   */
  function Parse(ds: string): (r: nat)
    requires AllDigits(ds)
    ensures r < Pow10(|ds|)
    ensures ds != [] && ds[0] == '0' ==> r == Parse(ds[1..])
  {
    if ds == [] then 0
    else
      var init := ds[..|ds| - 1];
      assert |ds| > 1 ==> init[1..] == ds[1..][..|ds| - 2];
      Parse(init) * 10 + DigitValue(ds[|ds| - 1])
  }

  /** The integer of the first match's group 1, or 0 when there is no match. */
  function GetLineNumber(msg: string): (n: nat)
    ensures NoMatch(msg) ==> n == 0
    ensures forall i: nat ::
              MatchAt(msg, i) && (forall k: nat :: k < i ==> !MatchAt(msg, k)) ==>
                n == Parse(msg[i + 5..i + 5 + DigitRun(msg, i + 5)])
  {
    match FindMatch(msg, 0)
    case None => 0
    case Some(i) =>
      var run := msg[i + 5..i + 5 + DigitRun(msg, i + 5)];
      Parse(run)
  }

  /** Decimal rendering of n without leading zeros: the reference for Parse. */
  function Decimal(n: nat): (s: string)
    ensures |s| >= 1 && AllDigits(s)
  {
    var d := ['0' + (n % 10) as char];
    if n < 10 then d else Decimal(n / 10) + d
  }

  lemma {:induction false} ParseDecimal(n: nat)
    ensures Parse(Decimal(n)) == n
  {
    var s := Decimal(n);
    if n >= 10 {
      ParseDecimal(n / 10);
      assert s[..|s| - 1] == Decimal(n / 10);
    }
  }

  /** A decimal rendering followed by a non-digit is read back as exactly that rendering. */
  lemma {:induction false} RunOfRendered(s: string, j: nat, n: nat, r: string)
    requires j <= |s| && s[j..] == Decimal(n) + r
    requires r == [] || !IsDigit(r[0])
    ensures DigitRun(s, j) == |Decimal(n)|
    ensures s[j..j + DigitRun(s, j)] == Decimal(n)
  {
    var d := Decimal(n);
    var len := DigitRun(s, j);
    assert forall k :: 0 <= k < |d| ==> s[j + k] == d[k];
    assert |s| == j + |d| + |r|;
    assert r != [] ==> s[j + |d|] == r[0];
    assert s[j..j + len] == s[j..][..len];
  }

  /**
   * A compiler message made of some text p without the pattern, the words
   * `line ` and the decimal rendering of n, then anything not starting with a
   * digit, reports line n.
   */
  lemma {:induction false} LineOfReport(p: string, n: nat, r: string)
    requires NoMatch(p)
    requires r == [] || !IsDigit(r[0])
    ensures GetLineNumber(p + "line " + Decimal(n) + r) == n
  {
    var s := p + "line " + Decimal(n) + r;
    var i := |p|;
    assert s[i..i + 5] == "line ";
    assert s[i + 5..] == Decimal(n) + r;
    RunOfRendered(s, i + 5, n, r);
    assert MatchAt(s, i);
    forall k: nat | k < i
      ensures !MatchAt(s, k)
    {
      if k + 6 <= |p| {
        assert s[k..k + 6] == p[k..k + 6];
        assert !MatchAt(p, k);
      } else if k + 5 == i {
        assert s[k + 5] == 'l';
      } else {
        assert s[k..k + 5][i - k] == s[i] == 'l';
      }
    }
    ParseDecimal(n);
  }

  /** The worked example: a message mentioning line 42 yields 42. */
  lemma FortyTwo()
    ensures GetLineNumber("line 42") == 42
  {
    assert Decimal(42) == "42";
    LineOfReport("", 42, "");
    assert "" + "line " + "42" + "" == "line 42";
  }
}
