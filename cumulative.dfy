/**
 * Running sums of rates and the inverse-CDF scan built on them: the selection
 * rule of the event list (src/NextEventList.cpp) and of the single-carrier
 * loop (src/SingleRun.cpp).
 */
module Cumulative {
  import opened KmcTypes

  /** Sum of a rate sequence, accumulated left to right as the source's loops do. */
  function Sum(s: seq<real>): (r: real)
    ensures NonNegative(s) ==> r >= 0.0
  {
    if |s| == 0 then 0.0 else Sum(s[..|s| - 1]) + s[|s| - 1]
  }

  ghost predicate NonNegative(s: seq<real>)
  {
    forall k :: 0 <= k < |s| ==> s[k] >= 0.0
  }

  lemma {:induction false} SumSnoc(s: seq<real>, x: real)
    ensures Sum(s + [x]) == Sum(s) + x
  {
    assert (s + [x])[..|s|] == s;
  }

  /** With nonnegative rates the running sum never decreases along the scan. */
  lemma {:induction false} PrefixSumMonotone(s: seq<real>, i: nat, j: nat)
    requires NonNegative(s) && i <= j <= |s|
    ensures Sum(s[..i]) <= Sum(s[..j])
    decreases j - i
  {
    if i < j {
      PrefixSumMonotone(s, i, j - 1);
      assert s[..j][..j - 1] == s[..j - 1];
    }
  }

  /**
   * The first position k at or after i whose running sum Sum(s[..k+1]) reaches
   * thr, or |s| when no position does.
   */
  function FirstAtLeast(s: seq<real>, thr: real, i: nat): (k: nat)
    requires i <= |s|
    ensures i <= k <= |s|
    ensures k < |s| ==> Sum(s[..k + 1]) >= thr
    ensures forall m :: i < m <= k ==> Sum(s[..m]) < thr
    decreases |s| - i
  {
    if i == |s| then |s|
    else if Sum(s[..i + 1]) >= thr then i
    else FirstAtLeast(s, thr, i + 1)
  }

  /**
   * Inverse-CDF selection with a `>=` comparison: the first position whose
   * running sum reaches thr; the last position when none does; nothing for an
   * empty sequence.
   */
  function Select(s: seq<real>, thr: real): (r: Option<nat>)
    ensures r.None? <==> |s| == 0
    ensures r.Some? ==> r.value < |s|
    ensures r.Some? ==> forall m :: 0 < m <= r.value ==> Sum(s[..m]) < thr
    ensures r.Some? ==> Sum(s[..r.value + 1]) >= thr || r.value == |s| - 1
  {
    if |s| == 0 then None
    else
      var k := FirstAtLeast(s, thr, 0);
      Some(if k < |s| then k else |s| - 1)
  }

  /**
   * A scan with a `>=` comparison and no fallback: the first position whose
   * running sum reaches thr, nothing when none does.
   */
  function Crossing(s: seq<real>, thr: real): (r: Option<nat>)
    ensures r.Some? ==> r.value < |s| && Sum(s[..r.value + 1]) >= thr
    ensures r.Some? ==> forall m :: 0 < m <= r.value ==> Sum(s[..m]) < thr
    ensures r.None? ==> forall m :: 0 < m <= |s| ==> Sum(s[..m]) < thr
  {
    var k := FirstAtLeast(s, thr, 0);
    if k < |s| then Some(k) else None
  }

  /** When the threshold is reached, the scan without fallback and Select agree. */
  lemma {:induction false} CrossingIsSelect(s: seq<real>, thr: real)
    requires NonNegative(s) && |s| > 0 && thr <= Sum(s)
    ensures Crossing(s, thr) == Select(s, thr)
  {
    CrossingExists(s, thr);
  }

  /** A threshold no larger than the total is always reached: the fallback to the last entry is not taken. */
  lemma {:induction false} CrossingExists(s: seq<real>, thr: real)
    requires NonNegative(s) && |s| > 0 && thr <= Sum(s)
    ensures FirstAtLeast(s, thr, 0) < |s|
  {
    assert s[..|s|] == s;
    assert Sum(s[..|s|]) >= thr;
  }

  /** total*u lies in [0, total] for u in [0, 1]. */
  lemma {:induction false} ScaledThreshold(total: real, u: real)
    requires total >= 0.0 && 0.0 <= u <= 1.0
    ensures 0.0 <= total * u <= total
    ensures u > 0.0 && total > 0.0 ==> total * u > 0.0
  {
    assert total * (1.0 - u) >= 0.0;
  }

  /** Scaling by a nonnegative total keeps the order of two draws. */
  lemma {:induction false} ScaleMonotone(total: real, u1: real, u2: real)
    requires total >= 0.0 && u1 <= u2
    ensures total * u1 <= total * u2
  {
    assert total * (u2 - u1) >= 0.0;
  }

  /** With u = 0 the first entry is chosen, even when its rate is 0. */
  lemma {:induction false} SelectAtZero(s: seq<real>)
    requires NonNegative(s) && |s| > 0
    ensures Select(s, Sum(s) * 0.0) == Some(0)
  {
    assert s[..1][..0] == [];
    assert Sum(s[..1]) == s[0];
  }

  /**
   * A positive threshold no larger than the total lies in the selected entry's
   * interval of the cumulative distribution: Sum(s[..k]) < thr <= Sum(s[..k+1]).
   */
  lemma {:induction false} SelectedInterval(s: seq<real>, thr: real)
    requires NonNegative(s) && 0.0 < thr <= Sum(s)
    ensures Select(s, thr).Some?
    ensures Sum(s[..Select(s, thr).value]) < thr <= Sum(s[..Select(s, thr).value + 1])
  {
    assert |s| > 0;
    CrossingExists(s, thr);
    var k := FirstAtLeast(s, thr, 0);
    assert Select(s, thr) == Some(k);
    if k == 0 {
      assert s[..0] == [];
    }
  }

  /** Conversely, every threshold in entry k's interval selects k: the intervals partition the total. */
  lemma {:induction false} SelectInInterval(s: seq<real>, thr: real, k: nat)
    requires NonNegative(s) && k < |s|
    requires Sum(s[..k]) < thr <= Sum(s[..k + 1])
    ensures Select(s, thr) == Some(k)
  {
    var f := FirstAtLeast(s, thr, 0);
    if f < k {
      PrefixSumMonotone(s, f + 1, k);
      assert false;
    }
  }

  /** A positive threshold no larger than the total selects an entry with a strictly positive rate. */
  lemma {:induction false} SelectedIsPositiveAt(s: seq<real>, thr: real)
    requires NonNegative(s) && 0.0 < thr <= Sum(s)
    ensures Select(s, thr).Some? && s[Select(s, thr).value] > 0.0
  {
    SelectedInterval(s, thr);
    var k := Select(s, thr).value;
    assert s[..k + 1][..k] == s[..k];
  }

  /** For the threshold total*u with 0 < u <= 1 the chosen entry has a strictly positive rate. */
  lemma {:induction false} SelectedIsPositive(s: seq<real>, total: real, u: real)
    requires total == Sum(s)
    requires NonNegative(s) && total > 0.0 && 0.0 < u <= 1.0
    ensures Select(s, total * u).Some?
    ensures s[Select(s, total * u).value] > 0.0
  {
    ScaledThreshold(total, u);
    SelectedIsPositiveAt(s, total * u);
  }

  /** The selected position never decreases as the threshold grows. */
  lemma {:induction false} SelectMonotone(s: seq<real>, t1: real, t2: real)
    requires |s| > 0 && t1 <= t2
    ensures Select(s, t1).value <= Select(s, t2).value
  {
    var f1 := FirstAtLeast(s, t1, 0);
    var f2 := FirstAtLeast(s, t2, 0);
    if f2 < |s| {
      assert Sum(s[..f2 + 1]) >= t1;
      assert f1 <= f2;
    }
  }
}
