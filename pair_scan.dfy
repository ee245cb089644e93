/**
 * The neighbour lists built by scanning every pair of sites i < j once, in
 * lexicographic order, and appending j to i's list and i to j's list when the
 * pair is near (KmcRun::initializeNeighbours in src/KmcRun.cpp). The lists
 * are described here by what they end up holding: site s's list is the
 * increasing sequence of the other sites near it.
 */
module PairScan {

  function Min(a: nat, b: nat): nat { if a <= b then a else b }
  function Max(a: nat, b: nat): nat { if a <= b then b else a }

  /**
   * The sites k below hi, other than s, whose pair with s is near, in
   * increasing order; `near` is asked with the smaller index first.
   */
  function NearList(near: (nat, nat) -> bool, s: nat, hi: nat): (r: seq<nat>)
    ensures forall k :: 0 <= k < |r| ==> r[k] < hi && r[k] != s
  {
    if hi == 0 then []
    else NearList(near, s, hi - 1) + (if hi - 1 != s && near(Min(s, hi - 1), Max(s, hi - 1)) then [hi - 1] else [])
  }

  /** k is in s's list exactly when it is another site below hi and the pair is near. */
  lemma {:induction false} NearListMember(near: (nat, nat) -> bool, s: nat, hi: nat, k: nat)
    ensures k in NearList(near, s, hi) <==> k < hi && k != s && near(Min(s, k), Max(s, k))
  {
    if hi > 0 {
      NearListMember(near, s, hi - 1, k);
    }
  }

  /** The list is strictly increasing, so it holds no site twice. */
  lemma {:induction false} NearListIncreasing(near: (nat, nat) -> bool, s: nat, hi: nat)
    ensures forall a, b :: 0 <= a < b < |NearList(near, s, hi)| ==> NearList(near, s, hi)[a] < NearList(near, s, hi)[b]
  {
    if hi > 0 {
      NearListIncreasing(near, s, hi - 1);
    }
  }

  /** Near-ness is asked of unordered pairs, so the lists are symmetric. */
  lemma {:induction false} NearListSymmetric(near: (nat, nat) -> bool, n: nat, s: nat, k: nat)
    requires s < n && k < n
    ensures k in NearList(near, s, n) <==> s in NearList(near, k, n)
  {
    NearListMember(near, s, n, k);
    NearListMember(near, k, n, s);
    assert Min(s, k) == Min(k, s) && Max(s, k) == Max(k, s);
  }

  /** A site is never its own neighbour. */
  lemma {:induction false} NearListIrreflexive(near: (nat, nat) -> bool, n: nat, s: nat)
    ensures s !in NearList(near, s, n)
  {
    NearListMember(near, s, n, s);
  }

  /** A pair that is near for `inner` is near for `outer`: inner's lists are within outer's. */
  lemma {:induction false} NearListWithin(inner: (nat, nat) -> bool, outer: (nat, nat) -> bool, n: nat, s: nat, k: nat)
    requires forall a, b :: inner(a, b) ==> outer(a, b)
    ensures k in NearList(inner, s, n) ==> k in NearList(outer, s, n)
  {
    NearListMember(inner, s, n, k);
    NearListMember(outer, s, n, k);
  }

  /**
   * Site s's list while the pair scan is at pair (i, j): rows before i are
   * done, row i has reached j, and the sites after i have heard from rows up
   * to i (up to i - 1 for those at or after j).
   */
  function Partial(near: (nat, nat) -> bool, n: nat, i: nat, j: nat, s: nat): seq<nat>
  {
    if s < i then NearList(near, s, n)
    else if s == i then NearList(near, i, j)
    else if s < j then NearList(near, s, i + 1)
    else NearList(near, s, i)
  }

  /** Scanning pair (i, j) appends j to i's list and i to j's list when the pair is near, and nothing else. */
  lemma {:induction false} PartialStep(near: (nat, nat) -> bool, n: nat, i: nat, j: nat, s: nat)
    requires i < j < n
    ensures Partial(near, n, i, j + 1, s) ==
      Partial(near, n, i, j, s) + (if near(i, j) && s == i then [j] else if near(i, j) && s == j then [i] else [])
  {
    if s == j {
      assert NearList(near, j, i + 1) == NearList(near, j, i) + (if near(i, j) then [i] else []);
    }
  }

  /** The first pair of row i leaves every list as the rows before i left them. */
  lemma {:induction false} PartialRowStart(near: (nat, nat) -> bool, n: nat, i: nat, s: nat)
    ensures Partial(near, n, i, i + 1, s) == (if s < i then NearList(near, s, n) else NearList(near, s, i))
  {
  }

  /** Finishing row i gives the start of row i + 1. */
  lemma {:induction false} PartialRowEnd(near: (nat, nat) -> bool, n: nat, i: nat, s: nat)
    requires i < n && s < n
    ensures Partial(near, n, i, n, s) == Partial(near, n, i + 1, i + 2, s)
  {
    if s == i + 1 {
      assert NearList(near, s, s + 1) == NearList(near, s, s);
    }
  }

  /** Append j to i's list and i to j's list when b holds. */
  function Link(t: seq<seq<nat>>, i: nat, j: nat, b: bool): (r: seq<seq<nat>>)
    requires i < |t| && j < |t|
    ensures |r| == |t|
  {
    if b then t[i := t[i] + [j]][j := t[j] + [i]] else t
  }

  /** The lists t0 with rows 0 .. i-1 of the pair scan done. */
  function Rows(t0: seq<seq<nat>>, near: (nat, nat) -> bool, i: nat): (r: seq<seq<nat>>)
    requires i <= |t0|
    ensures |r| == |t0|
    decreases i, 0
  {
    if i == 0 then t0 else ScanUpTo(t0, near, i - 1, |t0|)
  }

  /** The lists t0 with every pair before (i, j), in lexicographic order, scanned. */
  function ScanUpTo(t0: seq<seq<nat>>, near: (nat, nat) -> bool, i: nat, j: nat): (r: seq<seq<nat>>)
    requires i < j <= |t0|
    ensures |r| == |t0|
    decreases i, j
  {
    if j == i + 1 then Rows(t0, near, i)
    else Link(ScanUpTo(t0, near, i, j - 1), i, j - 1, near(i, j - 1))
  }

  /** Site s's list during the scan is what it started with followed by Partial. */
  lemma {:induction false} ScanIsPartial(t0: seq<seq<nat>>, near: (nat, nat) -> bool, i: nat, j: nat, s: nat)
    requires i < j <= |t0| && s < |t0|
    ensures ScanUpTo(t0, near, i, j)[s] == t0[s] + Partial(near, |t0|, i, j, s)
    decreases i, j
  {
    var n := |t0|;
    if j == i + 1 {
      PartialRowStart(near, n, i, s);
      if i > 0 {
        ScanIsPartial(t0, near, i - 1, n, s);
        PartialRowEnd(near, n, i - 1, s);
        PartialRowStart(near, n, i - 1, s);
      } else {
        assert Partial(near, n, 0, 1, s) == [];
      }
    } else {
      ScanIsPartial(t0, near, i, j - 1, s);
      PartialStep(near, n, i, j - 1, s);
    }
  }

  /**
   * Once every pair is scanned, each site's list is what it started with
   * followed by the increasing sequence of the other sites near it.
   */
  lemma {:induction false} RowsAreNearLists(t0: seq<seq<nat>>, near: (nat, nat) -> bool, s: nat)
    requires s < |t0|
    ensures Rows(t0, near, |t0|)[s] == t0[s] + NearList(near, s, |t0|)
  {
    var n := |t0|;
    ScanIsPartial(t0, near, n - 1, n, s);
  }
}
