/**
 * The neighbour table read from pair files (include/Neighbourlist.h,
 * src/Neighbourlist.cpp, include/Neighbour.h). Every pair record (id1, id2,
 * dr, couplings) becomes two directed entries: one in the list of id1 toward
 * id2 with displacement dr, one in the list of id2 toward id1 with -dr. The
 * records arrive as a sequence; reading the files is not part of this model.
 */
module Neighbours {
  import opened KmcTypes

  /** One directed neighbour entry; the rates a setup does not compute stay 0. */
  datatype Neighbour = Neighbour(nb: nat, rateE: real, rateH: real, rateS: real, dr: Vec3)

  /** A line of the short-range file: the pair, its displacement and the electron and hole couplings. */
  datatype SRRecord = SRRecord(id1: nat, id2: nat, dr: Vec3, j2e: real, j2h: real)

  /** A line of the long-range file: the pair, its displacement and the singlet coupling. */
  datatype LRRecord = LRRecord(id1: nat, id2: nat, dr: Vec3, j2s: real)

  /**
   * The Marcus rate as a given function of coupling, reorganisation energy,
   * energy difference, the x component of the displacement and the particle
   * type, with the topology's per-pair reorganisation and energy differences.
   */
  datatype RateModel = RateModel(
    marcus: (real, real, real, real, PType) -> real,
    lambda: (nat, nat, PType) -> real,
    deltaE: (nat, nat, PType) -> real)
  {
    /** The rate from site `from` to site `to` for particle type t. */
    function Rate(j2: real, from: nat, to: nat, dx: real, t: PType): (r: real)
      ensures (forall a: real, b: real, c: real, d: real, e: PType :: marcus(a, b, c, d, e) >= 0.0) ==> r >= 0.0
    {
      var reorg, diff := lambda(from, to, t), deltaE(from, to, t);
      marcus(j2, reorg, diff, dx, t)
    }
  }

  /** The two directed entries one record gives: fwd goes to list a, bwd to list b. */
  datatype Pair = Pair(a: nat, b: nat, fwd: Neighbour, bwd: Neighbour)

  type Table = seq<seq<Neighbour>>

  /** The two mirrored short-range entries of one record, carrying no singlet rate. */
  function SRPair(r: SRRecord, m: RateModel): (p: Pair)
    ensures p.a == r.id1 && p.b == r.id2 && p.fwd.nb == r.id2 && p.bwd.nb == r.id1
    ensures p.fwd.dr == r.dr && p.bwd.dr == r.dr.Neg()
    ensures p.fwd.rateS == 0.0 && p.bwd.rateS == 0.0
  {
    Pair(r.id1, r.id2,
      Neighbour(r.id2, m.Rate(r.j2e, r.id1, r.id2, r.dr.x, Elec), m.Rate(r.j2h, r.id1, r.id2, r.dr.x, Hole), 0.0, r.dr),
      Neighbour(r.id1, m.Rate(r.j2e, r.id2, r.id1, -r.dr.x, Elec), m.Rate(r.j2h, r.id2, r.id1, -r.dr.x, Hole), 0.0, r.dr.Neg()))
  }

  /** The two mirrored long-range entries of one record, carrying no electron or hole rate. */
  function LRPair(r: LRRecord, m: RateModel): (p: Pair)
    ensures p.a == r.id1 && p.b == r.id2 && p.fwd.nb == r.id2 && p.bwd.nb == r.id1
    ensures p.fwd.dr == r.dr && p.bwd.dr == r.dr.Neg()
    ensures p.fwd.rateE == 0.0 && p.fwd.rateH == 0.0 && p.bwd.rateE == 0.0 && p.bwd.rateH == 0.0
  {
    Pair(r.id1, r.id2,
      Neighbour(r.id2, 0.0, 0.0, m.Rate(r.j2s, r.id1, r.id2, r.dr.x, Sing), r.dr),
      Neighbour(r.id1, 0.0, 0.0, m.Rate(r.j2s, r.id2, r.id1, -r.dr.x, Sing), r.dr.Neg()))
  }

  function SRPairs(rs: seq<SRRecord>, m: RateModel): (ps: seq<Pair>)
    ensures |ps| == |rs|
    ensures forall k :: 0 <= k < |rs| ==> ps[k] == SRPair(rs[k], m)
  {
    seq(|rs|, k requires 0 <= k < |rs| => SRPair(rs[k], m))
  }

  function LRPairs(rs: seq<LRRecord>, m: RateModel): (ps: seq<Pair>)
    ensures |ps| == |rs|
    ensures forall k :: 0 <= k < |rs| ==> ps[k] == LRPair(rs[k], m)
  {
    seq(|rs|, k requires 0 <= k < |rs| => LRPair(rs[k], m))
  }

  ghost predicate InRange(ps: seq<Pair>, n: nat)
  {
    forall k :: 0 <= k < |ps| ==> ps[k].a < n && ps[k].b < n
  }

  /** The entries of a pair point at each other: fwd toward b, bwd toward a with the opposite displacement. */
  ghost predicate Mirrored(p: Pair)
  {
    p.fwd.nb == p.b && p.bwd.nb == p.a && p.bwd.dr == p.fwd.dr.Neg()
  }

  /** Append the two entries of p, fwd to list a and then bwd to list b. */
  function Append(t: Table, p: Pair): (r: Table)
    requires p.a < |t| && p.b < |t|
    ensures |r| == |t|
  {
    var t1 := t[p.a := t[p.a] + [p.fwd]];
    t1[p.b := t1[p.b] + [p.bwd]]
  }

  /** The table after appending the pairs in order. */
  function AddAll(t: Table, ps: seq<Pair>): (r: Table)
    requires InRange(ps, |t|)
    ensures |r| == |t|
  {
    if |ps| == 0 then t else Append(AddAll(t, ps[..|ps| - 1]), ps[|ps| - 1])
  }

  /** What pair p adds to list s. */
  function Contribution(p: Pair, s: nat): seq<Neighbour>
  {
    (if p.a == s then [p.fwd] else []) + (if p.b == s then [p.bwd] else [])
  }

  /** What the pairs add to list s, in record order. */
  function Contributions(ps: seq<Pair>, s: nat): seq<Neighbour>
  {
    if |ps| == 0 then [] else Contributions(ps[..|ps| - 1], s) + Contribution(ps[|ps| - 1], s)
  }

  /** A table of n empty lists. */
  function Empty(n: nat): (t: Table)
    ensures |t| == n && forall s :: 0 <= s < n ==> t[s] == []
  {
    seq(n, _ => [])
  }

  /** Number of entries over all lists. */
  function TotalSize(t: Table): nat
  {
    if |t| == 0 then 0 else TotalSize(t[..|t| - 1]) + |t[|t| - 1]|
  }

  /** List s after the pairs: its old entries, then each pair's entries for s in record order. */
  lemma {:induction false} AddAllAt(t: Table, ps: seq<Pair>, s: nat)
    requires InRange(ps, |t|) && s < |t|
    ensures AddAll(t, ps)[s] == t[s] + Contributions(ps, s)
  {
    if |ps| > 0 {
      var q := ps[..|ps| - 1];
      assert InRange(q, |t|);
      AddAllAt(t, q, s);
    }
  }

  /** Growing one list by one entry grows the total by one. */
  lemma {:induction false} TotalSizeGrow(t: Table, i: nat, x: Neighbour)
    requires i < |t|
    ensures TotalSize(t[i := t[i] + [x]]) == TotalSize(t) + 1
  {
    var u := t[i := t[i] + [x]];
    if i == |t| - 1 {
      assert u[..|u| - 1] == t[..|t| - 1];
    } else {
      assert u[..|u| - 1] == t[..|t| - 1][i := t[i] + [x]];
      TotalSizeGrow(t[..|t| - 1], i, x);
    }
  }

  /** Every pair adds exactly two entries. */
  lemma {:induction false} AddAllSize(t: Table, ps: seq<Pair>)
    requires InRange(ps, |t|)
    ensures TotalSize(AddAll(t, ps)) == TotalSize(t) + 2 * |ps|
  {
    if |ps| > 0 {
      var q := ps[..|ps| - 1];
      var p := ps[|ps| - 1];
      assert InRange(q, |t|);
      AddAllSize(t, q);
      var t0 := AddAll(t, q);
      TotalSizeGrow(t0, p.a, p.fwd);
      TotalSizeGrow(t0[p.a := t0[p.a] + [p.fwd]], p.b, p.bwd);
    }
  }

  /** An entry is contributed to list s exactly when some pair contributes it. */
  lemma {:induction false} ContributionsMember(ps: seq<Pair>, s: nat, e: Neighbour)
    ensures e in Contributions(ps, s) <==> exists k :: 0 <= k < |ps| && e in Contribution(ps[k], s)
  {
    if |ps| > 0 {
      var q := ps[..|ps| - 1];
      ContributionsMember(q, s, e);
      if e in Contributions(q, s) {
        var k :| 0 <= k < |q| && e in Contribution(q[k], s);
        assert ps[k] == q[k];
      }
      if exists k :: 0 <= k < |ps| && e in Contribution(ps[k], s) {
        var k :| 0 <= k < |ps| && e in Contribution(ps[k], s);
        if k < |q| {
          assert q[k] == ps[k];
        }
      }
    }
  }

  /**
   * Symmetry of a table built from empty lists with mirrored pairs: an entry
   * of list s toward j is matched by an entry of list j toward s with the
   * opposite displacement.
   */
  lemma {:induction false} MirrorEntry(ps: seq<Pair>, n: nat, s: nat, e: Neighbour)
    requires InRange(ps, n) && (forall k :: 0 <= k < |ps| ==> Mirrored(ps[k]))
    requires s < n && e in AddAll(Empty(n), ps)[s]
    ensures e.nb < n
    ensures exists f :: f in AddAll(Empty(n), ps)[e.nb] && f.nb == s && f.dr == e.dr.Neg()
  {
    AddAllAt(Empty(n), ps, s);
    ContributionsMember(ps, s, e);
    var k :| 0 <= k < |ps| && e in Contribution(ps[k], s);
    var f := PairMirror(ps[k], s, e);
    assert e.nb < n;
    ContributionsMember(ps, e.nb, f);
    AddAllAt(Empty(n), ps, e.nb);
    assert f in AddAll(Empty(n), ps)[e.nb];
  }

  /** An entry a mirrored pair adds to list s has its partner entry in the list it points to. */
  lemma PairMirror(p: Pair, s: nat, e: Neighbour) returns (f: Neighbour)
    requires Mirrored(p) && e in Contribution(p, s)
    ensures e.nb in {p.a, p.b} && f in Contribution(p, e.nb) && f.nb == s && f.dr == e.dr.Neg()
  {
    f := if p.a == s && e == p.fwd then p.bwd else p.fwd;
  }

  /** Appending the pairs up to i + 1 is appending those up to i and then pair i. */
  lemma {:induction false} AddAllStep(t: Table, ps: seq<Pair>, i: nat)
    requires InRange(ps, |t|) && i < |ps|
    ensures InRange(ps[..i], |t|) && InRange(ps[..i + 1], |t|)
    ensures AddAll(t, ps[..i + 1]) == Append(AddAll(t, ps[..i]), ps[i])
  {
    assert ps[..i + 1][..i] == ps[..i];
  }

  /** Every entry of list s comes from a pair that has s as one of its ends. */
  lemma {:induction false} EntryOrigin(ps: seq<Pair>, n: nat, s: nat, e: Neighbour)
    requires InRange(ps, n) && s < n && e in AddAll(Empty(n), ps)[s]
    ensures exists k :: 0 <= k < |ps| && ((ps[k].a == s && e == ps[k].fwd) || (ps[k].b == s && e == ps[k].bwd))
  {
    AddAllAt(Empty(n), ps, s);
    ContributionsMember(ps, s, e);
    var k :| 0 <= k < |ps| && e in Contribution(ps[k], s);
  }

  lemma {:induction false} SRPairsMirrored(rs: seq<SRRecord>, m: RateModel)
    ensures forall k :: 0 <= k < |rs| ==> Mirrored(SRPairs(rs, m)[k])
  {
  }

  lemma {:induction false} LRPairsMirrored(rs: seq<LRRecord>, m: RateModel)
    ensures forall k :: 0 <= k < |rs| ==> Mirrored(LRPairs(rs, m)[k])
  {
  }

  ghost predicate SRIdsInRange(rs: seq<SRRecord>, n: nat)
  {
    forall k :: 0 <= k < |rs| ==> rs[k].id1 < n && rs[k].id2 < n
  }

  ghost predicate LRIdsInRange(rs: seq<LRRecord>, n: nat)
  {
    forall k :: 0 <= k < |rs| ==> rs[k].id1 < n && rs[k].id2 < n
  }

  /**
   * Every short-range entry of list s toward j was computed in the direction
   * s -> j: the Marcus rate with the reorganisation and energy difference of
   * (s, j), the x displacement of the entry itself and the record's electron
   * and hole couplings; its singlet rate is 0.
   */
  lemma {:induction false} SREntryRates(rs: seq<SRRecord>, m: RateModel, n: nat, s: nat, e: Neighbour)
    requires SRIdsInRange(rs, n) && s < n && e in AddAll(Empty(n), SRPairs(rs, m))[s]
    ensures e.rateS == 0.0
    ensures exists k :: (0 <= k < |rs| &&
      e.rateE == m.Rate(rs[k].j2e, s, e.nb, e.dr.x, Elec) &&
      e.rateH == m.Rate(rs[k].j2h, s, e.nb, e.dr.x, Hole))
  {
    var ps := SRPairs(rs, m);
    assert InRange(ps, n);
    EntryOrigin(ps, n, s, e);
    var k :| 0 <= k < |ps| && ((ps[k].a == s && e == ps[k].fwd) || (ps[k].b == s && e == ps[k].bwd));
    assert ps[k] == SRPair(rs[k], m);
    SRPairRates(rs[k], m, s, e);
  }

  /** Both entries of a short-range record carry the charge rates of their own direction. */
  lemma SRPairRates(r: SRRecord, m: RateModel, s: nat, e: Neighbour)
    requires var p := SRPair(r, m); (p.a == s && e == p.fwd) || (p.b == s && e == p.bwd)
    ensures e.rateS == 0.0
    ensures e.rateE == m.Rate(r.j2e, s, e.nb, e.dr.x, Elec) && e.rateH == m.Rate(r.j2h, s, e.nb, e.dr.x, Hole)
  {
  }

  /** Every long-range entry of list s toward j carries the singlet rate of direction s -> j; its charge rates are 0. */
  lemma {:induction false} LREntryRates(rs: seq<LRRecord>, m: RateModel, n: nat, s: nat, e: Neighbour)
    requires LRIdsInRange(rs, n) && s < n && e in AddAll(Empty(n), LRPairs(rs, m))[s]
    ensures e.rateE == 0.0 && e.rateH == 0.0
    ensures exists k :: 0 <= k < |rs| && e.rateS == m.Rate(rs[k].j2s, s, e.nb, e.dr.x, Sing)
  {
    var ps := LRPairs(rs, m);
    assert InRange(ps, n);
    EntryOrigin(ps, n, s, e);
    var k :| 0 <= k < |ps| && ((ps[k].a == s && e == ps[k].fwd) || (ps[k].b == s && e == ps[k].bwd));
    assert ps[k] == LRPair(rs[k], m);
    LRPairRates(rs[k], m, s, e);
  }

  /** Both entries of a long-range record carry the singlet rate of their own direction. */
  lemma LRPairRates(r: LRRecord, m: RateModel, s: nat, e: Neighbour)
    requires var p := LRPair(r, m); (p.a == s && e == p.fwd) || (p.b == s && e == p.bwd)
    ensures e.rateE == 0.0 && e.rateH == 0.0
    ensures e.rateS == m.Rate(r.j2s, s, e.nb, e.dr.x, Sing)
  {
  }

  class Neighbourlist {
    const numberOfSites: nat
    var sRNeighbours: Table
    var lRNeighbours: Table

    ghost predicate Valid()
      reads this
    {
      |sRNeighbours| == numberOfSites && |lRNeighbours| == numberOfSites
    }

    constructor (numberOfSites: nat)
      ensures Valid() && this.numberOfSites == numberOfSites
      ensures sRNeighbours == Empty(numberOfSites) && lRNeighbours == Empty(numberOfSites)
    {
      this.numberOfSites := numberOfSites;
      sRNeighbours := Empty(numberOfSites);
      lRNeighbours := Empty(numberOfSites);
    }

    /** Append both directed entries of every short-range record; the long-range lists are untouched. */
    method SetupShortRangeNeighbours(records: seq<SRRecord>, m: RateModel)
      requires Valid() && SRIdsInRange(records, numberOfSites)
      modifies this`sRNeighbours
      ensures Valid()
      ensures InRange(SRPairs(records, m), |old(sRNeighbours)|)
      ensures sRNeighbours == AddAll(old(sRNeighbours), SRPairs(records, m))
    {
      ghost var start := sRNeighbours;
      ghost var ps := SRPairs(records, m);
      assert InRange(ps, |start|);
      var i := 0;
      while i < |records|
        invariant 0 <= i <= |records|
        invariant sRNeighbours == AddAll(start, ps[..i])
      {
        AddAllStep(start, ps, i);
        AddSRRecord(records[i], m);
        i := i + 1;
      }
      assert ps[..|records|] == ps;
    }

    /** The body of the short-range loop: both directed entries of one record. */
    method AddSRRecord(r: SRRecord, m: RateModel)
      requires r.id1 < |sRNeighbours| && r.id2 < |sRNeighbours|
      modifies this`sRNeighbours
      ensures sRNeighbours == Append(old(sRNeighbours), SRPair(r, m))
    {
      var temp1 := Neighbour(r.id2, m.Rate(r.j2e, r.id1, r.id2, r.dr.x, Elec),
                             m.Rate(r.j2h, r.id1, r.id2, r.dr.x, Hole), 0.0, r.dr);
      var temp2 := Neighbour(r.id1, m.Rate(r.j2e, r.id2, r.id1, -r.dr.x, Elec),
                             m.Rate(r.j2h, r.id2, r.id1, -r.dr.x, Hole), 0.0, r.dr.Neg());
      sRNeighbours := sRNeighbours[r.id1 := sRNeighbours[r.id1] + [temp1]];
      sRNeighbours := sRNeighbours[r.id2 := sRNeighbours[r.id2] + [temp2]];
    }

    /** Append both directed entries of every long-range record; the short-range lists are untouched. */
    method SetupLongRangeNeighbours(records: seq<LRRecord>, m: RateModel)
      requires Valid() && LRIdsInRange(records, numberOfSites)
      modifies this`lRNeighbours
      ensures Valid()
      ensures InRange(LRPairs(records, m), |old(lRNeighbours)|)
      ensures lRNeighbours == AddAll(old(lRNeighbours), LRPairs(records, m))
    {
      ghost var start := lRNeighbours;
      ghost var ps := LRPairs(records, m);
      assert InRange(ps, |start|);
      var i := 0;
      while i < |records|
        invariant 0 <= i <= |records|
        invariant lRNeighbours == AddAll(start, ps[..i])
      {
        AddAllStep(start, ps, i);
        AddLRRecord(records[i], m);
        i := i + 1;
      }
      assert ps[..|records|] == ps;
    }

    /** The body of the long-range loop: both directed entries of one record. */
    method AddLRRecord(r: LRRecord, m: RateModel)
      requires r.id1 < |lRNeighbours| && r.id2 < |lRNeighbours|
      modifies this`lRNeighbours
      ensures lRNeighbours == Append(old(lRNeighbours), LRPair(r, m))
    {
      var temp1 := Neighbour(r.id2, 0.0, 0.0, m.Rate(r.j2s, r.id1, r.id2, r.dr.x, Sing), r.dr);
      var temp2 := Neighbour(r.id1, 0.0, 0.0, m.Rate(r.j2s, r.id2, r.id1, -r.dr.x, Sing), r.dr.Neg());
      lRNeighbours := lRNeighbours[r.id1 := lRNeighbours[r.id1] + [temp1]];
      lRNeighbours := lRNeighbours[r.id2 := lRNeighbours[r.id2] + [temp2]];
    }

    function GetSRNeighbours(site: nat): (r: seq<Neighbour>)
      reads this
      requires Valid() && site < numberOfSites
      ensures r == sRNeighbours[site]
    {
      sRNeighbours[site]
    }

    function GetLRNeighbours(site: nat): (r: seq<Neighbour>)
      reads this
      requires Valid() && site < numberOfSites
      ensures r == lRNeighbours[site]
    {
      lRNeighbours[site]
    }
  }
}
