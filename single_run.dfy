/**
 * The older single-carrier simulation loop (src/SingleRun.cpp): one sweep
 * over the site pairs builds the neighbour lists and the rate lists side by
 * side, one electron is placed on a free site, and each step moves one
 * particle, chosen by a running sum of the electron out-rates of the
 * particles' sites. A step is described on values by Move, the pair sweep
 * by the lists During gives at each point of the sweep.
 */
module Single {
  import opened KmcTypes
  import opened Cumulative
  import opened Sites
  import opened Particles
  import opened PairScan
  import opened Placement
  import Kmc

  // ---------------------------------------------------------------------------
  // The pair sweep with rates, on values.

  /** f(s, k) for each k of ks, in order: what site s records toward each of the sites ks. */
  function Along<T>(f: (nat, nat) -> T, s: nat, ks: seq<nat>): (r: seq<T>)
    ensures |r| == |ks|
    ensures forall m :: 0 <= m < |ks| ==> r[m] == f(s, ks[m])
  {
    seq(|ks|, m requires 0 <= m < |ks| => f(s, ks[m]))
  }

  /** What a neighbour list records toward site b: b itself. */
  function Second(a: nat, b: nat): nat
  {
    b
  }

  lemma {:induction false} AlongSnoc<T>(f: (nat, nat) -> T, s: nat, ks: seq<nat>, k: nat)
    ensures Along(f, s, ks + [k]) == Along(f, s, ks) + [f(s, k)]
  {
  }

  lemma {:induction false} AlongSecond(s: nat, ks: seq<nat>)
    ensures Along(Second, s, ks) == ks
  {
  }

  /** When b holds, append f(i, j) to list i and f(j, i) to list j. */
  function LinkWith<T>(t: seq<seq<T>>, i: nat, j: nat, b: bool, f: (nat, nat) -> T): (r: seq<seq<T>>)
    requires i < |t| && j < |t|
    ensures |r| == |t|
    ensures !b ==> r == t
    ensures b && i != j ==> r[i] == t[i] + [f(i, j)] && r[j] == t[j] + [f(j, i)]
    ensures forall k :: 0 <= k < |t| && k != i && k != j ==> r[k] == t[k]
  {
    if b then t[i := t[i] + [f(i, j)]][j := t[j] + [f(j, i)]] else t
  }

  /**
   * The lists t0 while the sweep is at pair (i, j): each site's list is what
   * it started with, followed by f toward the sites the sweep has linked it
   * to so far.
   */
  function During<T>(t0: seq<seq<T>>, near: (nat, nat) -> bool, f: (nat, nat) -> T, i: nat, j: nat): (r: seq<seq<T>>)
    ensures |r| == |t0|
  {
    seq(|t0|, s requires 0 <= s < |t0| => t0[s] + Along(f, s, Partial(near, |t0|, i, j, s)))
  }

  /** Linking pair (i, j) takes the sweep from (i, j) to (i, j + 1). */
  lemma {:induction false} DuringStep<T>(t0: seq<seq<T>>, near: (nat, nat) -> bool, f: (nat, nat) -> T, i: nat, j: nat)
    requires i < j < |t0|
    ensures LinkWith(During(t0, near, f, i, j), i, j, near(i, j), f) == During(t0, near, f, i, j + 1)
  {
    var n := |t0|;
    var a := LinkWith(During(t0, near, f, i, j), i, j, near(i, j), f);
    var b := During(t0, near, f, i, j + 1);
    forall s | 0 <= s < n
      ensures a[s] == b[s]
    {
      PartialStep(near, n, i, j, s);
      var p := Partial(near, n, i, j, s);
      if near(i, j) && s == i {
        AlongSnoc(f, s, p, j);
      } else if near(i, j) && s == j {
        AlongSnoc(f, s, p, i);
      }
    }
  }

  /** The end of row i is the start of row i + 1. */
  lemma {:induction false} DuringRowEnd<T>(t0: seq<seq<T>>, near: (nat, nat) -> bool, f: (nat, nat) -> T, i: nat)
    requires i < |t0|
    ensures During(t0, near, f, i, |t0|) == During(t0, near, f, i + 1, i + 2)
  {
    forall s | 0 <= s < |t0|
      ensures During(t0, near, f, i, |t0|)[s] == During(t0, near, f, i + 1, i + 2)[s]
    {
      PartialRowEnd(near, |t0|, i, s);
    }
  }

  /** Before the first pair nothing has been appended. */
  lemma {:induction false} DuringStart<T>(t0: seq<seq<T>>, near: (nat, nat) -> bool, f: (nat, nat) -> T)
    ensures During(t0, near, f, 0, 1) == t0
  {
    forall s | 0 <= s < |t0|
      ensures During(t0, near, f, 0, 1)[s] == t0[s]
    {
      PartialRowStart(near, |t0|, 0, s);
    }
  }

  /** Every site's neighbour and rate lists, as values. */
  datatype Lists = Lists(
    lr: seq<seq<nat>>,
    sr: seq<seq<nat>>,
    lrRates: seq<seq<real>>,
    elecRates: seq<seq<real>>,
    holeRates: seq<seq<real>>,
    tripRates: seq<seq<real>>)
  {
    ghost predicate Sized(n: nat)
    {
      |lr| == n && |sr| == n && |lrRates| == n && |elecRates| == n && |holeRates| == n && |tripRates| == n
    }

    /** Site s's neighbour lists are as long as the rate lists kept beside them. */
    ghost predicate Lockstep(s: nat)
      requires Sized(|lr|) && s < |lr|
    {
      |sr[s]| == |elecRates[s]| == |holeRates[s]| == |tripRates[s]| && |lr[s]| == |lrRates[s]|
    }
  }

  /** What the sweep depends on: which pairs are near for each kind of list, and the rate functions. */
  datatype Rule = Rule(
    lrNear: (nat, nat) -> bool,
    srNear: (nat, nat) -> bool,
    dexter: (nat, nat) -> real,
    millerAbrahams: (nat, nat, PType) -> real)
  {
    /** The Miller-Abrahams rate for carrier type t, as a function of two site indices. */
    function Hopping(t: PType): (nat, nat) -> real
    {
      (a: nat, b: nat) => millerAbrahams(a, b, t)
    }

    /** The lists l0 with the sweep at pair (i, j). */
    function Progress(l0: Lists, i: nat, j: nat): (r: Lists)
    {
      Lists(During(l0.lr, lrNear, Second, i, j), During(l0.sr, srNear, Second, i, j),
            During(l0.lrRates, lrNear, dexter, i, j), During(l0.elecRates, srNear, Hopping(Elec), i, j),
            During(l0.holeRates, srNear, Hopping(Hole), i, j), During(l0.tripRates, srNear, Hopping(Trip), i, j))
    }

    /** The lists l after pair (i, j) of the sweep. */
    function LinkAll(l: Lists, n: nat, i: nat, j: nat): (r: Lists)
      requires l.Sized(n) && i < n && j < n
      ensures r.Sized(n)
      ensures forall s :: 0 <= s < n && l.Lockstep(s) ==> r.Lockstep(s)
    {
      Lists(LinkWith(l.lr, i, j, lrNear(i, j), Second), LinkWith(l.sr, i, j, srNear(i, j), Second),
            LinkWith(l.lrRates, i, j, lrNear(i, j), dexter), LinkWith(l.elecRates, i, j, srNear(i, j), Hopping(Elec)),
            LinkWith(l.holeRates, i, j, srNear(i, j), Hopping(Hole)), LinkWith(l.tripRates, i, j, srNear(i, j), Hopping(Trip)))
    }

    /** A pair that is not near changes nothing; one near only long-range gains the long-range entries; one near both ways gains all. */
    lemma LinkAllCases(l: Lists, n: nat, i: nat, j: nat)
      requires l.Sized(n) && i < n && j < n
      ensures !lrNear(i, j) && !srNear(i, j) ==> LinkAll(l, n, i, j) == l
      ensures lrNear(i, j) && !srNear(i, j) ==>
        LinkAll(l, n, i, j) == l.(lr := LinkWith(l.lr, i, j, true, Second), lrRates := LinkWith(l.lrRates, i, j, true, dexter))
      ensures lrNear(i, j) && srNear(i, j) ==>
        LinkAll(l, n, i, j) == l.(lr := LinkWith(l.lr, i, j, true, Second), lrRates := LinkWith(l.lrRates, i, j, true, dexter),
                                  sr := LinkWith(l.sr, i, j, true, Second),
                                  elecRates := LinkWith(l.elecRates, i, j, true, Hopping(Elec)),
                                  holeRates := LinkWith(l.holeRates, i, j, true, Hopping(Hole)),
                                  tripRates := LinkWith(l.tripRates, i, j, true, Hopping(Trip)))
    {
    }

    /**
     * What the sweep of n sites leaves on site s: each list gains, after what
     * it held before, the increasing sequence of the other sites near s, and
     * each rate list the rate toward each of them, in the same order.
     */
    ghost predicate Swept(l0: Lists, l: Lists, n: nat, s: nat)
      requires l0.Sized(n) && l.Sized(n) && s < n
    {
      var lrNbs, srNbs := NearList(lrNear, s, n), NearList(srNear, s, n);
      l.lr[s] == l0.lr[s] + lrNbs && l.lrRates[s] == l0.lrRates[s] + Along(dexter, s, lrNbs) &&
      l.sr[s] == l0.sr[s] + srNbs &&
      l.elecRates[s] == l0.elecRates[s] + Along(Hopping(Elec), s, srNbs) &&
      l.holeRates[s] == l0.holeRates[s] + Along(Hopping(Hole), s, srNbs) &&
      l.tripRates[s] == l0.tripRates[s] + Along(Hopping(Trip), s, srNbs)
    }

    lemma {:induction false} ProgressStart(l0: Lists)
      ensures Progress(l0, 0, 1) == l0
    {
      DuringStart(l0.lr, lrNear, Second);
      DuringStart(l0.sr, srNear, Second);
      DuringStart(l0.lrRates, lrNear, dexter);
      DuringStart(l0.elecRates, srNear, Hopping(Elec));
      DuringStart(l0.holeRates, srNear, Hopping(Hole));
      DuringStart(l0.tripRates, srNear, Hopping(Trip));
    }

    lemma {:induction false} ProgressStep(l0: Lists, n: nat, i: nat, j: nat)
      requires l0.Sized(n) && i < j < n
      ensures Progress(l0, i, j).Sized(n)
      ensures LinkAll(Progress(l0, i, j), n, i, j) == Progress(l0, i, j + 1)
    {
      DuringStep(l0.lr, lrNear, Second, i, j);
      DuringStep(l0.sr, srNear, Second, i, j);
      DuringStep(l0.lrRates, lrNear, dexter, i, j);
      DuringStep(l0.elecRates, srNear, Hopping(Elec), i, j);
      DuringStep(l0.holeRates, srNear, Hopping(Hole), i, j);
      DuringStep(l0.tripRates, srNear, Hopping(Trip), i, j);
    }

    lemma {:induction false} ProgressRowEnd(l0: Lists, n: nat, i: nat)
      requires l0.Sized(n) && i < n
      ensures Progress(l0, i, n) == Progress(l0, i + 1, i + 2)
    {
      DuringRowEnd(l0.lr, lrNear, Second, i);
      DuringRowEnd(l0.sr, srNear, Second, i);
      DuringRowEnd(l0.lrRates, lrNear, dexter, i);
      DuringRowEnd(l0.elecRates, srNear, Hopping(Elec), i);
      DuringRowEnd(l0.holeRates, srNear, Hopping(Hole), i);
      DuringRowEnd(l0.tripRates, srNear, Hopping(Trip), i);
    }

    /**
     * At the end of the sweep every site's lists are as Swept says, and a
     * site whose lists were in lockstep stays so.
     */
    lemma {:induction false} ProgressDone(l0: Lists, n: nat, s: nat)
      requires l0.Sized(n) && s < n
      ensures Progress(l0, n, n + 1).Sized(n)
      ensures Swept(l0, Progress(l0, n, n + 1), n, s)
      ensures l0.Lockstep(s) ==> Progress(l0, n, n + 1).Lockstep(s)
    {
      AlongSecond(s, NearList(lrNear, s, n));
      AlongSecond(s, NearList(srNear, s, n));
    }
  }

  ghost function RateTable(sites: seq<Site>, c: nat): (r: seq<seq<real>>)
    reads sites
    requires AllValid(sites) && c < 3
    ensures |r| == |sites|
  {
    seq(|sites|, a requires 0 <= a < |sites| && sites[a].Valid() reads sites => sites[a].sRRates[c])
  }

  ghost function LRRateTable(sites: seq<Site>): (r: seq<seq<real>>)
    reads sites
    ensures |r| == |sites|
  {
    seq(|sites|, a requires 0 <= a < |sites| reads sites => sites[a].lRRates)
  }

  ghost function ListsOf(sites: seq<Site>): (r: Lists)
    reads sites
    requires AllValid(sites)
    ensures r.Sized(|sites|)
  {
    Lists(LRTable(sites), SRTable(sites), LRRateTable(sites),
          RateTable(sites, Elec.Index()), RateTable(sites, Hole.Index()), RateTable(sites, Trip.Index()))
  }

  /** The electron total out-rate of every site. */
  ghost function ElecTotals(sites: seq<Site>): (r: seq<real>)
    reads sites
    requires AllValid(sites)
    ensures |r| == |sites|
  {
    seq(|sites|, a requires 0 <= a < |sites| && sites[a].Valid() reads sites => sites[a].totalRates[Elec.Index()])
  }

  /** A site's totals are the sums of its electron, hole and triplet short-range lists and of its long-range list. */
  ghost predicate TotalsAgree(site: Site)
    reads site
  {
    site.Valid() &&
    site.totalRates == [Sum(site.sRRates[Elec.Index()]), Sum(site.sRRates[Hole.Index()]),
                        Sum(site.sRRates[Trip.Index()]), Sum(site.lRRates)]
  }

  /** Record nb as a long-range neighbour of site k, with the rate toward it. */
  method AppendLR(sites: seq<Site>, k: nat, nb: nat, rate: real)
    requires Distinct(sites) && AllValid(sites) && k < |sites|
    modifies sites[k]
    ensures AllValid(sites) && OccTable(sites) == old(OccTable(sites)) && ElecTotals(sites) == old(ElecTotals(sites))
    ensures var l := old(ListsOf(sites));
      ListsOf(sites) == l.(lr := l.lr[k := l.lr[k] + [nb]], lrRates := l.lrRates[k := l.lrRates[k] + [rate]])
  {
    sites[k].AddLRNeighbour(nb);
    sites[k].AddLRRate(rate);
  }

  /** Record nb as a short-range neighbour of site k, with the electron, hole and triplet rates toward it. */
  method AppendSR(sites: seq<Site>, k: nat, nb: nat, e: real, h: real, t: real)
    requires Distinct(sites) && AllValid(sites) && k < |sites|
    modifies sites[k]
    ensures AllValid(sites) && OccTable(sites) == old(OccTable(sites)) && ElecTotals(sites) == old(ElecTotals(sites))
    ensures var l := old(ListsOf(sites));
      ListsOf(sites) == l.(sr := l.sr[k := l.sr[k] + [nb]], elecRates := l.elecRates[k := l.elecRates[k] + [e]],
                           holeRates := l.holeRates[k := l.holeRates[k] + [h]], tripRates := l.tripRates[k := l.tripRates[k] + [t]])
  {
    LinkSite(sites[k], nb, e, h, t);
  }

  /** The four additions of a short-range link on one site: the neighbour, then its electron, hole and triplet rates. */
  method LinkSite(site: Site, nb: nat, e: real, h: real, t: real)
    requires site.Valid()
    modifies site`sRNeighbours, site`sRRates
    ensures site.Valid() && site.sRNeighbours == old(site.sRNeighbours) + [nb]
    ensures site.sRRates == [old(site.sRRates[0]) + [e], old(site.sRRates[1]) + [h], old(site.sRRates[2]) + [t]]
  {
    site.AddSRNeighbour(nb);
    site.AddSRRate(Elec, e);
    site.AddSRRate(Hole, h);
    site.AddSRRate(Trip, t);
  }

  /** Compute the totals of site k; only its totals change. */
  method ComputeTotalsAt(sites: seq<Site>, k: nat)
    requires Distinct(sites) && AllValid(sites) && k < |sites|
    modifies sites[k]
    ensures AllValid(sites) && OccTable(sites) == old(OccTable(sites)) && ListsOf(sites) == old(ListsOf(sites))
    ensures TotalsAgree(sites[k])
    ensures forall a :: 0 <= a < |sites| && a != k ==> sites[a].totalRates == old(sites[a].totalRates)
  {
    sites[k].ComputeTotals();
  }

  /** Lower the flag of channel t on site k; the lists and totals stay as they are. */
  method ClearAt(sites: seq<Site>, k: nat, t: PType)
    requires Distinct(sites) && AllValid(sites) && k < |sites|
    modifies sites[k]
    ensures AllValid(sites) && OccTable(sites) == old(OccTable(sites))[k := old(OccTable(sites))[k].Free(t)]
    ensures ListsOf(sites) == old(ListsOf(sites)) && ElecTotals(sites) == old(ElecTotals(sites))
  {
    sites[k].FreeSite(t);
  }

  /** Raise the flag of channel t on site k; the lists and totals stay as they are. */
  method MarkAt(sites: seq<Site>, k: nat, t: PType)
    requires Distinct(sites) && AllValid(sites) && k < |sites|
    modifies sites[k]
    ensures AllValid(sites) && OccTable(sites) == old(OccTable(sites))[k := old(OccTable(sites))[k].Occupy(t)]
    ensures ListsOf(sites) == old(ListsOf(sites)) && ElecTotals(sites) == old(ElecTotals(sites))
  {
    sites[k].SetOccupied(t);
  }

  // ---------------------------------------------------------------------------
  // The step, on values.

  /** Occupancy flags of every site, the particle list and the simulated time. */
  datatype Lattice = Lattice(occ: seq<Slot>, parts: seq<Particle>, time: real)

  ghost predicate Located(parts: seq<Particle>, n: nat)
  {
    forall m :: 0 <= m < |parts| ==> parts[m].location < n
  }

  /** The hop rule gives a site index for every site index. */
  ghost predicate HopsIn(hop: (nat, real, PType) -> nat, n: nat)
  {
    forall a: nat, v: real, t: PType :: a < n ==> hop(a, v, t) < n
  }

  ghost predicate Sound(l: Lattice)
  {
    AllSlotsValid(l.occ) && Located(l.parts, |l.occ|)
  }

  /** The out-rate of each particle: the electron total of its site, in particle order. */
  function RatesOf(parts: seq<Particle>, totals: seq<real>): (r: seq<real>)
    requires Located(parts, |totals|)
    ensures |r| == |parts|
    ensures forall m :: 0 <= m < |parts| ==> r[m] == totals[parts[m].location]
  {
    seq(|parts|, m requires 0 <= m < |parts| => totals[parts[m].location])
  }

  /** Particle k hops to site `to`, travelling dr: its type's flag is lowered on its old site, then raised on the new one. */
  function Hop(l: Lattice, k: nat, to: nat, dr: Vec3): (r: Lattice)
    requires Sound(l) && k < |l.parts| && to < |l.occ|
    ensures Sound(r) && |r.occ| == |l.occ| && |r.parts| == |l.parts|
  {
    var p := l.parts[k];
    var freed := l.occ[p.location := l.occ[p.location].Free(p.ptype)];
    Lattice(freed[to := freed[to].Occupy(p.ptype)], l.parts[k := JumpTo(p, to, dr)], l.time)
  }

  /**
   * The scan of a step: the first particle whose running out-rate reaches
   * select, if there is one, hops to the site the hop rule gives for its
   * site, the draw uHop and its type, travelling the displacement between
   * the two sites; otherwise nothing changes.
   */
  function Move(l: Lattice, totals: seq<real>, select: real, uHop: real,
                hop: (nat, real, PType) -> nat, disp: (nat, nat) -> Vec3): (r: Lattice)
    requires Sound(l) && |totals| == |l.occ| && HopsIn(hop, |l.occ|)
    ensures Sound(r) && |r.occ| == |l.occ| && |r.parts| == |l.parts|
  {
    match Crossing(RatesOf(l.parts, totals), select)
    case None => l
    case Some(k) =>
      var from := l.parts[k].location;
      var to := hop(from, uHop, l.parts[k].ptype);
      Hop(l, k, to, disp(from, to))
  }

  /**
   * The scan moves at most one particle: when two particles differ from
   * before, they are the same particle. It moves one exactly when a running
   * sum reaches select; the clock and every particle's type stay as they
   * were.
   */
  lemma {:induction false} MoveMovesOne(l: Lattice, totals: seq<real>, select: real, uHop: real,
                                        hop: (nat, real, PType) -> nat, disp: (nat, nat) -> Vec3)
    requires Sound(l) && |totals| == |l.occ| && HopsIn(hop, |l.occ|)
    ensures var r := Move(l, totals, select, uHop, hop, disp);
      r.time == l.time && Types(r.parts) == Types(l.parts) &&
      (forall m1, m2 :: 0 <= m1 < |l.parts| && 0 <= m2 < |l.parts| && m1 != m2 && r.parts[m1] != l.parts[m1] ==>
         r.parts[m2] == l.parts[m2]) &&
      (Crossing(RatesOf(l.parts, totals), select).None? ==> r == l)
  {
    var r := Move(l, totals, select, uHop, hop, disp);
    match Crossing(RatesOf(l.parts, totals), select)
    case None =>
    case Some(k) =>
      forall m | 0 <= m < |l.parts| && m != k
        ensures r.parts[m] == l.parts[m]
      {
      }
      assert Types(r.parts) == Types(l.parts) by {
        forall m | 0 <= m < |l.parts|
          ensures Types(r.parts)[m] == Types(l.parts)[m]
        {
        }
      }
  }

  /**
   * The moved particle is the one the event list's rule would pick: with
   * nonnegative site totals, at least one particle and u in [0, 1], a
   * running sum reaches u times the total, the particle it stops at is the
   * inverse-CDF choice Select, and when the total and u are positive that
   * particle's out-rate is positive.
   */
  lemma {:induction false} StepChoosesSelect(parts: seq<Particle>, totals: seq<real>, total: real, u: real)
    requires Located(parts, |totals|) && NonNegative(totals) && |parts| > 0 && 0.0 <= u <= 1.0
    requires total == Sum(RatesOf(parts, totals))
    ensures var rates := RatesOf(parts, totals);
      Crossing(rates, total * u).Some? && Crossing(rates, total * u) == Select(rates, total * u)
    ensures var rates := RatesOf(parts, totals);
      total > 0.0 && u > 0.0 ==> rates[Crossing(rates, total * u).value] > 0.0
  {
    var rates := RatesOf(parts, totals);
    RatesNonNegative(parts, totals);
    ScaledThreshold(total, u);
    CrossingIsSelect(rates, total * u);
    if total > 0.0 && u > 0.0 {
      SelectedIsPositive(rates, total, u);
    }
  }

  lemma {:induction false} RatesNonNegative(parts: seq<Particle>, totals: seq<real>)
    requires Located(parts, |totals|) && NonNegative(totals)
    ensures NonNegative(RatesOf(parts, totals))
  {
    var rates := RatesOf(parts, totals);
    forall m | 0 <= m < |rates|
      ensures rates[m] >= 0.0
    {
      assert rates[m] == totals[parts[m].location];
    }
  }

  /** Site flags tell where the lone particle p is: its own channel on its site, nothing anywhere else. */
  ghost predicate Lone(occ: seq<Slot>, p: Particle)
  {
    p.location < |occ| &&
    forall s :: 0 <= s < |occ| ==> occ[s] == (if s == p.location then Vacant.Occupy(p.ptype) else Vacant)
  }

  /** With one particle, the scan keeps the site flags telling where it is. */
  lemma {:induction false} MoveKeepsLone(l: Lattice, totals: seq<real>, select: real, uHop: real,
                                         hop: (nat, real, PType) -> nat, disp: (nat, nat) -> Vec3)
    requires Sound(l) && |totals| == |l.occ| && HopsIn(hop, |l.occ|)
    requires |l.parts| == 1 && Lone(l.occ, l.parts[0])
    ensures var r := Move(l, totals, select, uHop, hop, disp);
      |r.parts| == 1 && Lone(r.occ, r.parts[0])
  {
    var r := Move(l, totals, select, uHop, hop, disp);
    match Crossing(RatesOf(l.parts, totals), select)
    case None =>
    case Some(k) =>
      var p := l.parts[0];
      assert Vacant.Occupy(p.ptype).Free(p.ptype) == Vacant;
      forall s | 0 <= s < |r.occ|
        ensures r.occ[s] == (if s == r.parts[0].location then Vacant.Occupy(p.ptype) else Vacant)
      {
      }
  }

  /**
   * Placing the first electron on an empty lattice leaves flags that tell
   * where it is.
   */
  lemma {:induction false} PlacedIsLone(occ: seq<Slot>, loc: nat)
    requires loc < |occ| && forall s :: 0 <= s < |occ| ==> occ[s] == Vacant
    ensures Lone(occ[loc := occ[loc].Occupy(Elec)], NewParticle(loc, Elec))
  {
  }

  // ---------------------------------------------------------------------------
  // The engine.

  class SingleRun {
    var siteList: seq<Site>
    var particleList: seq<Particle>
    var totalTime: real
    /** The Miller-Abrahams hopping rate from one site to another, by index, for a carrier type. */
    const millerAbrahams: (nat, nat, PType) -> real
    /** The Dexter transfer rate from one site to another, by index. */
    const dexter: (nat, nat) -> real
    /** The site a particle of the given type hops to from the given site, for a uniform draw. */
    const nextHop: (nat, real, PType) -> nat
    /** The periodic-boundary displacement from one site to another, by index. */
    const disp: (nat, nat) -> Vec3
    /** The norm of the periodic-boundary displacement between two coordinates. */
    const distance: (Vec3, Vec3) -> real
    const sRCutOff: real
    const lRCutOff: real

    ghost predicate Valid()
      reads this, siteList
    {
      Distinct(siteList) && AllValid(siteList) && Located(particleList, |siteList|)
    }

    ghost function State(): Lattice
      reads this, siteList
    {
      Lattice(OccTable(siteList), particleList, totalTime)
    }

    /** The lattice is valid and holds the state l. */
    ghost predicate Mirrors(l: Lattice)
      reads this, siteList
    {
      Valid() && l == State()
    }

    constructor (millerAbrahams: (nat, nat, PType) -> real, dexter: (nat, nat) -> real,
                 nextHop: (nat, real, PType) -> nat, disp: (nat, nat) -> Vec3,
                 distance: (Vec3, Vec3) -> real, sRCutOff: real, lRCutOff: real)
      ensures Valid() && siteList == [] && particleList == [] && totalTime == 0.0
      ensures this.millerAbrahams == millerAbrahams && this.dexter == dexter && this.nextHop == nextHop
      ensures this.disp == disp && this.distance == distance
      ensures this.sRCutOff == sRCutOff && this.lRCutOff == lRCutOff
    {
      this.millerAbrahams, this.dexter, this.nextHop := millerAbrahams, dexter, nextHop;
      this.disp, this.distance := disp, distance;
      this.sRCutOff, this.lRCutOff := sRCutOff, lRCutOff;
      siteList, particleList, totalTime := [], [], 0.0;
    }

    /** initializeSites: one new, vacant site per coordinate, with the energies given for it. */
    method InitializeSites(coords: seq<Vec3>, energies: seq<seq<real>>)
      requires Valid() && |energies| == |coords|
      modifies this`siteList
      ensures Valid()
      ensures |siteList| == old(|siteList|) + |coords| && siteList[..old(|siteList|)] == old(siteList)
      ensures forall k :: 0 <= k < |coords| ==>
        var s := siteList[old(|siteList|) + k];
        fresh(s) && s.coord == coords[k] && s.energies == energies[k] &&
        s.Occupancy() == Vacant && s.sRNeighbours == [] && s.lRNeighbours == []
    {
      var added := Kmc.NewSites(coords, energies, |siteList|);
      siteList := siteList + added;
      assert siteList[..old(|siteList|)] == old(siteList);
    }

    /** Sites near for the long-range lists: within the long-range cutoff. */
    ghost function LRNear(): (r: (nat, nat) -> bool)
      reads this
      ensures forall a: nat, b: nat :: r(a, b) ==> a < |siteList| && b < |siteList|
    {
      var coords := Coords(siteList);
      (a: nat, b: nat) => a < |coords| && b < |coords| && distance(coords[a], coords[b]) <= lRCutOff
    }

    /** Sites near for the short-range lists: the short-range test is made only inside the long-range one. */
    ghost function SRNear(): (r: (nat, nat) -> bool)
      reads this
      ensures forall a: nat, b: nat :: r(a, b) ==> LRNear()(a, b)
    {
      var coords := Coords(siteList);
      (a: nat, b: nat) => a < |coords| && b < |coords| &&
        distance(coords[a], coords[b]) <= lRCutOff && distance(coords[a], coords[b]) <= sRCutOff
    }

    /** The sweep's rule for these sites, cutoffs and rate functions. */
    ghost function Sweep(): Rule
      reads this
    {
      Rule(LRNear(), SRNear(), dexter, millerAbrahams)
    }

    /**
     * The short-range and long-range adjacency the sweep builds is
     * symmetric, has no self-edges, and every short-range neighbour is also a
     * long-range one.
     */
    lemma {:induction false} SweptAdjacency(s: nat, k: nat)
      requires s < |siteList| && k < |siteList|
      ensures k in NearList(LRNear(), s, |siteList|) <==> s in NearList(LRNear(), k, |siteList|)
      ensures k in NearList(SRNear(), s, |siteList|) <==> s in NearList(SRNear(), k, |siteList|)
      ensures s !in NearList(LRNear(), s, |siteList|) && s !in NearList(SRNear(), s, |siteList|)
      ensures k in NearList(SRNear(), s, |siteList|) ==> k in NearList(LRNear(), s, |siteList|)
    {
      var n := |siteList|;
      NearListSymmetric(LRNear(), n, s, k);
      NearListSymmetric(SRNear(), n, s, k);
      NearListIrreflexive(LRNear(), n, s);
      NearListIrreflexive(SRNear(), n, s);
      NearListWithin(SRNear(), LRNear(), n, s, k);
    }

    /**
     * initializeNeighboursAndRates: every pair i < j is swept once; a pair
     * within the long-range cutoff is linked both ways in the long-range
     * lists with the Dexter rate each way, and one also within the
     * short-range cutoff in the short-range lists with the electron, hole and
     * triplet rates each way. Then every site's totals are computed.
     */
    method InitializeNeighboursAndRates()
      requires Valid()
      modifies siteList
      ensures Valid() && OccTable(siteList) == old(OccTable(siteList))
      ensures forall s :: 0 <= s < |siteList| ==> Sweep().Swept(old(ListsOf(siteList)), ListsOf(siteList), |siteList|, s)
      ensures forall s :: 0 <= s < |siteList| && old(ListsOf(siteList)).Lockstep(s) ==> ListsOf(siteList).Lockstep(s)
      ensures forall s :: 0 <= s < |siteList| ==> TotalsAgree(siteList[s])
    {
      var n := |siteList|;
      ghost var l0 := ListsOf(siteList);
      ghost var occ0 := OccTable(siteList);
      ghost var rule := Sweep();
      rule.ProgressStart(l0);
      var i := 0;
      while i < n
        invariant 0 <= i <= n
        invariant AllValid(siteList) && OccTable(siteList) == occ0
        invariant ListsOf(siteList) == rule.Progress(l0, i, i + 1)
      {
        SweepRow(i, l0, occ0, rule);
        i := i + 1;
      }
      ComputeAllTotals();
      forall s | 0 <= s < n
        ensures rule.Swept(l0, ListsOf(siteList), n, s)
        ensures l0.Lockstep(s) ==> ListsOf(siteList).Lockstep(s)
      {
        rule.ProgressDone(l0, n, s);
      }
    }

    /** The sites are valid, their occupation is occ0 and their lists are where the sweep leaves them just before pair (i, j). */
    ghost predicate Reached(l0: Lists, occ0: seq<Slot>, rule: Rule, i: nat, j: nat)
      reads this, siteList
    {
      AllValid(siteList) && OccTable(siteList) == occ0 && ListsOf(siteList) == rule.Progress(l0, i, j)
    }

    /** Row i of the sweep: pairs (i, i + 1) .. (i, n - 1). */
    method SweepRow(i: nat, ghost l0: Lists, ghost occ0: seq<Slot>, ghost rule: Rule)
      requires Distinct(siteList) && AllValid(siteList) && i < |siteList| && l0.Sized(|siteList|)
      requires rule == Sweep()
      requires OccTable(siteList) == occ0 && ListsOf(siteList) == rule.Progress(l0, i, i + 1)
      modifies siteList
      ensures AllValid(siteList) && OccTable(siteList) == occ0
      ensures ListsOf(siteList) == rule.Progress(l0, i + 1, i + 2)
    {
      var n := |siteList|;
      for j := i + 1 to n
        invariant Reached(l0, occ0, rule, i, j)
      {
        SweepPair(i, j, l0, occ0, rule);
      }
      rule.ProgressRowEnd(l0, n, i);
    }

    /** Pair (i, j) of the sweep takes the lists from their state before it to their state after it. */
    method SweepPair(i: nat, j: nat, ghost l0: Lists, ghost occ0: seq<Slot>, ghost rule: Rule)
      requires Distinct(siteList) && i < j < |siteList| && l0.Sized(|siteList|)
      requires rule == Sweep() && Reached(l0, occ0, rule, i, j)
      modifies siteList[i], siteList[j]
      ensures Reached(l0, occ0, rule, i, j + 1)
    {
      rule.ProgressStep(l0, |siteList|, i, j);
      LinkPair(i, j, rule);
    }

    /** One pair of the sweep. */
    method LinkPair(i: nat, j: nat, ghost rule: Rule)
      requires Distinct(siteList) && AllValid(siteList) && i < j < |siteList| && rule == Sweep()
      modifies siteList[i], siteList[j]
      ensures AllValid(siteList) && OccTable(siteList) == old(OccTable(siteList))
      ensures ListsOf(siteList) == rule.LinkAll(old(ListsOf(siteList)), |siteList|, i, j)
    {
      rule.LinkAllCases(ListsOf(siteList), |siteList|, i, j);
      var dist := distance(siteList[i].coord, siteList[j].coord);
      if dist <= lRCutOff {
        LinkLR(i, j);
        if dist <= sRCutOff {
          LinkSR(i, j, rule);
        }
      }
    }

    /** Link i and j both ways in the long-range lists, each with its Dexter rate toward the other. */
    method LinkLR(i: nat, j: nat)
      requires Distinct(siteList) && AllValid(siteList) && i < j < |siteList|
      modifies siteList[i], siteList[j]
      ensures AllValid(siteList) && OccTable(siteList) == old(OccTable(siteList))
      ensures var l := old(ListsOf(siteList));
        ListsOf(siteList) == l.(lr := LinkWith(l.lr, i, j, true, Second), lrRates := LinkWith(l.lrRates, i, j, true, dexter))
    {
      AppendLR(siteList, i, j, dexter(i, j));
      AppendLR(siteList, j, i, dexter(j, i));
    }

    /** Link i and j both ways in the short-range lists, each with its electron, hole and triplet rates toward the other. */
    method LinkSR(i: nat, j: nat, ghost rule: Rule)
      requires Distinct(siteList) && AllValid(siteList) && i < j < |siteList| && rule.millerAbrahams == millerAbrahams
      modifies siteList[i], siteList[j]
      ensures AllValid(siteList) && OccTable(siteList) == old(OccTable(siteList))
      ensures var l := old(ListsOf(siteList));
        ListsOf(siteList) == l.(sr := LinkWith(l.sr, i, j, true, Second),
                                elecRates := LinkWith(l.elecRates, i, j, true, rule.Hopping(Elec)),
                                holeRates := LinkWith(l.holeRates, i, j, true, rule.Hopping(Hole)),
                                tripRates := LinkWith(l.tripRates, i, j, true, rule.Hopping(Trip)))
    {
      AppendSR(siteList, i, j, millerAbrahams(i, j, Elec), millerAbrahams(i, j, Hole), millerAbrahams(i, j, Trip));
      AppendSR(siteList, j, i, millerAbrahams(j, i, Elec), millerAbrahams(j, i, Hole), millerAbrahams(j, i, Trip));
    }

    /** computeTotals on every site, in order; only the totals change. */
    method ComputeAllTotals()
      requires Distinct(siteList) && AllValid(siteList)
      modifies siteList
      ensures AllValid(siteList) && OccTable(siteList) == old(OccTable(siteList))
      ensures ListsOf(siteList) == old(ListsOf(siteList))
      ensures forall s :: 0 <= s < |siteList| ==> TotalsAgree(siteList[s])
    {
      var k := 0;
      while k < |siteList|
        invariant 0 <= k <= |siteList|
        invariant AllValid(siteList) && OccTable(siteList) == old(OccTable(siteList))
        invariant ListsOf(siteList) == old(ListsOf(siteList))
        invariant forall s :: 0 <= s < k ==> TotalsAgree(siteList[s])
      {
        ComputeTotalsAt(siteList, k);
        k := k + 1;
      }
    }

    /**
     * initializeParticles: one electron, on the first draw whose site has its
     * electron channel free, flagged on that site; nothing changes when the
     * draws run out first.
     */
    method InitializeParticles(draws: seq<nat>) returns (ok: bool)
      requires Valid() && DrawsIn(draws, |siteList|)
      modifies this`particleList, siteList
      ensures Valid() && ListsOf(siteList) == old(ListsOf(siteList)) && ElecTotals(siteList) == old(ElecTotals(siteList))
      ensures match NextFree(old(OccTable(siteList)), Elec, draws, 0)
        case None => !ok && OccTable(siteList) == old(OccTable(siteList)) && particleList == old(particleList)
        case Some(k) =>
          var occ0 := old(OccTable(siteList));
          ok && OccTable(siteList) == occ0[draws[k] := occ0[draws[k]].Occupy(Elec)] &&
          particleList == old(particleList) + [NewParticle(draws[k], Elec)]
    {
      var found := DrawFreeElectron(draws);
      if found.None? {
        return false;
      }
      AddElectron(draws[found.value]);
      ok := true;
    }

    /** A new electron on site location, flagged there. */
    method AddElectron(location: nat)
      requires Valid() && location < |siteList|
      modifies this`particleList, siteList
      ensures Valid() && ListsOf(siteList) == old(ListsOf(siteList)) && ElecTotals(siteList) == old(ElecTotals(siteList))
      ensures OccTable(siteList) == old(OccTable(siteList))[location := old(OccTable(siteList))[location].Occupy(Elec)]
      ensures particleList == old(particleList) + [NewParticle(location, Elec)]
    {
      particleList := particleList + [NewParticle(location, Elec)];
      MarkAt(siteList, location, Elec);
    }

    /** The redraw loop: the first draw whose site has its electron channel free, if the draws last. */
    method DrawFreeElectron(draws: seq<nat>) returns (r: Option<nat>)
      requires AllValid(siteList) && DrawsIn(draws, |siteList|)
      ensures r == NextFree(OccTable(siteList), Elec, draws, 0)
    {
      var k := 0;
      while k < |draws| && siteList[draws[k]].IsOccupied(Elec)
        invariant k <= |draws|
        invariant NextFree(OccTable(siteList), Elec, draws, k) == NextFree(OccTable(siteList), Elec, draws, 0)
        decreases |draws| - k
      {
        k := k + 1;
      }
      r := if k < |draws| then Some(k) else None;
    }

    /** The first loop of a step: the sum, over the particles, of the electron total out-rate of their sites. */
    method TotalRate() returns (total: real)
      requires Valid()
      ensures total == Sum(RatesOf(particleList, ElecTotals(siteList)))
    {
      ghost var rates := RatesOf(particleList, ElecTotals(siteList));
      total := 0.0;
      var k := 0;
      while k < |particleList|
        invariant 0 <= k <= |particleList|
        invariant total == Sum(rates[..k])
      {
        assert rates[..k + 1][..k] == rates[..k];
        total := total + siteList[particleList[k].location].GetTotalOutRate(Elec);
        k := k + 1;
      }
      assert rates[..k] == rates;
    }

    /**
     * findAndExecuteNextEvent: sum the particles' out-rates, advance the
     * clock by dt (the waiting time drawn for that total), then move the
     * first particle whose running out-rate reaches u times the total; the
     * neighbour lists, rates and totals do not change. The summed rate is
     * returned so that a caller can see what dt was drawn for.
     */
    method FindAndExecuteNextEvent(dt: real, u: real, uHop: real) returns (total: real)
      requires Valid() && HopsIn(nextHop, |siteList|)
      modifies this`particleList, this`totalTime, siteList
      ensures Valid() && ListsOf(siteList) == old(ListsOf(siteList)) && ElecTotals(siteList) == old(ElecTotals(siteList))
      ensures total == Sum(RatesOf(old(particleList), old(ElecTotals(siteList))))
      ensures State() == Move(old(State()).(time := old(totalTime) + dt), old(ElecTotals(siteList)), total * u, uHop, nextHop, disp)
    {
      ghost var l0 := State();
      ghost var totals := ElecTotals(siteList);
      total := TotalRate();
      AdvanceClock(dt);
      ghost var l1 := State();
      ScanAndHop(total * u, uHop, l1, totals);
    }

    /** The clock advances by the drawn waiting time; nothing else changes. */
    method AdvanceClock(dt: real)
      requires Valid()
      modifies this`totalTime
      ensures Valid() && State() == old(State()).(time := old(State()).time + dt)
      ensures ListsOf(siteList) == old(ListsOf(siteList)) && ElecTotals(siteList) == old(ElecTotals(siteList))
    {
      totalTime := totalTime + dt;
    }

    /** The second loop of a step: the running sum, stopping at the first particle whose sum reaches select, which hops. */
    method ScanAndHop(select: real, uHop: real, ghost l: Lattice, ghost totals: seq<real>)
      requires Mirrors(l) && HopsIn(nextHop, |siteList|) && totals == ElecTotals(siteList)
      modifies this`particleList, siteList
      ensures Valid() && ListsOf(siteList) == old(ListsOf(siteList)) && ElecTotals(siteList) == totals
      ensures State() == Move(l, totals, select, uHop, nextHop, disp)
    {
      ghost var rates := RatesOf(l.parts, totals);
      var cum := 0.0;
      var k := 0;
      while k < |particleList|
        invariant 0 <= k <= |particleList| && Mirrors(l)
        invariant ListsOf(siteList) == old(ListsOf(siteList)) && ElecTotals(siteList) == totals
        invariant cum == Sum(rates[..k])
        invariant FirstAtLeast(rates, select, k) == FirstAtLeast(rates, select, 0)
      {
        assert rates[..k + 1][..k] == rates[..k];
        cum := cum + siteList[particleList[k].location].GetTotalOutRate(Elec);
        if cum >= select {
          HopParticle(k, uHop, l);
          return;
        }
        k := k + 1;
      }
    }

    /** Particle k hops: it jumps to its next site, its old site is freed and its new site flagged, for its type. */
    method HopParticle(k: nat, uHop: real, ghost l: Lattice)
      requires Mirrors(l) && HopsIn(nextHop, |siteList|) && k < |particleList|
      modifies this`particleList, siteList
      ensures Valid() && ListsOf(siteList) == old(ListsOf(siteList)) && ElecTotals(siteList) == old(ElecTotals(siteList))
      ensures var from := l.parts[k].location;
        State() == Hop(l, k, nextHop(from, uHop, l.parts[k].ptype), disp(from, nextHop(from, uHop, l.parts[k].ptype)))
    {
      var part := particleList[k];
      var oldLocation := part.location;
      var newLocation := nextHop(oldLocation, uHop, part.ptype);
      particleList := particleList[k := JumpTo(part, newLocation, disp(oldLocation, newLocation))];
      ClearAt(siteList, oldLocation, part.ptype);
      MarkAt(siteList, newLocation, part.ptype);
    }
  }
}
