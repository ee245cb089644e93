/**
 * The state the engine of src/KmcRun.cpp works on, as a value, and the event
 * enumeration of KmcRun::computeNextEventRates written as a function of it:
 * for every living particle, in index order, the events its type allows,
 * found by scanning the short- or long-range neighbours of its site.
 */
module Engine {
  import opened KmcTypes
  import opened Cumulative
  import opened Sites
  import opened EventList
  import opened Particles

  /**
   * The rate laws of the rate engine, as functions of the indices of the two
   * sites involved (their energies and coordinates never change).
   */
  datatype RateEngine = RateEngine(
    millerAbrahams: (nat, nat, PType) -> real,
    millerAbrahamsGEN: (nat, nat, PType) -> real,
    forster: (nat, nat) -> real,
    decay: PType -> real,
    millerAbrahamsCT: (nat, nat, PType) -> real,
    millerAbrahamsCTDis: (nat, nat, PType) -> real)

  ghost predicate NonNegativeRates(re: RateEngine)
  {
    (forall a, b, t :: re.millerAbrahams(a, b, t) >= 0.0) &&
    (forall a, b, t :: re.millerAbrahamsGEN(a, b, t) >= 0.0) &&
    (forall a, b :: re.forster(a, b) >= 0.0) &&
    (forall t :: re.decay(t) >= 0.0) &&
    (forall a, b, t :: re.millerAbrahamsCT(a, b, t) >= 0.0) &&
    (forall a, b, t :: re.millerAbrahamsCTDis(a, b, t) >= 0.0)
  }

  /** Occupancy and neighbour lists of every site, the particle list and the simulated time. */
  datatype World = World(
    occ: seq<Slot>,
    sr: seq<seq<nat>>,
    lr: seq<seq<nat>>,
    parts: seq<Particle>,
    time: real)

  /** Every neighbour id and every particle's sites index the site list. */
  ghost predicate WellFormed(w: World)
  {
    |w.sr| == |w.occ| && |w.lr| == |w.occ| &&
    (forall s :: 0 <= s < |w.occ| ==> w.occ[s].Valid()) &&
    (forall s, k :: 0 <= s < |w.sr| && 0 <= k < |w.sr[s]| ==> w.sr[s][k] < |w.occ|) &&
    (forall s, k :: 0 <= s < |w.lr| && 0 <= k < |w.lr[s]| ==> w.lr[s][k] < |w.occ|) &&
    (forall k :: 0 <= k < |w.parts| ==> w.parts[k].location < |w.occ| && w.parts[k].locationCTelec < |w.occ|)
  }

  /** Every particle recorded on an occupied channel has an index below m. */
  ghost predicate OccupantsBelow(occ: seq<Slot>, m: nat)
  {
    forall s, c :: 0 <= s < |occ| && 0 <= c < |occ[s].occupied| && c < |occ[s].occupant| && occ[s].occupied[c] ==>
      occ[s].occupant[c] < m
  }

  /** The particle recorded on an occupied channel is an index of the particle list. */
  ghost predicate OccupantsInRange(w: World)
  {
    OccupantsBelow(w.occ, |w.parts|)
  }

  ghost predicate Consistent(w: World)
  {
    WellFormed(w) && OccupantsInRange(w)
  }

  ghost predicate SitesIn(w: World, nbs: seq<nat>)
  {
    forall k :: 0 <= k < |nbs| ==> nbs[k] < |w.occ|
  }

  /** The neighbour loops of the enumeration. */
  datatype Scan = ElecHop | HoleHop | SingForster | SingToCT | TripHop | TripToCT | CTdisHole | CTdisElec

  /**
   * The events one neighbour nb, whose occupancy is s, gives particle i in
   * the loop `scan`; rates are taken from site `from` toward nb.
   */
  function NbEvents(s: Slot, re: RateEngine, i: nat, from: nat, scan: Scan, nb: nat): (r: seq<Event>)
    requires s.Valid()
    ensures |r| <= 2
    ensures forall e :: e in r ==> e.part == i && e.loc == nb
  {
    match scan
    case ElecHop =>
      if s.IsOccupied(Elec) || s.IsOccupied(CT) || s.IsOccupied(Sing) || s.IsOccupied(Trip) then []
      else if s.IsOccupied(Hole) then [Event(re.millerAbrahamsGEN(from, nb, Elec), ExcitonFromElec, i, nb)]
      else [Event(re.millerAbrahams(from, nb, Elec), NormalHop, i, nb)]
    case HoleHop =>
      if s.IsOccupied(Hole) || s.IsOccupied(CT) || s.IsOccupied(Sing) || s.IsOccupied(Trip) then []
      else if s.IsOccupied(Elec) then [Event(re.millerAbrahamsGEN(from, nb, Hole), ExcitonFromHole, i, nb)]
      else [Event(re.millerAbrahams(from, nb, Hole), NormalHop, i, nb)]
    case SingForster =>
      if s.IsVacant() then [Event(re.forster(from, nb), NormalHop, i, nb)] else []
    case SingToCT =>
      if s.IsVacant() then
        [Event(re.millerAbrahamsCT(from, nb, Elec), SingToCTViaElec, i, nb),
         Event(re.millerAbrahamsCT(from, nb, Hole), SingToCTViaHole, i, nb)]
      else []
    case TripHop =>
      if s.IsVacant() then [Event(re.millerAbrahams(from, nb, Trip), NormalHop, i, nb)] else []
    case TripToCT =>
      if s.IsVacant() then
        [Event(re.millerAbrahamsCT(from, nb, Elec), TripToCTViaElec, i, nb),
         Event(re.millerAbrahamsCT(from, nb, Hole), TripToCTViaHole, i, nb)]
      else []
    case CTdisHole =>
      if s.IsVacant() then [Event(re.millerAbrahamsCTDis(from, nb, Hole), CTdisViaHole, i, nb)] else []
    case CTdisElec =>
      if s.IsVacant() then [Event(re.millerAbrahamsCTDis(from, nb, Elec), CTdisViaElec, i, nb)] else []
  }

  /** The events of one neighbour loop over nbs, in list order. */
  function ScanEvents(w: World, re: RateEngine, i: nat, from: nat, scan: Scan, nbs: seq<nat>): (r: seq<Event>)
    requires WellFormed(w) && SitesIn(w, nbs)
    ensures forall e :: e in r ==> e.part == i
  {
    if |nbs| == 0 then []
    else
      var q := nbs[..|nbs| - 1];
      assert SitesIn(w, q) by {
        forall k | 0 <= k < |q| ensures q[k] < |w.occ| { assert q[k] == nbs[k]; }
      }
      ScanEvents(w, re, i, from, scan, q) + NbEvents(w.occ[nbs[|nbs| - 1]], re, i, from, scan, nbs[|nbs| - 1])
  }

  function ChargeScan(t: PType): Scan
  {
    if t == Elec then ElecHop else HoleHop
  }

  function HopScan(t: PType): Scan
  {
    if t == Sing then SingForster else TripHop
  }

  function CTScan(t: PType): Scan
  {
    if t == Sing then SingToCT else TripToCT
  }

  /** The neighbour list an exciton hops over: long range for a singlet (Förster), short range for a triplet. */
  function HopList(w: World, t: PType, loc: nat): (r: seq<nat>)
    requires WellFormed(w) && loc < |w.occ|
    ensures SitesIn(w, r)
  {
    if t == Sing then w.lr[loc] else w.sr[loc]
  }

  /** The events of a singlet or triplet t on site loc: hops, one decay, then CT formation. */
  function ExcitonParticleEvents(w: World, re: RateEngine, i: nat, t: PType, loc: nat): (r: seq<Event>)
    requires WellFormed(w) && loc < |w.occ|
    ensures forall e :: e in r ==> e.part == i
    ensures Event(re.decay(t), Decay, i, i) in r
  {
    ScanEvents(w, re, i, loc, HopScan(t), HopList(w, t, loc)) + [Event(re.decay(t), Decay, i, i)] +
    ScanEvents(w, re, i, loc, CTScan(t), w.sr[loc])
  }

  /** The events of a CT state with its hole on loc and its electron on el: recombination, then dissociation. */
  function CTParticleEvents(w: World, re: RateEngine, i: nat, loc: nat, el: nat): (r: seq<Event>)
    requires WellFormed(w) && loc < |w.occ| && el < |w.occ|
    ensures forall e :: e in r ==> e.part == i
    ensures |r| >= 2 && r[0].kind == ExcitonFromElecCT && r[1].kind == ExcitonFromHoleCT
  {
    [Event(re.millerAbrahamsGEN(el, loc, Elec), ExcitonFromElecCT, i, loc),
     Event(re.millerAbrahamsGEN(loc, el, Hole), ExcitonFromHoleCT, i, el)] +
    ScanEvents(w, re, i, loc, CTdisHole, w.sr[loc]) + ScanEvents(w, re, i, loc, CTdisElec, w.sr[el])
  }

  /** The events of particle i, in push order. */
  function ParticleEvents(w: World, re: RateEngine, i: nat): (r: seq<Event>)
    requires WellFormed(w) && i < |w.parts|
    ensures forall e :: e in r ==> e.part == i
  {
    var p := w.parts[i];
    var loc := p.location;
    match p.ptype
    case Elec => ScanEvents(w, re, i, loc, ChargeScan(Elec), w.sr[loc])
    case Hole => ScanEvents(w, re, i, loc, ChargeScan(Hole), w.sr[loc])
    case Sing => ExcitonParticleEvents(w, re, i, Sing, loc)
    case Trip => ExcitonParticleEvents(w, re, i, Trip, loc)
    case CT => CTParticleEvents(w, re, i, loc, p.locationCTelec)
  }

  /** The events of the first n particles, skipping the dead ones. */
  function EnumUpTo(w: World, re: RateEngine, n: nat): (r: seq<Event>)
    requires WellFormed(w) && n <= |w.parts|
    ensures forall k :: 0 <= k < |r| ==> r[k].part < n
  {
    if n == 0 then []
    else EnumUpTo(w, re, n - 1) + (if w.parts[n - 1].alive then ParticleEvents(w, re, n - 1) else [])
  }

  /** What particle i adds to the list: its events while alive, nothing once dead. */
  function Piece(w: World, re: RateEngine, i: nat): seq<Event>
    requires WellFormed(w) && i < |w.parts|
  {
    if w.parts[i].alive then ParticleEvents(w, re, i) else []
  }

  /** The pieces of the first n particles, one per particle. */
  function Pieces(w: World, re: RateEngine, n: nat): (r: seq<seq<Event>>)
    requires WellFormed(w) && n <= |w.parts|
    ensures |r| == n && forall i :: 0 <= i < n ==> r[i] == Piece(w, re, i)
  {
    if n == 0 then [] else Pieces(w, re, n - 1) + [Piece(w, re, n - 1)]
  }

  /** The concatenation of a list of event lists, in order. */
  function Flatten(cs: seq<seq<Event>>): seq<Event>
  {
    if |cs| == 0 then [] else Flatten(cs[..|cs| - 1]) + cs[|cs| - 1]
  }

  /** The event list computeNextEventRates builds from a reset list. */
  function Enumerate(w: World, re: RateEngine): (r: seq<Event>)
    requires WellFormed(w)
    ensures forall k :: 0 <= k < |r| ==> r[k].part < |w.parts|
  {
    EnumUpTo(w, re, |w.parts|)
  }

  function CountKind(evs: seq<Event>, k: Transition): nat
  {
    if |evs| == 0 then 0
    else CountKind(evs[..|evs| - 1], k) + (if evs[|evs| - 1].kind == k then 1 else 0)
  }

  /** The events of a neighbour loop stopped after its first k neighbours. */
  function ScanPrefix(w: World, re: RateEngine, i: nat, from: nat, scan: Scan, nbs: seq<nat>, k: nat): seq<Event>
    requires WellFormed(w) && SitesIn(w, nbs) && k <= |nbs|
  {
    assert SitesIn(w, nbs[..k]) by {
      forall j | 0 <= j < k ensures nbs[..k][j] < |w.occ| { assert nbs[..k][j] == nbs[j]; }
    }
    ScanEvents(w, re, i, from, scan, nbs[..k])
  }

  /**
   * One more neighbour: the loop's events grow by that neighbour's events,
   * whose rates are nonnegative; after the last one they are the whole loop's.
   */
  lemma {:induction false} ScanPrefixStep(before: seq<Event>, w: World, re: RateEngine, i: nat, from: nat,
                                          scan: Scan, nbs: seq<nat>, k: nat)
    requires WellFormed(w) && SitesIn(w, nbs) && k < |nbs| && NonNegativeRates(re)
    ensures before + ScanPrefix(w, re, i, from, scan, nbs, k) + NbEvents(w.occ[nbs[k]], re, i, from, scan, nbs[k]) ==
      before + ScanPrefix(w, re, i, from, scan, nbs, k + 1)
    ensures AllNonNegative(NbEvents(w.occ[nbs[k]], re, i, from, scan, nbs[k]))
  {
    assert nbs[..k + 1][..k] == nbs[..k];
    assert nbs[..k + 1][k] == nbs[k];
    NbNonNegative(w.occ[nbs[k]], re, i, from, scan, nbs[k]);
  }

  lemma {:induction false} ScanPrefixWhole(w: World, re: RateEngine, i: nat, from: nat, scan: Scan, nbs: seq<nat>)
    requires WellFormed(w) && SitesIn(w, nbs)
    ensures ScanPrefix(w, re, i, from, scan, nbs, |nbs|) == ScanEvents(w, re, i, from, scan, nbs)
  {
    assert nbs[..|nbs|] == nbs;
  }

  /** Number of entries of nbs whose site is free in all five channels. */
  function VacantCount(w: World, nbs: seq<nat>): nat
    requires WellFormed(w) && SitesIn(w, nbs)
  {
    if |nbs| == 0 then 0
    else
      var q := nbs[..|nbs| - 1];
      assert SitesIn(w, q) by {
        forall k | 0 <= k < |q| ensures q[k] < |w.occ| { assert q[k] == nbs[k]; }
      }
      VacantCount(w, q) + (if w.occ[nbs[|nbs| - 1]].IsVacant() then 1 else 0)
  }

  /** The kinds of event a loop over vacant neighbours yields. */
  function Produces(scan: Scan): set<Transition>
  {
    match scan
    case ElecHop => {NormalHop, ExcitonFromElec}
    case HoleHop => {NormalHop, ExcitonFromHole}
    case SingForster => {NormalHop}
    case SingToCT => {SingToCTViaElec, SingToCTViaHole}
    case TripHop => {NormalHop}
    case TripToCT => {TripToCTViaElec, TripToCTViaHole}
    case CTdisHole => {CTdisViaHole}
    case CTdisElec => {CTdisViaElec}
  }

  // ---------------------------------------------------------------------
  // Structure of the enumeration

  lemma {:induction false} CountAppend(a: seq<Event>, b: seq<Event>, k: Transition)
    ensures CountKind(a + b, k) == CountKind(a, k) + CountKind(b, k)
    decreases |b|
  {
    if |b| > 0 {
      assert (a + b)[..|a + b| - 1] == a + b[..|b| - 1];
      CountAppend(a, b[..|b| - 1], k);
    } else {
      assert a + b == a;
    }
  }

  /** An event comes out of a neighbour loop exactly when some neighbour of the list yields it. */
  lemma {:induction false} ScanMember(w: World, re: RateEngine, i: nat, from: nat, scan: Scan, nbs: seq<nat>, e: Event)
    requires WellFormed(w) && SitesIn(w, nbs)
    ensures e in ScanEvents(w, re, i, from, scan, nbs) <==>
      exists j :: 0 <= j < |nbs| && e in NbEvents(w.occ[nbs[j]], re, i, from, scan, nbs[j])
  {
    if |nbs| > 0 {
      var q := nbs[..|nbs| - 1];
      assert SitesIn(w, q) by {
        forall k | 0 <= k < |q| ensures q[k] < |w.occ| { assert q[k] == nbs[k]; }
      }
      var front := ScanEvents(w, re, i, from, scan, q);
      var last := NbEvents(w.occ[nbs[|nbs| - 1]], re, i, from, scan, nbs[|nbs| - 1]);
      assert ScanEvents(w, re, i, from, scan, nbs) == front + last;
      ScanMember(w, re, i, from, scan, q, e);
      if e in front {
        var j :| 0 <= j < |q| && e in NbEvents(w.occ[q[j]], re, i, from, scan, q[j]);
        assert nbs[j] == q[j];
      }
      if exists j :: 0 <= j < |nbs| && e in NbEvents(w.occ[nbs[j]], re, i, from, scan, nbs[j]) {
        var j :| 0 <= j < |nbs| && e in NbEvents(w.occ[nbs[j]], re, i, from, scan, nbs[j]);
        if j < |q| {
          assert q[j] == nbs[j];
          assert e in front;
        } else {
          assert e in last;
        }
      }
    }
  }

  /** A loop over vacant-only neighbours yields each of its kinds once per vacant neighbour and nothing else. */
  lemma {:induction false} ScanCount(w: World, re: RateEngine, i: nat, from: nat, scan: Scan, nbs: seq<nat>, k: Transition)
    requires WellFormed(w) && SitesIn(w, nbs) && scan != ElecHop && scan != HoleHop
    ensures CountKind(ScanEvents(w, re, i, from, scan, nbs), k) == if k in Produces(scan) then VacantCount(w, nbs) else 0
  {
    if |nbs| > 0 {
      var q := nbs[..|nbs| - 1];
      assert SitesIn(w, q) by {
        forall j | 0 <= j < |q| ensures q[j] < |w.occ| { assert q[j] == nbs[j]; }
      }
      ScanCount(w, re, i, from, scan, q, k);
      var nb := nbs[|nbs| - 1];
      var last := NbEvents(w.occ[nb], re, i, from, scan, nb);
      CountAppend(ScanEvents(w, re, i, from, scan, q), last, k);
      NbCount(w.occ[nb], re, i, from, scan, nb, k);
    }
  }

  lemma {:induction false} NbCount(s: Slot, re: RateEngine, i: nat, from: nat, scan: Scan, nb: nat, k: Transition)
    requires s.Valid() && scan != ElecHop && scan != HoleHop
    ensures CountKind(NbEvents(s, re, i, from, scan, nb), k) == if k in Produces(scan) && s.IsVacant() then 1 else 0
  {
    var r := NbEvents(s, re, i, from, scan, nb);
    if |r| == 2 {
      assert r[..1][..0] == [];
      assert CountKind(r, k) == CountKind(r[..1], k) + (if r[1].kind == k then 1 else 0);
      assert CountKind(r[..1], k) == (if r[0].kind == k then 1 else 0);
    } else if |r| == 1 {
      assert r[..0] == [];
      assert CountKind(r, k) == (if r[0].kind == k then 1 else 0);
    }
  }

  /** An event of a flattened list comes from one of its parts. */
  lemma {:induction false} FlattenOwner(cs: seq<seq<Event>>, e: Event) returns (i: nat)
    requires e in Flatten(cs)
    ensures i < |cs| && e in cs[i]
  {
    var q := cs[..|cs| - 1];
    assert Flatten(cs) == Flatten(q) + cs[|cs| - 1];
    if e in Flatten(q) {
      i := FlattenOwner(q, e);
      assert cs[i] == q[i];
    } else {
      i := |cs| - 1;
    }
  }

  /** Every event of a part is in the flattened list. */
  lemma {:induction false} FlattenHas(cs: seq<seq<Event>>, i: nat, e: Event)
    requires i < |cs| && e in cs[i]
    ensures e in Flatten(cs)
  {
    var q := cs[..|cs| - 1];
    assert Flatten(cs) == Flatten(q) + cs[|cs| - 1];
    if i < |q| {
      assert cs[i] == q[i];
      FlattenHas(q, i, e);
    }
  }

  /** The enumeration is the flattening of the particles' pieces. */
  lemma {:induction false} EnumFlatten(w: World, re: RateEngine, n: nat)
    requires WellFormed(w) && n <= |w.parts|
    ensures EnumUpTo(w, re, n) == Flatten(Pieces(w, re, n))
  {
    if n > 0 {
      EnumFlatten(w, re, n - 1);
      assert Pieces(w, re, n)[..n - 1] == Pieces(w, re, n - 1);
    }
  }

  /** An event is enumerated exactly when it is one of the events of a living particle. */
  lemma EnumMember(w: World, re: RateEngine, n: nat, e: Event)
    requires WellFormed(w) && n <= |w.parts|
    ensures e in EnumUpTo(w, re, n) ==> exists i :: 0 <= i < n && w.parts[i].alive && e in ParticleEvents(w, re, i)
    ensures (exists i :: 0 <= i < n && w.parts[i].alive && e in ParticleEvents(w, re, i)) ==> e in EnumUpTo(w, re, n)
  {
    var cs := Pieces(w, re, n);
    EnumFlatten(w, re, n);
    if e in EnumUpTo(w, re, n) {
      var i := FlattenOwner(cs, e);
      assert cs[i] == Piece(w, re, i);
      assert w.parts[i].alive && e in ParticleEvents(w, re, i);
    }
    if exists i :: 0 <= i < n && w.parts[i].alive && e in ParticleEvents(w, re, i) {
      var i :| 0 <= i < n && w.parts[i].alive && e in ParticleEvents(w, re, i);
      assert cs[i] == Piece(w, re, i);
      FlattenHas(cs, i, e);
    }
  }

  /** Enumerated events concern living particles only and are tagged with their particle's index. */
  lemma {:induction false} EnumerateTags(w: World, re: RateEngine, e: Event)
    requires WellFormed(w) && e in Enumerate(w, re)
    ensures e.part < |w.parts| && w.parts[e.part].alive
    ensures e in ParticleEvents(w, re, e.part)
  {
    EnumMember(w, re, |w.parts|, e);
    var i :| 0 <= i < |w.parts| && w.parts[i].alive && e in ParticleEvents(w, re, i);
  }

  // ---------------------------------------------------------------------
  // What each particle type may do

  function Opposite(t: PType): PType
  {
    if t == Elec then Hole else Elec
  }

  function ExcitonFrom(t: PType): Transition
  {
    if t == Elec then ExcitonFromElec else ExcitonFromHole
  }

  function ToCTViaElec(t: PType): Transition
  {
    if t == Sing then SingToCTViaElec else TripToCTViaElec
  }

  function ToCTViaHole(t: PType): Transition
  {
    if t == Sing then SingToCTViaHole else TripToCTViaHole
  }

  function HopRate(re: RateEngine, t: PType, from: nat, to: nat): real
  {
    if t == Sing then re.forster(from, to) else re.millerAbrahams(from, to, Trip)
  }

  lemma {:induction false} InList(w: World, nbs: seq<nat>, x: nat)
    requires SitesIn(w, nbs) && x in nbs
    ensures x < |w.occ| && exists j :: 0 <= j < |nbs| && nbs[j] == x
  {
  }

  /**
   * An electron (a hole) gets, for each short-range neighbour holding no
   * electron (hole), CT, singlet or triplet, one event: exciton formation when
   * the neighbour holds the opposite carrier, a normal hop otherwise; nothing else.
   */
  lemma {:induction false} ChargeEvents(w: World, re: RateEngine, i: nat, e: Event)
    requires WellFormed(w) && i < |w.parts| && w.parts[i].ptype in {Elec, Hole}
    ensures e in ParticleEvents(w, re, i) <==>
      var t := w.parts[i].ptype;
      var loc := w.parts[i].location;
      e.part == i && e.loc < |w.occ| && e.loc in w.sr[loc] &&
      !w.occ[e.loc].IsOccupied(t) && !w.occ[e.loc].IsOccupied(CT) &&
      !w.occ[e.loc].IsOccupied(Sing) && !w.occ[e.loc].IsOccupied(Trip) &&
      e == (if w.occ[e.loc].IsOccupied(Opposite(t))
            then Event(re.millerAbrahamsGEN(loc, e.loc, t), ExcitonFrom(t), i, e.loc)
            else Event(re.millerAbrahams(loc, e.loc, t), NormalHop, i, e.loc))
  {
    var t := w.parts[i].ptype;
    var loc := w.parts[i].location;
    var nbs := w.sr[loc];
    assert ParticleEvents(w, re, i) == ScanEvents(w, re, i, loc, ChargeScan(t), nbs);
    ScanMember(w, re, i, loc, ChargeScan(t), nbs, e);
    if e.loc in nbs {
      InList(w, nbs, e.loc);
      var j :| 0 <= j < |nbs| && nbs[j] == e.loc;
    }
  }

  /**
   * A singlet (a triplet) gets one hop per long-range (short-range) neighbour
   * free in all five channels, exactly one decay, and two CT events, via the
   * electron and via the hole, per vacant short-range neighbour; nothing else.
   */
  lemma {:induction false} ExcitonEvents(w: World, re: RateEngine, i: nat, e: Event)
    requires WellFormed(w) && i < |w.parts| && w.parts[i].ptype in {Sing, Trip}
    ensures e in ParticleEvents(w, re, i) <==>
      var t := w.parts[i].ptype;
      var loc := w.parts[i].location;
      e == Event(re.decay(t), Decay, i, i) ||
      (e.part == i && e.loc < |w.occ| && w.occ[e.loc].IsVacant() &&
       ((e.loc in HopList(w, t, loc) && e == Event(HopRate(re, t, loc, e.loc), NormalHop, i, e.loc)) ||
        (e.loc in w.sr[loc] &&
         (e == Event(re.millerAbrahamsCT(loc, e.loc, Elec), ToCTViaElec(t), i, e.loc) ||
          e == Event(re.millerAbrahamsCT(loc, e.loc, Hole), ToCTViaHole(t), i, e.loc)))))
  {
    var t := w.parts[i].ptype;
    var loc := w.parts[i].location;
    assert ParticleEvents(w, re, i) == ExcitonParticleEvents(w, re, i, t, loc);
    ExcitonMember(w, re, i, t, loc, e);
  }

  lemma {:induction false} ExcitonMember(w: World, re: RateEngine, i: nat, t: PType, loc: nat, e: Event)
    requires WellFormed(w) && loc < |w.occ| && t in {Sing, Trip}
    ensures e in ExcitonParticleEvents(w, re, i, t, loc) <==>
      e == Event(re.decay(t), Decay, i, i) ||
      (e.part == i && e.loc < |w.occ| && w.occ[e.loc].IsVacant() &&
       ((e.loc in HopList(w, t, loc) && e == Event(HopRate(re, t, loc, e.loc), NormalHop, i, e.loc)) ||
        (e.loc in w.sr[loc] &&
         (e == Event(re.millerAbrahamsCT(loc, e.loc, Elec), ToCTViaElec(t), i, e.loc) ||
          e == Event(re.millerAbrahamsCT(loc, e.loc, Hole), ToCTViaHole(t), i, e.loc)))))
  {
    var a := ScanEvents(w, re, i, loc, HopScan(t), HopList(w, t, loc));
    var b := ScanEvents(w, re, i, loc, CTScan(t), w.sr[loc]);
    assert e in ExcitonParticleEvents(w, re, i, t, loc) <==> e in a || e == Event(re.decay(t), Decay, i, i) || e in b;
    HopMember(w, re, i, t, loc, e);
    ToCTMember(w, re, i, t, loc, e);
  }

  lemma {:induction false} ToCTMember(w: World, re: RateEngine, i: nat, t: PType, loc: nat, e: Event)
    requires WellFormed(w) && loc < |w.occ| && t in {Sing, Trip}
    ensures e in ScanEvents(w, re, i, loc, CTScan(t), w.sr[loc]) <==>
      e.part == i && e.loc < |w.occ| && w.occ[e.loc].IsVacant() && e.loc in w.sr[loc] &&
      (e == Event(re.millerAbrahamsCT(loc, e.loc, Elec), ToCTViaElec(t), i, e.loc) ||
       e == Event(re.millerAbrahamsCT(loc, e.loc, Hole), ToCTViaHole(t), i, e.loc))
  {
    var nbs := w.sr[loc];
    ScanMember(w, re, i, loc, CTScan(t), nbs, e);
    if e.loc in nbs {
      InList(w, nbs, e.loc);
      var j :| 0 <= j < |nbs| && nbs[j] == e.loc;
    }
  }

  lemma {:induction false} HopMember(w: World, re: RateEngine, i: nat, t: PType, loc: nat, e: Event)
    requires WellFormed(w) && loc < |w.occ| && t in {Sing, Trip}
    ensures e in ScanEvents(w, re, i, loc, HopScan(t), HopList(w, t, loc)) <==>
      e.part == i && e.loc < |w.occ| && w.occ[e.loc].IsVacant() &&
      e.loc in HopList(w, t, loc) && e == Event(HopRate(re, t, loc, e.loc), NormalHop, i, e.loc)
  {
    var hops := HopList(w, t, loc);
    ScanMember(w, re, i, loc, HopScan(t), hops, e);
    if e.loc in hops {
      InList(w, hops, e.loc);
      var j :| 0 <= j < |hops| && hops[j] == e.loc;
    }
  }

  lemma {:induction false} Count3(a: seq<Event>, b: seq<Event>, c: seq<Event>, k: Transition)
    ensures CountKind(a + b + c, k) == CountKind(a, k) + CountKind(b, k) + CountKind(c, k)
  {
    CountAppend(a + b, c, k);
    CountAppend(a, b, k);
  }

  lemma {:induction false} ExcitonKindCount(w: World, re: RateEngine, i: nat, t: PType, loc: nat, k: Transition)
    requires WellFormed(w) && loc < |w.occ| && t in {Sing, Trip}
    ensures CountKind(ExcitonParticleEvents(w, re, i, t, loc), k) ==
      (if k == Decay then 1 else 0) +
      (if k in Produces(HopScan(t)) then VacantCount(w, HopList(w, t, loc)) else 0) +
      (if k in Produces(CTScan(t)) then VacantCount(w, w.sr[loc]) else 0)
  {
    var a := ScanEvents(w, re, i, loc, HopScan(t), HopList(w, t, loc));
    var d := [Event(re.decay(t), Decay, i, i)];
    var b := ScanEvents(w, re, i, loc, CTScan(t), w.sr[loc]);
    Count3(a, d, b, k);
    assert d[..0] == [];
    ScanCount(w, re, i, loc, HopScan(t), HopList(w, t, loc), k);
    ScanCount(w, re, i, loc, CTScan(t), w.sr[loc], k);
  }

  /**
   * Counted by kind, a singlet or triplet has exactly one decay, as many hops
   * as vacant neighbours in its hop list, and as many CT events via the
   * electron, and via the hole, as vacant short-range neighbours.
   */
  lemma {:induction false} ExcitonCounts(w: World, re: RateEngine, i: nat)
    requires WellFormed(w) && i < |w.parts| && w.parts[i].ptype in {Sing, Trip}
    ensures var t := w.parts[i].ptype;
      var loc := w.parts[i].location;
      var evs := ParticleEvents(w, re, i);
      CountKind(evs, Decay) == 1 &&
      CountKind(evs, NormalHop) == VacantCount(w, HopList(w, t, loc)) &&
      CountKind(evs, ToCTViaElec(t)) == VacantCount(w, w.sr[loc]) &&
      CountKind(evs, ToCTViaHole(t)) == VacantCount(w, w.sr[loc])
  {
    var t := w.parts[i].ptype;
    var loc := w.parts[i].location;
    assert ParticleEvents(w, re, i) == ExcitonParticleEvents(w, re, i, t, loc);
    ExcitonCountsAt(w, re, i, t, loc);
  }

  lemma {:induction false} ExcitonCountsAt(w: World, re: RateEngine, i: nat, t: PType, loc: nat)
    requires WellFormed(w) && loc < |w.occ| && t in {Sing, Trip}
    ensures var evs := ExcitonParticleEvents(w, re, i, t, loc);
      CountKind(evs, Decay) == 1 &&
      CountKind(evs, NormalHop) == VacantCount(w, HopList(w, t, loc)) &&
      CountKind(evs, ToCTViaElec(t)) == VacantCount(w, w.sr[loc]) &&
      CountKind(evs, ToCTViaHole(t)) == VacantCount(w, w.sr[loc])
  {
    assert Produces(HopScan(t)) == {NormalHop};
    assert Produces(CTScan(t)) == {ToCTViaElec(t), ToCTViaHole(t)};
    ExcitonKindCount(w, re, i, t, loc, Decay);
    ExcitonKindCount(w, re, i, t, loc, NormalHop);
    ExcitonKindCount(w, re, i, t, loc, ToCTViaElec(t));
    ExcitonKindCount(w, re, i, t, loc, ToCTViaHole(t));
  }

  lemma {:induction false} CountPair(e1: Event, e2: Event, k: Transition)
    ensures CountKind([e1, e2], k) == (if e1.kind == k then 1 else 0) + (if e2.kind == k then 1 else 0)
  {
    assert [e1, e2][..1] == [e1];
    assert [e1][..0] == [];
    assert CountKind([e1], k) == (if e1.kind == k then 1 else 0);
  }

  lemma {:induction false} CTKindCount(w: World, re: RateEngine, i: nat, loc: nat, el: nat, k: Transition)
    requires WellFormed(w) && loc < |w.occ| && el < |w.occ|
    ensures CountKind(CTParticleEvents(w, re, i, loc, el), k) ==
      (if k == ExcitonFromElecCT || k == ExcitonFromHoleCT then 1 else 0) +
      (if k == CTdisViaHole then VacantCount(w, w.sr[loc]) else 0) +
      (if k == CTdisViaElec then VacantCount(w, w.sr[el]) else 0)
  {
    var d := [Event(re.millerAbrahamsGEN(el, loc, Elec), ExcitonFromElecCT, i, loc),
              Event(re.millerAbrahamsGEN(loc, el, Hole), ExcitonFromHoleCT, i, el)];
    var a := ScanEvents(w, re, i, loc, CTdisHole, w.sr[loc]);
    var b := ScanEvents(w, re, i, loc, CTdisElec, w.sr[el]);
    Count3(d, a, b, k);
    CountPair(d[0], d[1], k);
    ScanCount(w, re, i, loc, CTdisHole, w.sr[loc], k);
    ScanCount(w, re, i, loc, CTdisElec, w.sr[el], k);
  }

  /**
   * A CT state has exactly two recombination events, one toward each of its
   * sites, one dissociation via the hole per vacant short-range neighbour of
   * its hole site and one via the electron per vacant short-range neighbour of
   * its electron site.
   */
  lemma {:induction false} CTCounts(w: World, re: RateEngine, i: nat)
    requires WellFormed(w) && i < |w.parts| && w.parts[i].ptype == CT
    ensures var loc := w.parts[i].location;
      var el := w.parts[i].locationCTelec;
      var evs := ParticleEvents(w, re, i);
      Event(re.millerAbrahamsGEN(el, loc, Elec), ExcitonFromElecCT, i, loc) in evs &&
      Event(re.millerAbrahamsGEN(loc, el, Hole), ExcitonFromHoleCT, i, el) in evs &&
      CountKind(evs, ExcitonFromElecCT) == 1 && CountKind(evs, ExcitonFromHoleCT) == 1 &&
      CountKind(evs, CTdisViaHole) == VacantCount(w, w.sr[loc]) &&
      CountKind(evs, CTdisViaElec) == VacantCount(w, w.sr[el])
  {
    var loc := w.parts[i].location;
    var el := w.parts[i].locationCTelec;
    var evs := CTParticleEvents(w, re, i, loc, el);
    assert ParticleEvents(w, re, i) == evs;
    assert evs[0] == Event(re.millerAbrahamsGEN(el, loc, Elec), ExcitonFromElecCT, i, loc);
    assert evs[1] == Event(re.millerAbrahamsGEN(loc, el, Hole), ExcitonFromHoleCT, i, el);
    CTKindCount(w, re, i, loc, el, ExcitonFromElecCT);
    CTKindCount(w, re, i, loc, el, ExcitonFromHoleCT);
    CTKindCount(w, re, i, loc, el, CTdisViaHole);
    CTKindCount(w, re, i, loc, el, CTdisViaElec);
  }

  ghost predicate AllNonNegative(evs: seq<Event>)
  {
    forall k :: 0 <= k < |evs| ==> evs[k].rate >= 0.0
  }

  lemma {:induction false} NbNonNegative(s: Slot, re: RateEngine, i: nat, from: nat, scan: Scan, nb: nat)
    requires s.Valid() && NonNegativeRates(re)
    ensures AllNonNegative(NbEvents(s, re, i, from, scan, nb))
  {
  }

  lemma {:induction false} ScanNonNegative(w: World, re: RateEngine, i: nat, from: nat, scan: Scan, nbs: seq<nat>)
    requires WellFormed(w) && SitesIn(w, nbs) && NonNegativeRates(re)
    ensures AllNonNegative(ScanEvents(w, re, i, from, scan, nbs))
  {
    if |nbs| > 0 {
      var q := nbs[..|nbs| - 1];
      assert SitesIn(w, q) by {
        forall j | 0 <= j < |q| ensures q[j] < |w.occ| { assert q[j] == nbs[j]; }
      }
      ScanNonNegative(w, re, i, from, scan, q);
      NbNonNegative(w.occ[nbs[|nbs| - 1]], re, i, from, scan, nbs[|nbs| - 1]);
      NonNegativeConcat(ScanEvents(w, re, i, from, scan, q), NbEvents(w.occ[nbs[|nbs| - 1]], re, i, from, scan, nbs[|nbs| - 1]));
    }
  }

  lemma {:induction false} ParticleNonNegative(w: World, re: RateEngine, i: nat)
    requires WellFormed(w) && i < |w.parts| && NonNegativeRates(re)
    ensures AllNonNegative(ParticleEvents(w, re, i))
  {
    var p := w.parts[i];
    var loc := p.location;
    var el := p.locationCTelec;
    match p.ptype {
      case Elec => ScanNonNegative(w, re, i, loc, ElecHop, w.sr[loc]);
      case Hole => ScanNonNegative(w, re, i, loc, HoleHop, w.sr[loc]);
      case Sing => ExcitonNonNegative(w, re, i, Sing, loc);
      case Trip => ExcitonNonNegative(w, re, i, Trip, loc);
      case CT =>
        var a := [Event(re.millerAbrahamsGEN(el, loc, Elec), ExcitonFromElecCT, i, loc),
                  Event(re.millerAbrahamsGEN(loc, el, Hole), ExcitonFromHoleCT, i, el)];
        var b := ScanEvents(w, re, i, loc, CTdisHole, w.sr[loc]);
        var c := ScanEvents(w, re, i, loc, CTdisElec, w.sr[el]);
        ScanNonNegative(w, re, i, loc, CTdisHole, w.sr[loc]);
        ScanNonNegative(w, re, i, loc, CTdisElec, w.sr[el]);
        NonNegativeConcat(a, b);
        NonNegativeConcat(a + b, c);
    }
  }

  lemma {:induction false} ExcitonNonNegative(w: World, re: RateEngine, i: nat, t: PType, loc: nat)
    requires WellFormed(w) && loc < |w.occ| && NonNegativeRates(re)
    ensures AllNonNegative(ExcitonParticleEvents(w, re, i, t, loc))
  {
    var a := ScanEvents(w, re, i, loc, HopScan(t), HopList(w, t, loc));
    var b := [Event(re.decay(t), Decay, i, i)];
    var c := ScanEvents(w, re, i, loc, CTScan(t), w.sr[loc]);
    ScanNonNegative(w, re, i, loc, HopScan(t), HopList(w, t, loc));
    ScanNonNegative(w, re, i, loc, CTScan(t), w.sr[loc]);
    NonNegativeConcat(a, b);
    NonNegativeConcat(a + b, c);
  }

  lemma {:induction false} EnumUpToNonNegative(w: World, re: RateEngine, n: nat)
    requires WellFormed(w) && n <= |w.parts| && NonNegativeRates(re)
    ensures AllNonNegative(EnumUpTo(w, re, n))
  {
    if n > 0 {
      EnumUpToNonNegative(w, re, n - 1);
      if w.parts[n - 1].alive {
        ParticleNonNegative(w, re, n - 1);
        NonNegativeConcat(EnumUpTo(w, re, n - 1), ParticleEvents(w, re, n - 1));
      } else {
        NonNegativeConcat(EnumUpTo(w, re, n - 1), []);
      }
    }
  }

  lemma {:induction false} NonNegativeConcat(a: seq<Event>, b: seq<Event>)
    requires AllNonNegative(a) && AllNonNegative(b)
    ensures AllNonNegative(a + b)
  {
  }

  /** With nonnegative rate laws every enumerated rate is nonnegative. */
  lemma {:induction false} EnumerateNonNegative(w: World, re: RateEngine)
    requires WellFormed(w) && NonNegativeRates(re)
    ensures NonNegative(Rates(Enumerate(w, re)))
  {
    EnumUpToNonNegative(w, re, |w.parts|);
  }

  /** A CT state's events are its two recombinations and dissociations toward sites of the list. */
  lemma {:induction false} CTMember(w: World, re: RateEngine, i: nat, loc: nat, el: nat, e: Event)
    requires WellFormed(w) && loc < |w.occ| && el < |w.occ| && e in CTParticleEvents(w, re, i, loc, el)
    ensures e.kind in {ExcitonFromElecCT, ExcitonFromHoleCT} ||
      (e.kind in {CTdisViaElec, CTdisViaHole} && e.loc < |w.occ|)
  {
    var s0 := [Event(re.millerAbrahamsGEN(el, loc, Elec), ExcitonFromElecCT, i, loc),
               Event(re.millerAbrahamsGEN(loc, el, Hole), ExcitonFromHoleCT, i, el)];
    var s1 := ScanEvents(w, re, i, loc, CTdisHole, w.sr[loc]);
    var s2 := ScanEvents(w, re, i, loc, CTdisElec, w.sr[el]);
    assert e in s0 || e in s1 || e in s2;
    if e in s1 {
      DisMember(w, re, i, loc, CTdisHole, w.sr[loc], e);
    } else if e in s2 {
      DisMember(w, re, i, loc, CTdisElec, w.sr[el], e);
    }
  }

  /** A dissociation loop yields dissociations toward sites of the list only. */
  lemma DisMember(w: World, re: RateEngine, i: nat, from: nat, scan: Scan, nbs: seq<nat>, e: Event)
    requires WellFormed(w) && SitesIn(w, nbs) && (scan == CTdisHole || scan == CTdisElec)
    requires e in ScanEvents(w, re, i, from, scan, nbs)
    ensures e.kind in {CTdisViaElec, CTdisViaHole} && e.loc < |w.occ|
  {
    ScanMember(w, re, i, from, scan, nbs, e);
    var j :| 0 <= j < |nbs| && e in NbEvents(w.occ[nbs[j]], re, i, from, scan, nbs[j]);
    assert e.loc == nbs[j];
  }
}
