/**
 * The kinetic Monte Carlo engine (src/KmcRun.cpp): a list of sites, a list
 * of particles, the simulated time and the event list. Its methods work on
 * the site objects and the particle list in place; each is proved against
 * the value-level description of the engine in the modules Engine,
 * Transitions, PairScan and Placement, through the view State().
 */
module Kmc {
  import opened KmcTypes
  import opened Cumulative
  import opened Sites
  import opened EventList
  import opened Particles
  import opened Engine
  import opened Transitions
  import opened PairScan
  import opened Placement

  class KmcRun {
    var siteList: seq<Site>
    var particleList: seq<Particle>
    var totalTime: real
    const nextEventList: NextEventList
    const re: RateEngine
    /** The periodic-boundary displacement from one site to another, by index. */
    const disp: (nat, nat) -> Vec3
    /** The norm of the periodic-boundary displacement between two coordinates. */
    const distance: (Vec3, Vec3) -> real
    const sRCutOff: real
    const lRCutOff: real

    /** The engine's state as a value. */
    ghost function State(): World
      reads this, siteList
    {
      World(OccTable(siteList), SRTable(siteList), LRTable(siteList), particleList, totalTime)
    }

    ghost predicate Valid()
      reads this, siteList, nextEventList
    {
      SitesValid() && nextEventList.Valid()
    }

    /** The sites are distinct and valid, and hold together with the particles the state w. */
    ghost predicate Mirrors(w: World)
      reads this, siteList
    {
      Distinct(siteList) && AllValid(siteList) && w == State()
    }

    /** The part of Valid() about the sites and particles. */
    ghost predicate SitesValid()
      reads this, siteList
    {
      Distinct(siteList) && AllValid(siteList) && NonNegativeRates(re) && Consistent(State())
    }

    constructor (re: RateEngine, disp: (nat, nat) -> Vec3, distance: (Vec3, Vec3) -> real,
                 sRCutOff: real, lRCutOff: real)
      requires NonNegativeRates(re)
      ensures Valid() && fresh(nextEventList)
      ensures siteList == [] && particleList == [] && totalTime == 0.0
      ensures this.re == re && this.disp == disp && this.distance == distance
      ensures this.sRCutOff == sRCutOff && this.lRCutOff == lRCutOff
    {
      this.re, this.disp, this.distance := re, disp, distance;
      this.sRCutOff, this.lRCutOff := sRCutOff, lRCutOff;
      siteList, particleList, totalTime := [], [], 0.0;
      nextEventList := new NextEventList();
    }

    /**
     * initializeSites: append one new, vacant site per coordinate, with the
     * energies drawn for it. The coordinates and energies are inputs here.
     */
    method InitializeSites(coords: seq<Vec3>, energies: seq<seq<real>>)
      requires Valid() && |energies| == |coords|
      modifies this
      ensures Valid()
      ensures |siteList| == old(|siteList|) + |coords| && siteList[..old(|siteList|)] == old(siteList)
      ensures forall k :: 0 <= k < |coords| ==>
        var s := siteList[old(|siteList|) + k];
        fresh(s) && s.coord == coords[k] && s.energies == energies[k] &&
        s.Occupancy() == Vacant && s.sRNeighbours == [] && s.lRNeighbours == []
      ensures particleList == old(particleList) && totalTime == old(totalTime)
    {
      ghost var w0 := State();
      var added := NewSites(coords, energies, |siteList|);
      siteList := siteList + added;
      assert siteList[..|w0.occ|] == old(siteList);
      forall s | 0 <= s < |w0.occ|
        ensures siteList[s] == old(siteList)[s]
      {
      }
      SitesGrowConsistent(w0, State(), |w0.occ|);
    }

    /** Sites near for the long-range list: within the long-range cutoff. */
    ghost function LRNear(): (r: (nat, nat) -> bool)
      reads this
      ensures forall a: nat, b: nat :: r(a, b) ==> a < |siteList| && b < |siteList|
    {
      var coords := Coords(siteList);
      (a: nat, b: nat) => a < |coords| && b < |coords| && distance(coords[a], coords[b]) <= lRCutOff
    }

    /** Sites near for the short-range list: the short-range test is made only inside the long-range one. */
    ghost function SRNear(): (r: (nat, nat) -> bool)
      reads this
      ensures forall a: nat, b: nat :: r(a, b) ==> LRNear()(a, b)
    {
      var coords := Coords(siteList);
      (a: nat, b: nat) => a < |coords| && b < |coords| &&
        distance(coords[a], coords[b]) <= lRCutOff && distance(coords[a], coords[b]) <= sRCutOff
    }

    /**
     * initializeNeighbours: every pair i < j is scanned once and, when near,
     * each site is appended to the other's list; so site s's lists gain the
     * increasing sequence of the other sites near it.
     */
    method InitializeNeighbours()
      requires Valid()
      modifies siteList
      ensures Valid()
      ensures OccTable(siteList) == old(OccTable(siteList))
      ensures forall s :: 0 <= s < |siteList| ==>
        LRTable(siteList)[s] == old(LRTable(siteList))[s] + NearList(LRNear(), s, |siteList|) &&
        SRTable(siteList)[s] == old(SRTable(siteList))[s] + NearList(SRNear(), s, |siteList|)
    {
      var n := |siteList|;
      ghost var w0 := State();
      var i := 0;
      while i < n
        invariant 0 <= i <= n
        invariant AllValid(siteList) && OccTable(siteList) == w0.occ
        invariant LRTable(siteList) == Rows(w0.lr, LRNear(), i)
        invariant SRTable(siteList) == Rows(w0.sr, SRNear(), i)
      {
        ScanRow(i, w0.occ, w0.lr, w0.sr);
        i := i + 1;
      }
      ScannedConsistent(w0, State(), LRNear(), SRNear());
    }

    /** The inner loop of the pair scan: pairs (i, i+1) .. (i, n-1), which completes row i. */
    method ScanRow(i: nat, ghost occ0: seq<Slot>, ghost lr0: seq<seq<nat>>, ghost sr0: seq<seq<nat>>)
      requires Distinct(siteList) && AllValid(siteList) && i < |siteList| == |lr0| == |sr0|
      requires OccTable(siteList) == occ0
      requires LRTable(siteList) == Rows(lr0, LRNear(), i)
      requires SRTable(siteList) == Rows(sr0, SRNear(), i)
      modifies siteList
      ensures AllValid(siteList) && OccTable(siteList) == occ0
      ensures LRTable(siteList) == Rows(lr0, LRNear(), i + 1)
      ensures SRTable(siteList) == Rows(sr0, SRNear(), i + 1)
    {
      var n := |siteList|;
      var j := i + 1;
      while j < n
        invariant i + 1 <= j <= n
        invariant AllValid(siteList) && OccTable(siteList) == occ0
        invariant LRTable(siteList) == ScanUpTo(lr0, LRNear(), i, j)
        invariant SRTable(siteList) == ScanUpTo(sr0, SRNear(), i, j)
      {
        LinkPair(i, j);
        j := j + 1;
      }
    }

    /** One pair of the scan: link i and j long-range when near, and short-range when also within that cutoff. */
    method LinkPair(i: nat, j: nat)
      requires Distinct(siteList) && AllValid(siteList) && i < j < |siteList|
      modifies siteList[i], siteList[j]
      ensures AllValid(siteList) && OccTable(siteList) == old(OccTable(siteList))
      ensures LRTable(siteList) == Link(old(LRTable(siteList)), i, j, LRNear()(i, j))
      ensures SRTable(siteList) == Link(old(SRTable(siteList)), i, j, SRNear()(i, j))
    {
      var dist := distance(siteList[i].coord, siteList[j].coord);
      if dist <= lRCutOff {
        LinkLRAt(siteList, i, j);
        if dist <= sRCutOff {
          LinkSRAt(siteList, i, j);
        }
      }
    }

    /**
     * initializeParticles: place counts[0] electrons, counts[1] holes,
     * counts[2] triplets and counts[3] singlets, in that order, each on the
     * first of the remaining draws whose site is free for it; false when the
     * draws ran out first.
     */
    method InitializeParticles(counts: seq<nat>, draws: seq<nat>) returns (ok: bool)
      requires Valid() && |counts| >= 4 && DrawsIn(draws, |siteList|)
      modifies this, siteList
      ensures Valid() && siteList == old(siteList) && totalTime == old(totalTime)
      ensures SRTable(siteList) == old(SRTable(siteList)) && LRTable(siteList) == old(LRTable(siteList))
      ensures var r := PlaceAll(old(OccTable(siteList)), old(particleList), counts, draws);
        OccTable(siteList) == r.occ && particleList == r.parts && ok == r.ok
    {
      ghost var w0 := State();
      ok := PlaceAllTypes(counts, draws);
      PlaceAllConsistent(w0.occ, w0.parts, counts, draws, w0.sr, w0.lr, totalTime);
    }

    /** The sites are valid and hold the occupancy and particles of st, with the neighbour tables sr and lr. */
    ghost predicate Holds(st: Placed, sr: seq<seq<nat>>, lr: seq<seq<nat>>)
      reads this, siteList
    {
      AllValid(siteList) && OccTable(siteList) == st.occ && particleList == st.parts &&
      SRTable(siteList) == sr && LRTable(siteList) == lr
    }

    /** The four placement loops, in the order electrons, holes, triplets, singlets. */
    method PlaceAllTypes(counts: seq<nat>, draws: seq<nat>) returns (ok: bool)
      requires Distinct(siteList) && AllValid(siteList) && |counts| >= 4 && DrawsIn(draws, |siteList|)
      modifies this`particleList, siteList
      ensures AllValid(siteList)
      ensures SRTable(siteList) == old(SRTable(siteList)) && LRTable(siteList) == old(LRTable(siteList))
      ensures var r := PlaceAll(old(OccTable(siteList)), old(particleList), counts, draws);
        OccTable(siteList) == r.occ && particleList == r.parts && ok == r.ok
    {
      ghost var sr, lr := SRTable(siteList), LRTable(siteList);
      ghost var st0 := Placed(OccTable(siteList), particleList, 0, 0, true);
      ghost var st1 := PlaceType(st0, Elec, counts[0], draws);
      ghost var st2 := PlaceType(st1, Hole, counts[1], draws);
      ghost var st3 := PlaceType(st2, Trip, counts[2], draws);
      var id, pos := 0, 0;
      ok := true;
      id, pos, ok := PlaceParticles(Elec, counts[Elec.Index()], draws, id, pos, ok, st0, sr, lr);
      id, pos, ok := PlaceParticles(Hole, counts[Hole.Index()], draws, id, pos, ok, st1, sr, lr);
      id, pos, ok := PlaceParticles(Trip, counts[Trip.Index()], draws, id, pos, ok, st2, sr, lr);
      id, pos, ok := PlaceParticles(Sing, counts[Sing.Index()], draws, id, pos, ok, st3, sr, lr);
    }

    /** One placement loop: `count` particles of type t, each redrawn until its site is free for t. */
    method PlaceParticles(t: PType, count: nat, draws: seq<nat>, id0: nat, pos0: nat, ok0: bool,
                          ghost st: Placed, ghost sr: seq<seq<nat>>, ghost lr: seq<seq<nat>>)
      returns (id: nat, pos: nat, ok: bool)
      requires Distinct(siteList) && AllSlotsValid(st.occ) && DrawsIn(draws, |st.occ|)
      requires Holds(st, sr, lr) && st.nextId == id0 && st.pos == pos0 && st.ok == ok0
      modifies this`particleList, siteList
      ensures var r := PlaceType(st, t, count, draws);
        Holds(r, sr, lr) && id == r.nextId && pos == r.pos && ok == r.ok
    {
      ghost var cur := st;
      id, pos, ok := id0, pos0, ok0;
      var i := 0;
      while i < count && ok
        invariant 0 <= i <= count && AllSlotsValid(cur.occ) && |cur.occ| == |st.occ|
        invariant Holds(cur, sr, lr) && cur.nextId == id && cur.pos == pos && cur.ok == ok
        invariant PlaceType(cur, t, count - i, draws) == PlaceType(st, t, count, draws)
      {
        id, pos, ok := PlaceOne(t, draws, id, pos, cur, sr, lr);
        cur := PlaceStep(cur, t, draws);
        i := i + 1;
      }
    }

    /** One particle of type t: redraw until a site is free for it, then place it there with the given id. */
    method PlaceOne(t: PType, draws: seq<nat>, id0: nat, pos0: nat,
                    ghost st: Placed, ghost sr: seq<seq<nat>>, ghost lr: seq<seq<nat>>)
      returns (id: nat, pos: nat, ok: bool)
      requires Distinct(siteList) && AllSlotsValid(st.occ) && DrawsIn(draws, |st.occ|)
      requires Holds(st, sr, lr) && st.nextId == id0 && st.pos == pos0 && st.ok
      modifies this`particleList, siteList
      ensures var r := PlaceStep(st, t, draws);
        Holds(r, sr, lr) && id == r.nextId && pos == r.pos && ok == r.ok
    {
      var found := DrawFree(t, draws, pos0);
      if found.None? {
        id, pos, ok := id0, |draws|, false;
      } else {
        PutParticle(t, draws[found.value], id0);
        id, pos, ok := id0 + 1, found.value + 1, true;
      }
    }

    /** Append a new particle of type t on site loc and record it there with the given id. */
    method PutParticle(t: PType, loc: nat, id: nat)
      requires Distinct(siteList) && AllValid(siteList) && loc < |siteList|
      modifies this`particleList, siteList
      ensures AllValid(siteList)
      ensures SRTable(siteList) == old(SRTable(siteList)) && LRTable(siteList) == old(LRTable(siteList))
      ensures OccTable(siteList) == old(OccTable(siteList))[loc := old(OccTable(siteList))[loc].OccupyBy(t, id)]
      ensures particleList == old(particleList) + [NewParticle(loc, t)]
    {
      particleList := particleList + [NewParticle(loc, t)];
      OccupyAt(siteList, loc, t, id);
    }

    /** The redraw loop: the first draw from pos on whose site is free for t, if the draws last. */
    method DrawFree(t: PType, draws: seq<nat>, pos: nat) returns (r: Option<nat>)
      requires AllValid(siteList) && DrawsIn(draws, |siteList|)
      ensures r == NextFree(OccTable(siteList), t, draws, pos)
    {
      var k := pos;
      while k < |draws| && !FreeFor(siteList[draws[k]].Occupancy(), t)
        invariant NextFree(OccTable(siteList), t, draws, k) == NextFree(OccTable(siteList), t, draws, pos)
        decreases |draws| - k
      {
        k := k + 1;
      }
      r := if k < |draws| then Some(k) else None;
    }

    /**
     * computeNextEventRates: reset the event list, then push the events of
     * every living particle in index order; the list then holds exactly the
     * enumeration of the current state, and nothing else changes.
     */
    method ComputeNextEventRates()
      requires Valid()
      modifies nextEventList
      ensures Valid() && nextEventList.Contents() == Enumerate(State(), re)
    {
      nextEventList.ResetNextEventList();
      PushAllParticles(State());
    }

    /** The loop over the particles: the events of every living one, in index order, after a reset. */
    method PushAllParticles(ghost w: World)
      requires nextEventList.Valid() && nextEventList.Contents() == [] && NonNegativeRates(re) && AllValid(siteList)
      requires w == State() && WellFormed(w)
      modifies nextEventList
      ensures nextEventList.Valid() && nextEventList.Contents() == Enumerate(w, re)
    {
      var i := 0;
      while i < |particleList|
        invariant 0 <= i <= |particleList| && nextEventList.Valid()
        invariant nextEventList.Contents() == EnumUpTo(w, re, i)
      {
        PushIfAlive(i, w);
        i := i + 1;
      }
    }

    /** One round of the particle loop: a dead particle is skipped. */
    method PushIfAlive(i: nat, ghost w: World)
      requires nextEventList.Valid() && NonNegativeRates(re) && AllValid(siteList)
      requires w == State() && WellFormed(w) && i < |particleList|
      requires nextEventList.Contents() == EnumUpTo(w, re, i)
      modifies nextEventList
      ensures nextEventList.Valid() && nextEventList.Contents() == EnumUpTo(w, re, i + 1)
    {
      if particleList[i].alive {
        PushParticleEvents(i, w);
      }
    }

    /** The switch on the particle's type: its neighbour loops and fixed events, in push order. */
    method PushParticleEvents(i: nat, ghost w: World)
      requires nextEventList.Valid() && NonNegativeRates(re) && AllValid(siteList)
      requires w == State() && WellFormed(w) && i < |particleList|
      modifies nextEventList
      ensures nextEventList.Valid()
      ensures nextEventList.Contents() == old(nextEventList.Contents()) + ParticleEvents(w, re, i)
    {
      var p := particleList[i];
      var loc := p.location;
      assert siteList[loc].sRNeighbours == w.sr[loc] && siteList[loc].lRNeighbours == w.lr[loc];
      match p.ptype
      case Elec =>
        PushScan(i, loc, ElecHop, siteList[loc].sRNeighbours, w);
      case Hole =>
        PushScan(i, loc, HoleHop, siteList[loc].sRNeighbours, w);
      case Sing =>
        PushExciton(i, Sing, loc, siteList[loc].lRNeighbours, siteList[loc].sRNeighbours, w);
      case Trip =>
        PushExciton(i, Trip, loc, siteList[loc].sRNeighbours, siteList[loc].sRNeighbours, w);
      case CT =>
        var el := p.locationCTelec;
        assert siteList[el].sRNeighbours == w.sr[el];
        PushCT(i, loc, el, siteList[loc].sRNeighbours, siteList[el].sRNeighbours, w);
    }

    /** A singlet or triplet: hops over `hops`, its decay, then CT formation over the short-range list `nbs`. */
    method PushExciton(i: nat, t: PType, loc: nat, hops: seq<nat>, nbs: seq<nat>, ghost w: World)
      requires nextEventList.Valid() && NonNegativeRates(re) && AllValid(siteList)
      requires WellFormed(w) && w.occ == OccTable(siteList) && loc < |w.occ|
      requires t in {Sing, Trip} && hops == HopList(w, t, loc) && nbs == w.sr[loc]
      modifies nextEventList
      ensures nextEventList.Valid()
      ensures nextEventList.Contents() == old(nextEventList.Contents()) + ExcitonParticleEvents(w, re, i, t, loc)
    {
      ghost var c0 := nextEventList.Contents();
      ghost var a := ScanEvents(w, re, i, loc, HopScan(t), hops);
      ghost var b := ScanEvents(w, re, i, loc, CTScan(t), nbs);
      PushScan(i, loc, HopScan(t), hops, w);
      nextEventList.PushNextEvent(re.decay(t), Decay, i, i);
      PushScan(i, loc, CTScan(t), nbs, w);
      AppendAssoc3(c0, a, [Event(re.decay(t), Decay, i, i)], b);
    }

    /** A CT state: its two recombinations, then dissociation over each site's short-range list. */
    method PushCT(i: nat, loc: nat, el: nat, holeNbs: seq<nat>, elecNbs: seq<nat>, ghost w: World)
      requires nextEventList.Valid() && NonNegativeRates(re) && AllValid(siteList)
      requires WellFormed(w) && w.occ == OccTable(siteList) && loc < |w.occ| && el < |w.occ|
      requires holeNbs == w.sr[loc] && elecNbs == w.sr[el]
      modifies nextEventList
      ensures nextEventList.Valid()
      ensures nextEventList.Contents() == old(nextEventList.Contents()) + CTParticleEvents(w, re, i, loc, el)
    {
      ghost var c0 := nextEventList.Contents();
      ghost var d := [Event(re.millerAbrahamsGEN(el, loc, Elec), ExcitonFromElecCT, i, loc),
                      Event(re.millerAbrahamsGEN(loc, el, Hole), ExcitonFromHoleCT, i, el)];
      ghost var a := ScanEvents(w, re, i, loc, CTdisHole, holeNbs);
      ghost var b := ScanEvents(w, re, i, loc, CTdisElec, elecNbs);
      PushRecombinations(i, loc, el);
      PushDissociations(i, loc, el, holeNbs, elecNbs, w);
      AppendAssoc3(c0, d, a, b);
    }

    /** A CT state's two recombinations: the electron onto the hole's site, then the hole onto the electron's. */
    method PushRecombinations(i: nat, loc: nat, el: nat)
      requires nextEventList.Valid() && NonNegativeRates(re)
      modifies nextEventList
      ensures nextEventList.Valid()
      ensures nextEventList.Contents() == old(nextEventList.Contents()) +
        [Event(re.millerAbrahamsGEN(el, loc, Elec), ExcitonFromElecCT, i, loc),
         Event(re.millerAbrahamsGEN(loc, el, Hole), ExcitonFromHoleCT, i, el)]
    {
      nextEventList.PushNextEvent(re.millerAbrahamsGEN(el, loc, Elec), ExcitonFromElecCT, i, loc);
      nextEventList.PushNextEvent(re.millerAbrahamsGEN(loc, el, Hole), ExcitonFromHoleCT, i, el);
    }

    /** A CT state's two dissociation loops: the hole over its site's list, then the electron over its own. */
    method PushDissociations(i: nat, loc: nat, el: nat, holeNbs: seq<nat>, elecNbs: seq<nat>, ghost w: World)
      requires nextEventList.Valid() && NonNegativeRates(re) && AllValid(siteList)
      requires WellFormed(w) && w.occ == OccTable(siteList) && loc < |w.occ| && el < |w.occ|
      requires holeNbs == w.sr[loc] && elecNbs == w.sr[el]
      modifies nextEventList
      ensures nextEventList.Valid()
      ensures nextEventList.Contents() == old(nextEventList.Contents()) +
        ScanEvents(w, re, i, loc, CTdisHole, holeNbs) + ScanEvents(w, re, i, loc, CTdisElec, elecNbs)
    {
      PushScan(i, loc, CTdisHole, holeNbs, w);
      PushScan(i, loc, CTdisElec, elecNbs, w);
    }

    /** One neighbour loop: the events of each neighbour in list order, with rates from site `from`. */
    method PushScan(i: nat, from: nat, scan: Scan, nbs: seq<nat>, ghost w: World)
      requires nextEventList.Valid() && NonNegativeRates(re) && AllValid(siteList)
      requires WellFormed(w) && w.occ == OccTable(siteList) && SitesIn(w, nbs)
      modifies nextEventList
      ensures nextEventList.Valid()
      ensures nextEventList.Contents() == old(nextEventList.Contents()) + ScanEvents(w, re, i, from, scan, nbs)
    {
      ghost var before := nextEventList.Contents();
      var k := 0;
      while k < |nbs|
        invariant k <= |nbs| && nextEventList.Valid()
        invariant nextEventList.Contents() == before + ScanPrefix(w, re, i, from, scan, nbs, k)
      {
        var evs := NbEvents(siteList[nbs[k]].Occupancy(), re, i, from, scan, nbs[k]);
        ScanPrefixStep(before, w, re, i, from, scan, nbs, k);
        PushAll(evs);
        k := k + 1;
      }
      ScanPrefixWhole(w, re, i, from, scan, nbs);
    }

    /** Push the events of one neighbour, in order. */
    method PushAll(evs: seq<Event>)
      requires nextEventList.Valid() && AllNonNegative(evs)
      modifies nextEventList
      ensures nextEventList.Valid() && nextEventList.Contents() == old(nextEventList.Contents()) + evs
    {
      ghost var before := nextEventList.Contents();
      var k := 0;
      while k < |evs|
        invariant 0 <= k <= |evs| && nextEventList.Valid()
        invariant nextEventList.Contents() == before + evs[..k]
      {
        assert evs[..k + 1] == evs[..k] + [evs[k]];
        nextEventList.PushNextEvent(evs[k].rate, evs[k].kind, evs[k].part, evs[k].loc);
        k := k + 1;
      }
      assert evs[..k] == evs;
    }

    /**
     * executeNextEvent: advance the clock by the waiting time dt, select an
     * event with the uniform draw u and carry out its transition; uExc is the
     * draw that decides an exciton's spin. The new state is Step of the old.
     */
    method ExecuteNextEvent(dt: real, u: real, uExc: real)
      requires Valid()
      modifies this`totalTime, this`particleList, siteList
      ensures Valid()
      ensures State() ==
        Step(old(State()), Chosen(nextEventList.Contents(), nextEventList.Threshold(u)), dt, uExc, disp)
    {
      ghost var w0 := State();
      AdvanceClock(dt, w0);
      var c := nextEventList.GetNextEvent(u);
      StepUnfold(w0, c, dt, uExc, disp);
      ExecuteChosen(c, uExc, w0.(time := w0.time + dt));
    }

    /** The clock moves on by dt; nothing else changes. */
    method AdvanceClock(dt: real, ghost w: World)
      requires Mirrors(w)
      modifies this`totalTime
      ensures Mirrors(w.(time := w.time + dt))
    {
      totalTime := totalTime + dt;
    }

    /** Carry out the selected event, if the list held one. */
    method ExecuteChosen(c: Option<Choice>, u: real, ghost w: World)
      requires Mirrors(w) && WellFormed(w)
      modifies this`particleList, siteList
      ensures Mirrors(if c.None? then w else Outcome(w, c.value, u, disp))
    {
      if c.Some? {
        Execute(c.value, u, w);
      }
    }

    /** The switch on the selected transition; a fault leaves the state as it is. */
    method Execute(c: Choice, u: real, ghost w: World)
      requires Mirrors(w) && WellFormed(w)
      modifies this`particleList, siteList
      ensures Mirrors(Outcome(w, c, u, disp))
    {
      var id, to := c.part, c.loc;
      if id >= |particleList| {
        return;
      }
      if c.kind != Decay && c.kind != ExcitonFromElecCT && c.kind != ExcitonFromHoleCT && to >= |siteList| {
        return;
      }
      match c.kind
      case NormalHop => DoHop(id, to, w);
      case Decay => DoDecay(id, w);
      case ExcitonFromElec => DoExcitonFromCarrier(id, to, Elec, u, w);
      case ExcitonFromHole => DoExcitonFromCarrier(id, to, Hole, u, w);
      case ExcitonFromElecCT => DoRecombination(id, true, u, w);
      case ExcitonFromHoleCT => DoRecombination(id, false, u, w);
      case SingToCTViaElec => DoToCT(id, to, Sing, true, w);
      case SingToCTViaHole => DoToCT(id, to, Sing, false, w);
      case TripToCTViaElec => DoToCT(id, to, Trip, true, w);
      case TripToCTViaHole => DoToCT(id, to, Trip, false, w);
      case CTdisViaElec => DoDissociation(id, to, true, w);
      case CTdisViaHole => DoDissociation(id, to, false, w);
    }

    method DoHop(id: nat, to: nat, ghost w: World)
      requires Mirrors(w) && WellFormed(w)
      requires id < |particleList| && to < |siteList|
      modifies this`particleList, siteList
      ensures Mirrors(ApplyHop(w, id, to, disp))
    {
      var p := particleList[id];
      var from := p.location;
      SetParticle(id, JumpTo(p, to, disp(from, to)), w);
      ghost var w1 := SetPart(w, id, JumpTo(p, to, disp(from, to)));
      FreeState(from, p.ptype, w1);
      OccupyState(to, p.ptype, id, FreeW(w1, from, p.ptype));
    }

    method DoDecay(id: nat, ghost w: World)
      requires Mirrors(w) && WellFormed(w)
      requires id < |particleList|
      modifies this`particleList, siteList
      ensures Mirrors(ApplyDecay(w, id))
    {
      var p := particleList[id];
      FreeState(p.location, p.ptype, w);
      SetParticle(id, Kill(p, totalTime), FreeW(w, p.location, p.ptype));
    }

    /**
     * The carrier t on particle id meets the opposite carrier recorded on
     * site to. That record is read before anything changes, so a fault
     * changes nothing.
     */
    method DoExcitonFromCarrier(id: nat, to: nat, t: PType, u: real, ghost w: World)
      requires Mirrors(w) && WellFormed(w)
      requires id < |particleList| && to < |siteList|
      modifies this`particleList, siteList
      ensures Mirrors(match ApplyExcitonFromCarrier(w, id, to, t, u) case None => w case Some(r) => r)
    {
      var from := particleList[id].location;
      var partner := siteList[to].IsOccupiedBy(Opposite(t));
      ghost var w1 := FreeW(w, from, t);
      assert partner == w1.occ[to].OccupiedBy(Opposite(t));
      if partner.None? || partner.value >= |particleList| {
        return;
      }
      var j := partner.value;
      FreeState(from, t, w);
      SetParticle(j, MakeExciton(particleList[j], u), w1);
      ghost var w2 := SetPart(w1, j, MakeExciton(w1.parts[j], u));
      RetypeState(to, Opposite(t), ExcitonType(u), id, w2);
      ghost var w3 := RetypeW(w2, to, Opposite(t), ExcitonType(u), id);
      SetParticle(id, Kill(particleList[id], totalTime), w3);
    }

    /** A CT state recombines: via the electron onto the hole's site, or the other way round. */
    method DoRecombination(id: nat, viaElec: bool, u: real, ghost w: World)
      requires Mirrors(w) && WellFormed(w)
      requires id < |particleList|
      modifies this`particleList, siteList
      ensures Mirrors(ApplyRecombination(w, id, viaElec, u))
    {
      var p := particleList[id];
      var hole, el := p.location, p.locationCTelec;
      if viaElec {
        FreeState(el, CT, w);
        ghost var w1 := FreeW(w, el, CT);
        SetParticle(id, MakeExciton(p, u), w1);
        RetypeState(hole, CT, ExcitonType(u), id, SetPart(w1, id, MakeExciton(p, u)));
      } else {
        FreeState(hole, CT, w);
        ghost var w1 := FreeW(w, hole, CT);
        SetParticle(id, MakeExciton(p, u), w1);
        ghost var w2 := SetPart(w1, id, MakeExciton(p, u));
        RetypeState(el, CT, ExcitonType(u), id, w2);
        ghost var w3 := RetypeW(w2, el, CT, ExcitonType(u), id);
        SetParticle(id, SetLocation(particleList[id], el), w3);
      }
    }

    /** An exciton t on particle id becomes a CT state reaching site to with its electron or its hole. */
    method DoToCT(id: nat, to: nat, t: PType, viaElec: bool, ghost w: World)
      requires Mirrors(w) && WellFormed(w)
      requires id < |particleList| && to < |siteList|
      modifies this`particleList, siteList
      ensures Mirrors(ApplyToCT(w, id, to, t, viaElec))
    {
      var p := particleList[id];
      var from := p.location;
      OccupyState(to, CT, id, w);
      RetypeState(from, t, CT, id, OccupyW(w, to, CT, id));
      ghost var w1 := RetypeW(OccupyW(w, to, CT, id), from, t, CT, id);
      SetParticle(id, if viaElec then MakeCTState(p, from, to) else MakeCTState(p, to, from), w1);
    }

    /** A CT state splits: the moving carrier goes to site to, and its partner is appended as a new particle. */
    method DoDissociation(id: nat, to: nat, viaElec: bool, ghost w: World)
      requires Mirrors(w) && WellFormed(w)
      requires id < |particleList| && to < |siteList|
      modifies this`particleList, siteList
      ensures Mirrors(ApplyDissociation(w, id, to, viaElec))
    {
      var p := particleList[id];
      var hole, el := p.location, p.locationCTelec;
      FreePair(el, hole, CT, w);
      var moved := if viaElec then MakeElectron(p, to) else MakeHole(p, to);
      var stays := if viaElec then NewParticle(hole, Hole) else NewParticle(el, Elec);
      PlaceSplit(id, moved, stays, FreeW(FreeW(w, el, CT), hole, CT));
    }

    /**
     * The second half of a dissociation: particle id becomes moved, stays is
     * appended, and both are recorded on their sites.
     */
    method PlaceSplit(id: nat, moved: Particle, stays: Particle, ghost w: World)
      requires Mirrors(w) && id < |w.parts| && moved.location < |w.occ| && stays.location < |w.occ|
      modifies this`particleList, siteList
      ensures Mirrors(SplitW(w, id, moved, stays))
    {
      var n := |particleList|;
      particleList := particleList[id := moved] + [stays];
      OccupyPair(moved.location, moved.ptype, id, stays.location, stays.ptype, n,
                 w.(parts := w.parts[id := moved] + [stays]));
    }

    /** Occupy channel ta of site a by particle ia, then channel tb of site b by particle ib. */
    method OccupyPair(a: nat, ta: PType, ia: nat, b: nat, tb: PType, ib: nat, ghost w: World)
      requires Mirrors(w) && a < |w.occ| && b < |w.occ|
      modifies siteList
      ensures Mirrors(OccupyW(OccupyW(w, a, ta, ia), b, tb, ib))
    {
      OccupyState(a, ta, ia, w);
      OccupyState(b, tb, ib, OccupyW(w, a, ta, ia));
    }

    /** Free channel t of site a, then of site b. */
    method FreePair(a: nat, b: nat, t: PType, ghost w: World)
      requires Mirrors(w) && a < |w.occ| && b < |w.occ|
      modifies siteList
      ensures Mirrors(FreeW(FreeW(w, a, t), b, t))
    {
      FreeState(a, t, w);
      FreeState(b, t, FreeW(w, a, t));
    }

    /** Occupy channel t of site k by particle id, as OccupyW does on the state. */
    method OccupyState(k: nat, t: PType, id: nat, ghost w: World)
      requires Mirrors(w) && k < |w.occ|
      modifies siteList
      ensures Mirrors(OccupyW(w, k, t, id))
    {
      OccupyAt(siteList, k, t, id);
    }

    /** Free channel t of site k, as FreeW does on the state. */
    method FreeState(k: nat, t: PType, ghost w: World)
      requires Mirrors(w) && k < |w.occ|
      modifies siteList
      ensures Mirrors(FreeW(w, k, t))
    {
      FreeAt(siteList, k, t);
    }

    /** Hand channel from of site k over to channel to, as RetypeW does on the state. */
    method RetypeState(k: nat, from: PType, to: PType, id: nat, ghost w: World)
      requires Mirrors(w) && k < |w.occ|
      modifies siteList
      ensures Mirrors(RetypeW(w, k, from, to, id))
    {
      RetypeAt(siteList, k, from, to, id);
    }

    /** Replace particle k, as SetPart does on the state. */
    method SetParticle(k: nat, p: Particle, ghost w: World)
      requires Mirrors(w) && k < |w.parts|
      modifies this`particleList
      ensures Mirrors(SetPart(w, k, p))
    {
      particleList := particleList[k := p];
    }

    /** Append particle p to the list. */
    method AddParticle(p: Particle, ghost w: World)
      requires Mirrors(w)
      modifies this`particleList
      ensures Mirrors(w.(parts := w.parts + [p]))
    {
      particleList := particleList + [p];
    }
  }

  lemma {:induction false} AppendAssoc<T>(c: seq<T>, a: seq<T>, b: seq<T>)
    ensures c + a + b == c + (a + b)
  {
  }

  lemma {:induction false} AppendAssoc3<T>(c: seq<T>, a: seq<T>, d: seq<T>, b: seq<T>)
    ensures c + a + d + b == c + (a + d + b)
  {
  }

  /** One new site per coordinate, in order, to take the places from base on. */
  method NewSites(coords: seq<Vec3>, energies: seq<seq<real>>, ghost base: nat) returns (added: seq<Site>)
    requires |energies| == |coords|
    ensures |added| == |coords| && AllValid(added)
    ensures forall k :: 0 <= k < |coords| ==>
      fresh(added[k]) && added[k].coord == coords[k] && added[k].energies == energies[k] && added[k].index == base + k &&
      added[k].Occupancy() == Vacant && added[k].sRNeighbours == [] && added[k].lRNeighbours == []
  {
    added := [];
    var k := 0;
    while k < |coords|
      invariant 0 <= k <= |coords| && |added| == k && AllValid(added)
      invariant forall j :: 0 <= j < k ==>
        fresh(added[j]) && added[j].coord == coords[j] && added[j].energies == energies[j] && added[j].index == base + j &&
        added[j].Occupancy() == Vacant && added[j].sRNeighbours == [] && added[j].lRNeighbours == []
    {
      var site := new Site(coords[k], energies[k], base + k);
      added := added + [site];
      k := k + 1;
    }
  }

  /** Appending vacant sites with empty lists keeps the world consistent. */
  lemma {:induction false} SitesGrowConsistent(w0: World, w: World, n0: nat)
    requires Consistent(w0) && |w.occ| >= n0 && |w0.occ| == n0
    requires |w.sr| == |w.occ| && |w.lr| == |w.occ| && w.parts == w0.parts
    requires w.occ[..n0] == w0.occ && w.sr[..n0] == w0.sr && w.lr[..n0] == w0.lr
    requires forall s :: n0 <= s < |w.occ| ==> w.occ[s] == Vacant && w.sr[s] == [] && w.lr[s] == []
    ensures Consistent(w)
  {
    forall s | 0 <= s < n0
      ensures w.occ[s] == w0.occ[s] && w.sr[s] == w0.sr[s] && w.lr[s] == w0.lr[s]
    {
      assert w.occ[..n0][s] == w.occ[s];
      assert w.sr[..n0][s] == w.sr[s];
      assert w.lr[..n0][s] == w.lr[s];
    }
  }

  /**
   * Scanning every pair appends to each site's lists the increasing sequence
   * of the other sites near it, and so keeps the world consistent.
   */
  lemma {:induction false} ScannedConsistent(w0: World, w: World, lrN: (nat, nat) -> bool, srN: (nat, nat) -> bool)
    requires Consistent(w0) && w.occ == w0.occ && w.parts == w0.parts
    requires w.lr == Rows(w0.lr, lrN, |w0.occ|) && w.sr == Rows(w0.sr, srN, |w0.occ|)
    ensures Consistent(w)
    ensures forall s :: 0 <= s < |w.occ| ==>
      w.lr[s] == w0.lr[s] + NearList(lrN, s, |w.occ|) && w.sr[s] == w0.sr[s] + NearList(srN, s, |w.occ|)
  {
    forall s | 0 <= s < |w.occ|
      ensures w.lr[s] == w0.lr[s] + NearList(lrN, s, |w.occ|) && w.sr[s] == w0.sr[s] + NearList(srN, s, |w.occ|)
    {
      RowsAreNearLists(w0.lr, lrN, s);
      RowsAreNearLists(w0.sr, srN, s);
    }
  }
}
