/**
 * Initial placement of particles (KmcRun::initializeParticles in
 * src/KmcRun.cpp): the electrons, then the holes, the triplets and the
 * singlets, each on a randomly drawn site, redrawn until the site is free in
 * the particle's own channel and in the channels of every type placed before
 * it. Each is appended to the particle list and recorded on its site with a
 * running id that starts at 0. The random sites are given as a finite
 * sequence of draws; placement stops when they run out.
 */
module Placement {
  import opened KmcTypes
  import opened Sites
  import opened Particles
  import opened Engine


  /** Site s may take a particle of type t: t and every type placed before t are free there. */
  predicate FreeFor(s: Slot, t: PType)
    requires s.Valid()
    ensures FreeFor(s, t) <==> forall c: PType :: c != CT && c.Index() <= t.Index() ==> !s.IsOccupied(c)
  {
    !s.IsOccupied(Elec) &&
    (t.Index() < 1 || !s.IsOccupied(Hole)) &&
    (t.Index() < 2 || !s.IsOccupied(Trip)) &&
    (t.Index() < 3 || !s.IsOccupied(Sing))
  }

  ghost predicate AllSlotsValid(occ: seq<Slot>)
  {
    forall s :: 0 <= s < |occ| ==> occ[s].Valid()
  }

  ghost predicate DrawsIn(draws: seq<nat>, n: nat)
  {
    forall k :: 0 <= k < |draws| ==> draws[k] < n
  }

  /** Placement state: occupancy, particle list, the next id, the next draw, and whether the draws have lasted. */
  datatype Placed = Placed(occ: seq<Slot>, parts: seq<Particle>, nextId: nat, pos: nat, ok: bool)

  /** The index of the first draw from pos on whose site is free for t. */
  function NextFree(occ: seq<Slot>, t: PType, draws: seq<nat>, pos: nat): (r: Option<nat>)
    requires AllSlotsValid(occ) && DrawsIn(draws, |occ|)
    ensures r.Some? ==> pos <= r.value < |draws| && FreeFor(occ[draws[r.value]], t)
    ensures r.Some? ==> forall k :: pos <= k < r.value ==> !FreeFor(occ[draws[k]], t)
    ensures r.None? ==> forall k :: pos <= k < |draws| ==> !FreeFor(occ[draws[k]], t)
    decreases |draws| - pos
  {
    if pos >= |draws| then None
    else if FreeFor(occ[draws[pos]], t) then Some(pos)
    else NextFree(occ, t, draws, pos + 1)
  }

  /** Place particle number nextId, of type t, on site loc. */
  function PlaceAt(st: Placed, t: PType, loc: nat, pos: nat): (r: Placed)
    requires AllSlotsValid(st.occ) && loc < |st.occ|
    ensures AllSlotsValid(r.occ) && |r.occ| == |st.occ|
  {
    Placed(st.occ[loc := st.occ[loc].OccupyBy(t, st.nextId)], st.parts + [NewParticle(loc, t)],
           st.nextId + 1, pos, st.ok)
  }

  /** Place one particle of type t on the first drawn site free for t, or note that the draws ran out. */
  function PlaceStep(st: Placed, t: PType, draws: seq<nat>): (r: Placed)
    requires AllSlotsValid(st.occ) && DrawsIn(draws, |st.occ|)
    ensures AllSlotsValid(r.occ) && |r.occ| == |st.occ|
  {
    match NextFree(st.occ, t, draws, st.pos)
    case None => st.(pos := |draws|, ok := false)
    case Some(k) => PlaceAt(st, t, draws[k], k + 1)
  }

  /** Place `count` particles of type t, each on the first drawn site free for t. */
  function PlaceType(st: Placed, t: PType, count: nat, draws: seq<nat>): (r: Placed)
    requires AllSlotsValid(st.occ) && DrawsIn(draws, |st.occ|)
    ensures AllSlotsValid(r.occ) && |r.occ| == |st.occ|
    decreases count
  {
    if count == 0 || !st.ok then st
    else PlaceType(PlaceStep(st, t, draws), t, count - 1, draws)
  }

  /** The four placement loops in order; counts is indexed by channel. */
  function PlaceAll(occ: seq<Slot>, parts: seq<Particle>, counts: seq<nat>, draws: seq<nat>): (r: Placed)
    requires AllSlotsValid(occ) && DrawsIn(draws, |occ|) && |counts| >= 4
    ensures AllSlotsValid(r.occ) && |r.occ| == |occ|
  {
    var st1 := PlaceType(Placed(occ, parts, 0, 0, true), Elec, counts[0], draws);
    var st2 := PlaceType(st1, Hole, counts[1], draws);
    var st3 := PlaceType(st2, Trip, counts[2], draws);
    PlaceType(st3, Sing, counts[3], draws)
  }

  function Types(parts: seq<Particle>): (r: seq<PType>)
    ensures |r| == |parts|
  {
    seq(|parts|, k requires 0 <= k < |parts| => parts[k].ptype)
  }

  function Repeat(t: PType, n: nat): (r: seq<PType>)
    ensures |r| == n && forall k :: 0 <= k < n ==> r[k] == t
  {
    seq(n, _ => t)
  }

  /**
   * Every particle from index base on is a new particle of a placed type,
   * on a site of the list that records id k - base on its channel.
   */
  ghost predicate Recorded(st: Placed, base: nat)
  {
    AllSlotsValid(st.occ) && base <= |st.parts| && st.nextId == |st.parts| - base &&
    forall k :: base <= k < |st.parts| ==>
      st.parts[k] == NewParticle(st.parts[k].location, st.parts[k].ptype) &&
      st.parts[k].location < |st.occ| && st.parts[k].ptype != CT &&
      st.occ[st.parts[k].location].OccupiedBy(st.parts[k].ptype) == Some(k - base)
  }

  ghost predicate TypesUpTo(parts: seq<Particle>, base: nat, t: PType)
  {
    forall k :: base <= k < |parts| ==> parts[k].ptype.Index() <= t.Index()
  }

  /** No two particles from index base on share a site. */
  ghost predicate Apart(parts: seq<Particle>, base: nat)
  {
    forall k1, k2 :: base <= k1 < k2 < |parts| ==> parts[k1].location != parts[k2].location
  }

  /**
   * Placing one particle of type t on a site free for t keeps the earlier
   * particles recorded, records the new one, and keeps the particles apart,
   * because each earlier one occupies a channel that FreeFor checks.
   */
  lemma {:induction false} PlaceAtKeeps(st: Placed, t: PType, loc: nat, pos: nat, base: nat)
    requires Recorded(st, base) && TypesUpTo(st.parts, base, t) && Apart(st.parts, base)
    requires t != CT && loc < |st.occ| && FreeFor(st.occ[loc], t)
    ensures Recorded(PlaceAt(st, t, loc, pos), base)
    ensures TypesUpTo(PlaceAt(st, t, loc, pos).parts, base, t)
    ensures Apart(PlaceAt(st, t, loc, pos).parts, base)
  {
    var r := PlaceAt(st, t, loc, pos);
    forall k | base <= k < |st.parts|
      ensures st.parts[k].location != loc
      ensures r.occ[st.parts[k].location] == st.occ[st.parts[k].location]
    {
    }
    assert r.parts[|st.parts|] == NewParticle(loc, t);
  }

  /** One placement step keeps the invariants. */
  lemma {:induction false} PlaceStepKeeps(st: Placed, t: PType, draws: seq<nat>, base: nat)
    requires Recorded(st, base) && TypesUpTo(st.parts, base, t) && Apart(st.parts, base)
    requires t != CT && DrawsIn(draws, |st.occ|)
    ensures var r := PlaceStep(st, t, draws);
      Recorded(r, base) && TypesUpTo(r.parts, base, t) && Apart(r.parts, base)
  {
    match NextFree(st.occ, t, draws, st.pos)
    case None =>
    case Some(k) => PlaceAtKeeps(st, t, draws[k], k + 1, base);
  }

  /** Placing `count` particles of type t keeps the invariants. */
  lemma {:induction false} PlaceTypeKeeps(st: Placed, t: PType, count: nat, draws: seq<nat>, base: nat)
    requires Recorded(st, base) && TypesUpTo(st.parts, base, t) && Apart(st.parts, base)
    requires t != CT && DrawsIn(draws, |st.occ|)
    ensures var r := PlaceType(st, t, count, draws);
      Recorded(r, base) && TypesUpTo(r.parts, base, t) && Apart(r.parts, base)
    decreases count
  {
    if count > 0 && st.ok {
      PlaceStepKeeps(st, t, draws, base);
      PlaceTypeKeeps(PlaceStep(st, t, draws), t, count - 1, draws, base);
    }
  }

  /** One step either appends one particle of type t and keeps the flag, or ends the draws. */
  lemma {:induction false} PlaceStepOutcome(st: Placed, t: PType, draws: seq<nat>)
    requires AllSlotsValid(st.occ) && DrawsIn(draws, |st.occ|)
    ensures var r := PlaceStep(st, t, draws);
      (st.parts <= r.parts && r.ok == st.ok && Types(r.parts) == Types(st.parts) + [t]) ||
      (!r.ok && r.pos == |draws| && r.parts == st.parts)
  {
    match NextFree(st.occ, t, draws, st.pos)
    case None =>
    case Some(k) =>
      var r := PlaceAt(st, t, draws[k], k + 1);
      assert Types(r.parts) == Types(st.parts) + [t];
  }

  /**
   * The earlier list is kept, and unless the draws ran out exactly `count`
   * particles of type t are appended.
   */
  lemma {:induction false} PlaceTypeOutcome(st: Placed, t: PType, count: nat, draws: seq<nat>)
    requires AllSlotsValid(st.occ) && DrawsIn(draws, |st.occ|)
    ensures var r := PlaceType(st, t, count, draws);
      st.parts <= r.parts && (r.ok ==> st.ok) &&
      (r.ok ==> Types(r.parts) == Types(st.parts) + Repeat(t, count)) &&
      (st.ok && !r.ok ==> r.pos == |draws|)
    decreases count
  {
    if count > 0 && st.ok {
      var st' := PlaceStep(st, t, draws);
      PlaceStepOutcome(st, t, draws);
      PlaceTypeOutcome(st', t, count - 1, draws);
      assert Repeat(t, count) == [t] + Repeat(t, count - 1);
    }
  }

  /** Every later type's earlier particles have a smaller channel index too. */
  lemma {:induction false} TypesUpToWiden(parts: seq<Particle>, base: nat, t: PType, t': PType)
    requires TypesUpTo(parts, base, t) && t.Index() <= t'.Index()
    ensures TypesUpTo(parts, base, t')
  {
  }

  /**
   * After the four loops: the particles that were there are untouched; each
   * new particle k is a fresh particle whose site records id k - |parts| on
   * its channel; no two new particles share a site; and unless the draws ran
   * out, the new particles are counts[0] electrons, then counts[1] holes,
   * counts[2] triplets and counts[3] singlets.
   */
  lemma {:induction false} PlaceAllSpec(occ: seq<Slot>, parts: seq<Particle>, counts: seq<nat>, draws: seq<nat>)
    requires AllSlotsValid(occ) && DrawsIn(draws, |occ|) && |counts| >= 4
    ensures var r := PlaceAll(occ, parts, counts, draws);
      Recorded(r, |parts|) && Apart(r.parts, |parts|) && parts <= r.parts &&
      (r.ok ==> Types(r.parts) == Types(parts) + Repeat(Elec, counts[0]) + Repeat(Hole, counts[1]) +
                                  Repeat(Trip, counts[2]) + Repeat(Sing, counts[3])) &&
      (!r.ok ==> r.pos == |draws|)
  {
    var base := |parts|;
    var st0 := Placed(occ, parts, 0, 0, true);
    var st1 := PlaceType(st0, Elec, counts[0], draws);
    var st2 := PlaceType(st1, Hole, counts[1], draws);
    var st3 := PlaceType(st2, Trip, counts[2], draws);
    var st4 := PlaceType(st3, Sing, counts[3], draws);
    PlaceTypeKeeps(st0, Elec, counts[0], draws, base);
    TypesUpToWiden(st1.parts, base, Elec, Hole);
    PlaceTypeKeeps(st1, Hole, counts[1], draws, base);
    TypesUpToWiden(st2.parts, base, Hole, Trip);
    PlaceTypeKeeps(st2, Trip, counts[2], draws, base);
    TypesUpToWiden(st3.parts, base, Trip, Sing);
    PlaceTypeKeeps(st3, Sing, counts[3], draws, base);
    PlaceTypeOutcome(st0, Elec, counts[0], draws);
    PlaceTypeOutcome(st1, Hole, counts[1], draws);
    PlaceTypeOutcome(st2, Trip, counts[2], draws);
    PlaceTypeOutcome(st3, Sing, counts[3], draws);
  }

  /**
   * Started, as the engine does, from an empty particle list: particle k's
   * site records k on particle k's channel, and the particles are on
   * pairwise different sites.
   */
  lemma {:induction false} InitialPlacement(occ: seq<Slot>, counts: seq<nat>, draws: seq<nat>, k: nat, k': nat)
    requires AllSlotsValid(occ) && DrawsIn(draws, |occ|) && |counts| >= 4
    requires k < |PlaceAll(occ, [], counts, draws).parts|
    ensures var r := PlaceAll(occ, [], counts, draws);
      r.parts[k].location < |r.occ| && r.occ[r.parts[k].location].OccupiedBy(r.parts[k].ptype) == Some(k)
    ensures var r := PlaceAll(occ, [], counts, draws);
      k' < |r.parts| && k' != k ==> r.parts[k'].location != r.parts[k].location
  {
    PlaceAllSpec(occ, [], counts, draws);
  }

  /** One placement step keeps a consistent world consistent: the new particle is on a site of the list and its id is a list index. */
  lemma {:induction false} PlaceStepConsistent(st: Placed, t: PType, draws: seq<nat>,
                                               sr: seq<seq<nat>>, lr: seq<seq<nat>>, time: real)
    requires Consistent(World(st.occ, sr, lr, st.parts, time)) && st.nextId <= |st.parts|
    requires DrawsIn(draws, |st.occ|)
    ensures var r := PlaceStep(st, t, draws);
      Consistent(World(r.occ, sr, lr, r.parts, time)) && r.nextId <= |r.parts|
  {
    match NextFree(st.occ, t, draws, st.pos)
    case None =>
    case Some(k) =>
      var r := PlaceAt(st, t, draws[k], k + 1);
      forall j | 0 <= j < |r.parts|
        ensures r.parts[j].location < |r.occ| && r.parts[j].locationCTelec < |r.occ|
      {
        if j < |st.parts| { assert r.parts[j] == st.parts[j]; }
      }
  }

  /** Placement keeps a consistent world consistent. */
  lemma {:induction false} PlaceTypeConsistent(st: Placed, t: PType, count: nat, draws: seq<nat>,
                                               sr: seq<seq<nat>>, lr: seq<seq<nat>>, time: real)
    requires Consistent(World(st.occ, sr, lr, st.parts, time)) && st.nextId <= |st.parts|
    requires DrawsIn(draws, |st.occ|)
    ensures var r := PlaceType(st, t, count, draws);
      Consistent(World(r.occ, sr, lr, r.parts, time)) && r.nextId <= |r.parts|
    decreases count
  {
    if count > 0 && st.ok {
      PlaceStepConsistent(st, t, draws, sr, lr, time);
      PlaceTypeConsistent(PlaceStep(st, t, draws), t, count - 1, draws, sr, lr, time);
    }
  }

  /** The four placement loops keep a consistent world consistent. */
  lemma {:induction false} PlaceAllConsistent(occ: seq<Slot>, parts: seq<Particle>, counts: seq<nat>, draws: seq<nat>,
                                              sr: seq<seq<nat>>, lr: seq<seq<nat>>, time: real)
    requires Consistent(World(occ, sr, lr, parts, time)) && DrawsIn(draws, |occ|) && |counts| >= 4
    ensures var r := PlaceAll(occ, parts, counts, draws);
      Consistent(World(r.occ, sr, lr, r.parts, time))
  {
    var st0 := Placed(occ, parts, 0, 0, true);
    var st1 := PlaceType(st0, Elec, counts[0], draws);
    var st2 := PlaceType(st1, Hole, counts[1], draws);
    var st3 := PlaceType(st2, Trip, counts[2], draws);
    PlaceTypeConsistent(st0, Elec, counts[0], draws, sr, lr, time);
    PlaceTypeConsistent(st1, Hole, counts[1], draws, sr, lr, time);
    PlaceTypeConsistent(st2, Trip, counts[2], draws, sr, lr, time);
    PlaceTypeConsistent(st3, Sing, counts[3], draws, sr, lr, time);
  }
}
