/**
 * The effect of executing one selected event (KmcRun::executeNextEvent in
 * src/KmcRun.cpp) as a function of the world: the time advances by the
 * waiting time, then the event's transition updates site occupancy and
 * particles. An index the source would use unchecked that is out of range,
 * or a partner lookup on a channel that is not occupied, is a fault here:
 * nothing but the time changes.
 */
module Transitions {
  import opened KmcTypes
  import opened Sites
  import opened Cumulative
  import opened EventList
  import opened Particles
  import opened Engine

  ghost predicate SlotsValid(w: World)
  {
    forall s :: 0 <= s < |w.occ| ==> w.occ[s].Valid()
  }

  lemma {:induction false} BelowMonotone(occ: seq<Slot>, m: nat, m': nat)
    requires OccupantsBelow(occ, m) && m <= m'
    ensures OccupantsBelow(occ, m')
  {
  }

  function FreeW(w: World, s: nat, t: PType): (r: World)
    requires SlotsValid(w) && s < |w.occ|
    ensures SlotsValid(r) && |r.occ| == |w.occ| && r.parts == w.parts
    ensures forall m :: OccupantsBelow(w.occ, m) ==> OccupantsBelow(r.occ, m)
  {
    w.(occ := w.occ[s := w.occ[s].Free(t)])
  }

  function OccupyW(w: World, s: nat, t: PType, id: nat): (r: World)
    requires SlotsValid(w) && s < |w.occ|
    ensures SlotsValid(r) && |r.occ| == |w.occ| && r.parts == w.parts
    ensures forall m :: OccupantsBelow(w.occ, m) && id < m ==> OccupantsBelow(r.occ, m)
  {
    w.(occ := w.occ[s := w.occ[s].OccupyBy(t, id)])
  }

  function RetypeW(w: World, s: nat, from: PType, to: PType, id: nat): (r: World)
    requires SlotsValid(w) && s < |w.occ|
    ensures SlotsValid(r) && |r.occ| == |w.occ| && r.parts == w.parts
    ensures forall m :: OccupantsBelow(w.occ, m) && id < m ==> OccupantsBelow(r.occ, m)
  {
    w.(occ := w.occ[s := w.occ[s].Retype(from, to, id)])
  }

  function SetPart(w: World, k: nat, p: Particle): (r: World)
    requires k < |w.parts|
    ensures r.occ == w.occ && |r.parts| == |w.parts|
  {
    w.(parts := w.parts[k := p])
  }

  /** normalhop: move particle id to site to; free its channel on the old site and occupy it on the new one. */
  function ApplyHop(w: World, id: nat, to: nat, disp: (nat, nat) -> Vec3): (r: World)
    requires WellFormed(w) && id < |w.parts| && to < |w.occ|
    ensures WellFormed(r) && r.time == w.time && r.sr == w.sr && r.lr == w.lr
    ensures |r.parts| == |w.parts|
    ensures OccupantsInRange(w) ==> OccupantsInRange(r)
  {
    var p := w.parts[id];
    var w1 := SetPart(w, id, JumpTo(p, to, disp(p.location, to)));
    OccupyW(FreeW(w1, p.location, p.ptype), to, p.ptype, id)
  }

  /** decay: free the particle's channel and kill it at the current time. */
  function ApplyDecay(w: World, id: nat): (r: World)
    requires WellFormed(w) && id < |w.parts|
    ensures WellFormed(r) && r.time == w.time && r.sr == w.sr && r.lr == w.lr
    ensures |r.parts| == |w.parts|
    ensures OccupantsInRange(w) ==> OccupantsInRange(r)
  {
    var p := w.parts[id];
    SetPart(FreeW(w, p.location, p.ptype), id, Kill(p, w.time))
  }

  /**
   * excitonFromElec (t = Elec) and excitonFromHole (t = Hole): free the
   * carrier's channel, turn the opposite carrier recorded on site `to` into an
   * exciton, retype that channel to the exciton and record id, the carrier's
   * own index, as its occupant, then kill the carrier.
   */
  function ApplyExcitonFromCarrier(w: World, id: nat, to: nat, t: PType, u: real): (r: Option<World>)
    requires WellFormed(w) && id < |w.parts| && to < |w.occ|
    ensures r.Some? ==> WellFormed(r.value) && r.value.time == w.time && r.value.sr == w.sr && r.value.lr == w.lr
    ensures r.Some? ==> |r.value.parts| == |w.parts|
    ensures r.Some? ==> (OccupantsInRange(w) ==> OccupantsInRange(r.value))
  {
    var p := w.parts[id];
    var w1 := FreeW(w, p.location, t);
    match w1.occ[to].OccupiedBy(Opposite(t))
    case None => None
    case Some(j) =>
      if j >= |w.parts| then None
      else
        var w2 := SetPart(w1, j, MakeExciton(w1.parts[j], u));
        var w3 := RetypeW(w2, to, Opposite(t), ExcitonType(u), id);
        Some(SetPart(w3, id, Kill(w3.parts[id], w.time)))
  }

  /**
   * excitonFromElecCT (viaElec) and excitonFromHoleCT: free the CT channel of
   * the site the moving carrier leaves, make the particle an exciton on the
   * other site and retype that site's CT channel to it.
   */
  function ApplyRecombination(w: World, id: nat, viaElec: bool, u: real): (r: World)
    requires WellFormed(w) && id < |w.parts|
    ensures WellFormed(r) && r.time == w.time && r.sr == w.sr && r.lr == w.lr
    ensures |r.parts| == |w.parts|
    ensures OccupantsInRange(w) ==> OccupantsInRange(r)
  {
    var p := w.parts[id];
    var hole := p.location;
    var el := p.locationCTelec;
    if viaElec then
      var w1 := FreeW(w, el, CT);
      var w2 := SetPart(w1, id, MakeExciton(p, u));
      RetypeW(w2, hole, CT, ExcitonType(u), id)
    else
      var w1 := FreeW(w, hole, CT);
      var w2 := SetPart(w1, id, MakeExciton(p, u));
      var w3 := RetypeW(w2, el, CT, ExcitonType(u), id);
      SetPart(w3, id, SetLocation(w3.parts[id], el))
  }

  /**
   * singToCT / tripToCT via the electron or via the hole: occupy the new site
   * as CT, retype the old site's exciton channel t to CT, and make the
   * particle a CT state; via the electron the hole stays on the old site.
   */
  function ApplyToCT(w: World, id: nat, to: nat, t: PType, viaElec: bool): (r: World)
    requires WellFormed(w) && id < |w.parts| && to < |w.occ|
    ensures WellFormed(r) && r.time == w.time && r.sr == w.sr && r.lr == w.lr
    ensures |r.parts| == |w.parts|
    ensures OccupantsInRange(w) ==> OccupantsInRange(r)
  {
    var p := w.parts[id];
    var from := p.location;
    var w1 := RetypeW(OccupyW(w, to, CT, id), from, t, CT, id);
    SetPart(w1, id, if viaElec then MakeCTState(p, from, to) else MakeCTState(p, to, from))
  }

  /** Particle id becomes moved and stays is appended; each is recorded on its site. */
  function SplitW(w: World, id: nat, moved: Particle, stays: Particle): (r: World)
    requires SlotsValid(w) && id < |w.parts| && moved.location < |w.occ| && stays.location < |w.occ|
    ensures SlotsValid(r) && |r.occ| == |w.occ| && r.parts == w.parts[id := moved] + [stays]
    ensures r.time == w.time && r.sr == w.sr && r.lr == w.lr
    ensures OccupantsBelow(w.occ, |w.parts|) ==> OccupantsBelow(r.occ, |r.parts|)
  {
    var w1 := w.(parts := w.parts[id := moved] + [stays]);
    OccupyW(OccupyW(w1, moved.location, moved.ptype, id), stays.location, stays.ptype, |w.parts|)
  }

  /**
   * CTdisViaElec (viaElec) and CTdisViaHole: free CT on both sites; the
   * moving carrier becomes a free electron (hole) on site to, and a new hole
   * (electron) is appended on the partner's old site; both are recorded.
   */
  function ApplyDissociation(w: World, id: nat, to: nat, viaElec: bool): (r: World)
    requires WellFormed(w) && id < |w.parts| && to < |w.occ|
    ensures WellFormed(r) && r.time == w.time && r.sr == w.sr && r.lr == w.lr
    ensures |r.parts| == |w.parts| + 1
    ensures OccupantsInRange(w) ==> OccupantsInRange(r)
  {
    var p := w.parts[id];
    var hole := p.location;
    var el := p.locationCTelec;
    var moved := if viaElec then MakeElectron(p, to) else MakeHole(p, to);
    var stays := if viaElec then NewParticle(hole, Hole) else NewParticle(el, Elec);
    SplitW(FreeW(FreeW(w, el, CT), hole, CT), id, moved, stays)
  }

  function IsDissociation(k: Transition): bool
  {
    k == CTdisViaElec || k == CTdisViaHole
  }

  /** The transition of choice c applied to w; nothing on a fault. */
  function Apply(w: World, c: Choice, u: real, disp: (nat, nat) -> Vec3): (r: Option<World>)
    requires WellFormed(w)
    ensures r.Some? ==> WellFormed(r.value)
    ensures r.Some? ==> r.value.time == w.time && r.value.sr == w.sr && r.value.lr == w.lr
    ensures r.Some? ==> |r.value.parts| == |w.parts| + if IsDissociation(c.kind) then 1 else 0
    ensures r.Some? ==> (OccupantsInRange(w) ==> OccupantsInRange(r.value))
  {
    var id := c.part;
    var to := c.loc;
    if id >= |w.parts| then None
    else if c.kind != Decay && c.kind != ExcitonFromElecCT && c.kind != ExcitonFromHoleCT && to >= |w.occ| then None
    else
      match c.kind
      case NormalHop => Some(ApplyHop(w, id, to, disp))
      case Decay => Some(ApplyDecay(w, id))
      case ExcitonFromElec => ApplyExcitonFromCarrier(w, id, to, Elec, u)
      case ExcitonFromHole => ApplyExcitonFromCarrier(w, id, to, Hole, u)
      case ExcitonFromElecCT => Some(ApplyRecombination(w, id, true, u))
      case ExcitonFromHoleCT => Some(ApplyRecombination(w, id, false, u))
      case SingToCTViaElec => Some(ApplyToCT(w, id, to, Sing, true))
      case SingToCTViaHole => Some(ApplyToCT(w, id, to, Sing, false))
      case TripToCTViaElec => Some(ApplyToCT(w, id, to, Trip, true))
      case TripToCTViaHole => Some(ApplyToCT(w, id, to, Trip, false))
      case CTdisViaElec => Some(ApplyDissociation(w, id, to, true))
      case CTdisViaHole => Some(ApplyDissociation(w, id, to, false))
  }

  /** The transition of choice c carried out on w; on a fault w stays as it is. */
  function Outcome(w: World, c: Choice, u: real, disp: (nat, nat) -> Vec3): (r: World)
    requires WellFormed(w)
    ensures WellFormed(r) && (Consistent(w) ==> Consistent(r))
    ensures r.time == w.time && r.sr == w.sr && r.lr == w.lr
  {
    match Apply(w, c, u, disp)
    case None => w
    case Some(w2) => w2
  }

  /**
   * One execution step: advance the time by dt, then apply the selected
   * event if there is one and it does not fault.
   */
  function Step(w: World, c: Option<Choice>, dt: real, u: real, disp: (nat, nat) -> Vec3): (r: World)
    requires WellFormed(w)
    ensures WellFormed(r) && (Consistent(w) ==> Consistent(r))
    ensures r.time == w.time + dt
    ensures r.sr == w.sr && r.lr == w.lr
  {
    var w1 := w.(time := w.time + dt);
    if c.None? then w1 else Outcome(w1, c.value, u, disp)
  }

  /** The two cases of a step, without or with a selected event. */
  lemma StepUnfold(w: World, c: Option<Choice>, dt: real, u: real, disp: (nat, nat) -> Vec3)
    requires WellFormed(w)
    ensures c.None? ==> Step(w, c, dt, u, disp) == w.(time := w.time + dt)
    ensures c.Some? ==> Step(w, c, dt, u, disp) == Outcome(w.(time := w.time + dt), c.value, u, disp)
  {
  }

  // ---------------------------------------------------------------------
  // Effects of each transition kind

  /**
   * normalhop: the particle's channel moves from its old site to the target,
   * where the particle's index is recorded; the particle moves there; no other
   * channel, site or particle changes.
   */
  lemma {:induction false} HopEffect(w: World, c: Choice, u: real, disp: (nat, nat) -> Vec3)
    requires WellFormed(w) && c.kind == NormalHop && c.part < |w.parts| && c.loc < |w.occ|
    ensures Apply(w, c, u, disp).Some?
    ensures var r := Apply(w, c, u, disp).value;
      var p := w.parts[c.part];
      var t := p.ptype;
      r.occ[c.loc].OccupiedBy(t) == Some(c.part) &&
      (p.location != c.loc ==> !r.occ[p.location].IsOccupied(t)) &&
      (forall ch :: ch != t ==> r.occ[c.loc].OccupiedBy(ch) == w.occ[c.loc].OccupiedBy(ch)) &&
      (forall ch :: ch != t ==> r.occ[p.location].OccupiedBy(ch) == w.occ[p.location].OccupiedBy(ch)) &&
      (forall s :: 0 <= s < |w.occ| && s != p.location && s != c.loc ==> r.occ[s] == w.occ[s]) &&
      |r.parts| == |w.parts| &&
      r.parts[c.part] == p.(location := c.loc, drTravelled := p.drTravelled.Plus(disp(p.location, c.loc))) &&
      (forall k :: 0 <= k < |w.parts| && k != c.part ==> r.parts[k] == w.parts[k])
  {
    assert Apply(w, c, u, disp) == Some(ApplyHop(w, c.part, c.loc, disp));
  }

  /** decay: the particle's channel is freed and the particle dies at the current time, staying where it was. */
  lemma {:induction false} DecayEffect(w: World, c: Choice, u: real, disp: (nat, nat) -> Vec3)
    requires WellFormed(w) && c.kind == Decay && c.part < |w.parts|
    ensures Apply(w, c, u, disp).Some?
    ensures var r := Apply(w, c, u, disp).value;
      var p := w.parts[c.part];
      !r.occ[p.location].IsOccupied(p.ptype) &&
      (forall ch :: ch != p.ptype ==> r.occ[p.location].OccupiedBy(ch) == w.occ[p.location].OccupiedBy(ch)) &&
      (forall s :: 0 <= s < |w.occ| && s != p.location ==> r.occ[s] == w.occ[s]) &&
      |r.parts| == |w.parts| &&
      !r.parts[c.part].alive && r.parts[c.part].deathTime == w.time &&
      r.parts[c.part].location == p.location && r.parts[c.part].ptype == p.ptype &&
      (forall k :: 0 <= k < |w.parts| && k != c.part ==> r.parts[k] == w.parts[k])
  {
    assert Apply(w, c, u, disp) == Some(ApplyDecay(w, c.part));
  }

  function Carrier(k: Transition): PType
  {
    if k == ExcitonFromElec then Elec else Hole
  }

  /**
   * excitonFromElec / excitonFromHole: it faults exactly when the target site
   * records no opposite carrier in range; otherwise the carrier's channel is
   * freed, the opposite carrier j becomes the exciton, the target's carrier
   * channel is retyped to the exciton with the KILLED carrier's index as its
   * occupant (not j), and the carrier dies.
   */
  lemma {:induction false} ExcitonFromCarrierEffect(w: World, c: Choice, u: real, disp: (nat, nat) -> Vec3)
    requires WellFormed(w) && c.kind in {ExcitonFromElec, ExcitonFromHole}
    requires c.part < |w.parts| && c.loc < |w.occ|
    ensures var t := Carrier(c.kind);
      var found := w.occ[c.loc].OccupiedBy(Opposite(t));
      Apply(w, c, u, disp).Some? <==> found.Some? && found.value < |w.parts|
    ensures Apply(w, c, u, disp).Some? ==>
      var r := Apply(w, c, u, disp).value;
      var t := Carrier(c.kind);
      var p := w.parts[c.part];
      var j := w.occ[c.loc].OccupiedBy(Opposite(t)).value;
      var x := ExcitonType(u);
      r.occ[c.loc].OccupiedBy(x) == Some(c.part) &&
      !r.occ[c.loc].IsOccupied(Opposite(t)) &&
      !r.occ[p.location].IsOccupied(t) &&
      (forall s :: 0 <= s < |w.occ| && s != p.location && s != c.loc ==> r.occ[s] == w.occ[s]) &&
      (j != c.part ==> r.parts[j] == MakeExciton(w.parts[j], u)) &&
      !r.parts[c.part].alive && r.parts[c.part].deathTime == w.time &&
      (forall k :: 0 <= k < |w.parts| && k != c.part && k != j ==> r.parts[k] == w.parts[k])
  {
    var t := Carrier(c.kind);
    assert Apply(w, c, u, disp) == ApplyExcitonFromCarrier(w, c.part, c.loc, t, u);
  }

  /**
   * excitonFromElecCT / excitonFromHoleCT: the CT channel of the site left
   * behind is freed, the particle becomes the exciton on the other site, whose
   * CT channel is retyped to the exciton with the particle's index.
   */
  lemma {:induction false} RecombinationEffect(w: World, c: Choice, u: real, disp: (nat, nat) -> Vec3)
    requires WellFormed(w) && c.kind in {ExcitonFromElecCT, ExcitonFromHoleCT} && c.part < |w.parts|
    ensures Apply(w, c, u, disp).Some?
    ensures var r := Apply(w, c, u, disp).value;
      var p := w.parts[c.part];
      var stay := if c.kind == ExcitonFromElecCT then p.location else p.locationCTelec;
      var leave := if c.kind == ExcitonFromElecCT then p.locationCTelec else p.location;
      var x := ExcitonType(u);
      r.occ[stay].OccupiedBy(x) == Some(c.part) &&
      !r.occ[stay].IsOccupied(CT) && !r.occ[leave].IsOccupied(CT) &&
      (forall s :: 0 <= s < |w.occ| && s != stay && s != leave ==> r.occ[s] == w.occ[s]) &&
      r.parts[c.part].ptype == x && r.parts[c.part].location == stay &&
      (forall k :: 0 <= k < |w.parts| && k != c.part ==> r.parts[k] == w.parts[k])
  {
    assert Apply(w, c, u, disp) == Some(ApplyRecombination(w, c.part, c.kind == ExcitonFromElecCT, u));
  }

  function ExcitonOf(k: Transition): PType
  {
    if k == SingToCTViaElec || k == SingToCTViaHole then Sing else Trip
  }

  function ViaElec(k: Transition): bool
  {
    k == SingToCTViaElec || k == TripToCTViaElec
  }

  /**
   * singToCT / tripToCT: the target is occupied as CT, the exciton's channel on
   * the old site is retyped to CT, both recording the particle; the particle
   * becomes a CT state with the hole on the old site and the electron on the
   * target when it goes via the electron, the other way round via the hole.
   */
  lemma {:induction false} ToCTEffect(w: World, c: Choice, u: real, disp: (nat, nat) -> Vec3)
    requires WellFormed(w) && c.kind in {SingToCTViaElec, SingToCTViaHole, TripToCTViaElec, TripToCTViaHole}
    requires c.part < |w.parts| && c.loc < |w.occ|
    ensures Apply(w, c, u, disp).Some?
    ensures var r := Apply(w, c, u, disp).value;
      var p := w.parts[c.part];
      var prev := p.location;
      r.occ[c.loc].OccupiedBy(CT) == Some(c.part) &&
      r.occ[prev].OccupiedBy(CT) == Some(c.part) &&
      !r.occ[prev].IsOccupied(ExcitonOf(c.kind)) &&
      (forall s :: 0 <= s < |w.occ| && s != prev && s != c.loc ==> r.occ[s] == w.occ[s]) &&
      r.parts[c.part].ptype == CT &&
      (if ViaElec(c.kind) then r.parts[c.part].location == prev && r.parts[c.part].locationCTelec == c.loc
       else r.parts[c.part].location == c.loc && r.parts[c.part].locationCTelec == prev) &&
      (forall k :: 0 <= k < |w.parts| && k != c.part ==> r.parts[k] == w.parts[k])
  {
    assert Apply(w, c, u, disp) == Some(ApplyToCT(w, c.part, c.loc, ExcitonOf(c.kind), ViaElec(c.kind)));
  }

  /**
   * CT dissociation: CT is freed on both sites; the particle becomes a free
   * electron (via the electron) or hole on the target; exactly one particle of
   * the other carrier type is appended, with index equal to the old size, on
   * the site its partner left; both carriers are recorded on their sites.
   */
  lemma {:induction false} DissociationEffect(w: World, c: Choice, u: real, disp: (nat, nat) -> Vec3)
    requires WellFormed(w) && IsDissociation(c.kind) && c.part < |w.parts| && c.loc < |w.occ|
    ensures Apply(w, c, u, disp).Some?
    ensures var r := Apply(w, c, u, disp).value;
      var p := w.parts[c.part];
      var n := |w.parts|;
      var carrier := if c.kind == CTdisViaElec then Elec else Hole;
      var partnerSite := if c.kind == CTdisViaElec then p.location else p.locationCTelec;
      |r.parts| == n + 1 &&
      r.parts[n] == NewParticle(partnerSite, Opposite(carrier)) &&
      r.parts[c.part].ptype == carrier && r.parts[c.part].location == c.loc &&
      (forall k :: 0 <= k < n && k != c.part ==> r.parts[k] == w.parts[k]) &&
      r.occ[c.loc].OccupiedBy(carrier) == Some(c.part) &&
      r.occ[partnerSite].OccupiedBy(Opposite(carrier)) == Some(n) &&
      !r.occ[p.location].IsOccupied(CT) && !r.occ[p.locationCTelec].IsOccupied(CT) &&
      (forall s :: 0 <= s < |w.occ| && s != p.location && s != p.locationCTelec && s != c.loc ==> r.occ[s] == w.occ[s])
  {
    assert Apply(w, c, u, disp) == Some(ApplyDissociation(w, c.part, c.loc, c.kind == CTdisViaElec));
    DissociationParts(w, c.part, c.loc, c.kind == CTdisViaElec);
    DissociationSites(w, c.part, c.loc, c.kind == CTdisViaElec);
  }

  /** The particle list after a dissociation: the carrier moved to `to`, its partner appended. */
  lemma DissociationParts(w: World, id: nat, to: nat, viaElec: bool)
    requires WellFormed(w) && id < |w.parts| && to < |w.occ|
    ensures var r := ApplyDissociation(w, id, to, viaElec);
      var p := w.parts[id];
      var n := |w.parts|;
      var carrier := if viaElec then Elec else Hole;
      var partnerSite := if viaElec then p.location else p.locationCTelec;
      |r.parts| == n + 1 &&
      r.parts[n] == NewParticle(partnerSite, Opposite(carrier)) &&
      r.parts[id].ptype == carrier && r.parts[id].location == to &&
      (forall k :: 0 <= k < n && k != id ==> r.parts[k] == w.parts[k])
  {
  }

  /** The sites after a dissociation: CT gone from both old sites, both carriers recorded, nothing else touched. */
  lemma DissociationSites(w: World, id: nat, to: nat, viaElec: bool)
    requires WellFormed(w) && id < |w.parts| && to < |w.occ|
    ensures var r := ApplyDissociation(w, id, to, viaElec);
      var p := w.parts[id];
      var n := |w.parts|;
      var carrier := if viaElec then Elec else Hole;
      var partnerSite := if viaElec then p.location else p.locationCTelec;
      r.occ[to].OccupiedBy(carrier) == Some(id) &&
      r.occ[partnerSite].OccupiedBy(Opposite(carrier)) == Some(n) &&
      !r.occ[p.location].IsOccupied(CT) && !r.occ[p.locationCTelec].IsOccupied(CT) &&
      (forall s :: 0 <= s < |w.occ| && s != p.location && s != p.locationCTelec && s != to ==> r.occ[s] == w.occ[s])
  {
  }

  // ---------------------------------------------------------------------
  // Enumerated events never fault

  /**
   * In a consistent world, every event the enumeration produces applies
   * without fault, whatever the clock reads: its particle exists, its target
   * site exists where it has one, and the partner an exciton formation looks
   * up is a particle of the list.
   */
  lemma {:induction false} EnumeratedEventApplies(w: World, re: RateEngine, e: Event, t: real, u: real,
                                                  disp: (nat, nat) -> Vec3)
    requires Consistent(w) && e in Enumerate(w, re)
    ensures Apply(w.(time := t), ChoiceOf(e), u, disp).Some?
  {
    var w' := w.(time := t);
    var c := ChoiceOf(e);
    EnumerateTags(w, re, e);
    var i := e.part;
    var p := w.parts[i];
    if p.ptype in {Elec, Hole} {
      ChargeEvents(w, re, i, e);
      if w.occ[e.loc].IsOccupied(Opposite(p.ptype)) {
        assert Carrier(c.kind) == p.ptype;
        var found := w.occ[e.loc].OccupiedBy(Opposite(p.ptype));
        assert found.Some?;
        assert w.occ[e.loc].occupied[Opposite(p.ptype).Index()];
        ExcitonFromCarrierEffect(w', c, u, disp);
      } else {
        HopEffect(w', c, u, disp);
      }
    } else if p.ptype in {Sing, Trip} {
      ExcitonEvents(w, re, i, e);
      if c.kind == Decay {
        DecayEffect(w', c, u, disp);
      } else if c.kind == NormalHop {
        HopEffect(w', c, u, disp);
      } else {
        ToCTEffect(w', c, u, disp);
      }
    } else {
      assert ParticleEvents(w, re, i) == CTParticleEvents(w, re, i, p.location, p.locationCTelec);
      CTMember(w, re, i, p.location, p.locationCTelec, e);
      if c.kind in {ExcitonFromElecCT, ExcitonFromHoleCT} {
        RecombinationEffect(w', c, u, disp);
      } else {
        DissociationEffect(w', c, u, disp);
      }
    }
  }

  /** Hence a step that picks an enumerated event applies it. */
  lemma {:induction false} StepAppliesEnumerated(w: World, re: RateEngine, e: Event, dt: real, u: real,
                                                 disp: (nat, nat) -> Vec3)
    requires Consistent(w) && e in Enumerate(w, re)
    ensures Apply(w.(time := w.time + dt), ChoiceOf(e), u, disp).Some?
    ensures Step(w, Some(ChoiceOf(e)), dt, u, disp) == Apply(w.(time := w.time + dt), ChoiceOf(e), u, disp).value
  {
    EnumeratedEventApplies(w, re, e, w.time + dt, u, disp);
  }

  /**
   * Whatever the threshold, the event selected from the enumeration of a
   * consistent world applies without fault, so the step does more than
   * advance the clock.
   */
  lemma {:induction false} ChosenEventApplies(w: World, re: RateEngine, thr: real, dt: real, u: real,
                                              disp: (nat, nat) -> Vec3)
    requires Consistent(w) && |Enumerate(w, re)| > 0
    ensures Chosen(Enumerate(w, re), thr).Some?
    ensures Apply(w.(time := w.time + dt), Chosen(Enumerate(w, re), thr).value, u, disp).Some?
    ensures Step(w, Chosen(Enumerate(w, re), thr), dt, u, disp) ==
      Apply(w.(time := w.time + dt), Chosen(Enumerate(w, re), thr).value, u, disp).value
  {
    var evs := Enumerate(w, re);
    var k := Select(Rates(evs), thr).value;
    assert evs[k] in evs;
    StepAppliesEnumerated(w, re, evs[k], dt, u, disp);
  }
}
