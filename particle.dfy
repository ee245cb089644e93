/**
 * A particle of the simulation: its type, the site it sits on (the hole's
 * site for a CT state), the electron's site of a CT state, the displacement
 * it has travelled, and whether it is still alive. The engine (src/KmcRun.cpp)
 * changes particles only through the operations below; the particle class
 * itself is not part of this model, so they are defined from those calls.
 */
module Particles {
  import opened KmcTypes

  datatype Particle = Particle(
    ptype: PType,
    location: nat,
    locationCTelec: nat,
    drTravelled: Vec3,
    alive: bool,
    deathTime: real)

  /** A newly created particle of type t on site loc: alive, at the origin of its travel. */
  function NewParticle(loc: nat, t: PType): (r: Particle)
    ensures r.ptype == t && r.location == loc && r.alive
    ensures r.drTravelled == Origin
  {
    Particle(t, loc, loc, Origin, true, 0.0)
  }

  /** Move to site loc, adding the displacement of the move; nothing else about the particle changes. */
  function JumpTo(p: Particle, loc: nat, dr: Vec3): (r: Particle)
    ensures r.location == loc && r.drTravelled == p.drTravelled.Plus(dr)
    ensures r.ptype == p.ptype && r.alive == p.alive && r.locationCTelec == p.locationCTelec && r.deathTime == p.deathTime
  {
    p.(location := loc, drTravelled := p.drTravelled.Plus(dr))
  }

  /** The exciton a uniform draw u makes: a triplet below 0.75 (three chances in four), a singlet otherwise. */
  function ExcitonType(u: real): (r: PType)
    ensures r == Trip || r == Sing
    ensures r == Trip <==> u < 0.75
  {
    if u < 0.75 then Trip else Sing
  }

  /** Become an exciton of the type the draw u makes, staying where it is. */
  function MakeExciton(p: Particle, u: real): (r: Particle)
    ensures r.ptype == Trip || r.ptype == Sing
    ensures r == p.(ptype := r.ptype)
  {
    p.(ptype := ExcitonType(u))
  }

  /** Become a CT state with the hole on holeLoc and the electron on elecLoc. */
  function MakeCTState(p: Particle, holeLoc: nat, elecLoc: nat): (r: Particle)
    ensures r.ptype == CT && r.location == holeLoc && r.locationCTelec == elecLoc
    ensures r.alive == p.alive && r.drTravelled == p.drTravelled && r.deathTime == p.deathTime
  {
    p.(ptype := CT, location := holeLoc, locationCTelec := elecLoc)
  }

  /** Become an electron on site loc; the rest of the particle is kept. */
  function MakeElectron(p: Particle, loc: nat): (r: Particle)
    ensures r.ptype == Elec && r.location == loc
    ensures r.alive == p.alive && r.drTravelled == p.drTravelled && r.locationCTelec == p.locationCTelec && r.deathTime == p.deathTime
  {
    p.(ptype := Elec, location := loc)
  }

  /** Become a hole on site loc; the rest of the particle is kept. */
  function MakeHole(p: Particle, loc: nat): (r: Particle)
    ensures r.ptype == Hole && r.location == loc
    ensures r.alive == p.alive && r.drTravelled == p.drTravelled && r.locationCTelec == p.locationCTelec && r.deathTime == p.deathTime
  {
    p.(ptype := Hole, location := loc)
  }

  /** The particle dies at `time`; its type and sites are kept. */
  function Kill(p: Particle, time: real): (r: Particle)
    ensures !r.alive && r.deathTime == time
    ensures r.ptype == p.ptype && r.location == p.location && r.locationCTelec == p.locationCTelec
    ensures r.drTravelled == p.drTravelled
  {
    p.(alive := false, deathTime := time)
  }

  /** Move to site loc without recording a displacement. */
  function SetLocation(p: Particle, loc: nat): (r: Particle)
    ensures r.location == loc
    ensures r.ptype == p.ptype && r.alive == p.alive && r.drTravelled == p.drTravelled
    ensures r.locationCTelec == p.locationCTelec && r.deathTime == p.deathTime
  {
    p.(location := loc)
  }

  /** A jump followed by another is one jump to the second site over the summed displacement. */
  lemma {:induction false} JumpToTwice(p: Particle, a: nat, b: nat, d1: Vec3, d2: Vec3)
    ensures JumpTo(JumpTo(p, a, d1), b, d2) == JumpTo(p, b, d1.Plus(d2))
  {
  }
}
