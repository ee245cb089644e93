/**
 * A lattice site: constant energies and coordinates, appended neighbour and
 * rate lists, per-channel occupancy, and the per-type total out-rates
 * (include/Site.h, src/Site.cpp).  The occupancy of one site is also given as
 * a value, Slot, on which the engine's specification is written.
 */
module Sites {
  import opened KmcTypes
  import opened Cumulative

  /** Occupancy of one site: a flag and a recorded occupant id for each of the five channels. */
  datatype Slot = Slot(occupied: seq<bool>, occupant: seq<nat>) {

    ghost predicate Valid()
    {
      |occupied| == 5 && |occupant| == 5
    }

    /** Whether channel t is occupied; no channel of a newly built site is. */
    function IsOccupied(t: PType): (r: bool)
      requires Valid()
      ensures this == Vacant ==> !r
    {
      occupied[t.Index()]
    }

    /** The occupant recorded on channel t; nothing when that channel is free. */
    function OccupiedBy(t: PType): (r: Option<nat>)
      requires Valid()
      ensures r.Some? <==> IsOccupied(t)
      ensures r.Some? ==> r.value == occupant[t.Index()]
    {
      if occupied[t.Index()] then Some(occupant[t.Index()]) else None
    }

    /** Raise the flag of channel t, leaving the recorded occupant as it was. */
    function Occupy(t: PType): (r: Slot)
      requires Valid()
      ensures r.Valid() && r.IsOccupied(t)
      ensures forall c: PType :: c != t ==> r.IsOccupied(c) == IsOccupied(c)
      ensures r.occupant == occupant
    {
      Slot(occupied[t.Index() := true], occupant)
    }

    /** Raise the flag of channel t and record id as its occupant. */
    function OccupyBy(t: PType, id: nat): (r: Slot)
      requires Valid()
      ensures r.Valid() && r.OccupiedBy(t) == Some(id)
      ensures forall c: PType :: c != t ==> r.OccupiedBy(c) == OccupiedBy(c)
    {
      Slot(occupied[t.Index() := true], occupant[t.Index() := id])
    }

    /** Lower the flag of channel t. */
    function Free(t: PType): (r: Slot)
      requires Valid()
      ensures r.Valid() && !r.IsOccupied(t)
      ensures forall c: PType :: c != t ==> r.OccupiedBy(c) == OccupiedBy(c)
      ensures r.occupant == occupant
    {
      Slot(occupied[t.Index() := false], occupant)
    }

    /** Move the occupancy of channel `from` to channel `to`, recording id there. */
    function Retype(from: PType, to: PType, id: nat): (r: Slot)
      requires Valid()
      ensures r.Valid() && r.OccupiedBy(to) == Some(id)
      ensures from != to ==> !r.IsOccupied(from)
      ensures forall c: PType :: c != from && c != to ==> r.OccupiedBy(c) == OccupiedBy(c)
    {
      Free(from).OccupyBy(to, id)
    }

    /** True when no channel is occupied. */
    predicate IsVacant()
      requires Valid()
      ensures IsVacant() <==> forall c: PType :: !IsOccupied(c)
    {
      !IsOccupied(Elec) && !IsOccupied(Hole) && !IsOccupied(Trip) && !IsOccupied(Sing) && !IsOccupied(CT)
    }
  }

  /** The occupancy of a newly built site. */
  const Vacant: Slot := Slot([false, false, false, false, false], [0, 0, 0, 0, 0])

  /** A newly built site is vacant: no channel reports an occupant. */
  lemma {:induction false} VacantIsVacant(t: PType)
    ensures Vacant.Valid() && Vacant.IsVacant()
    ensures Vacant.OccupiedBy(t) == None
  {
  }

  lemma {:induction false} OccupyIdempotent(s: Slot, t: PType)
    requires s.Valid()
    ensures s.Occupy(t).Occupy(t) == s.Occupy(t)
  {
  }

  lemma {:induction false} FreeIdempotent(s: Slot, t: PType)
    requires s.Valid()
    ensures s.Free(t).Free(t) == s.Free(t)
  {
  }

  /** Sum of a rate list, accumulated by a loop as Site::computeTotals does for each list. */
  method Accumulate(rates: seq<real>) returns (total: real)
    ensures total == Sum(rates)
  {
    total := 0.0;
    var i := 0;
    while i < |rates|
      invariant 0 <= i <= |rates|
      invariant total == Sum(rates[..i])
    {
      assert rates[..i + 1][..i] == rates[..i];
      total := total + rates[i];
      i := i + 1;
    }
    assert rates[..|rates|] == rates;
  }

  class Site {
    const energies: seq<real>
    const coord: Vec3
    /** The site's place in the list of sites; it lets distinctness be stated one site at a time. */
    ghost const index: nat
    var sRNeighbours: seq<nat>
    var lRNeighbours: seq<nat>
    /** Short-range rate lists of the electron, hole and triplet channels, in that order. */
    var sRRates: seq<seq<real>>
    var lRRates: seq<real>
    var occupied: seq<bool>
    var occupant: seq<nat>
    /** Total out-rates of the electron, hole, triplet and singlet channels, in that order. */
    var totalRates: seq<real>

    ghost predicate Valid()
      reads this
    {
      |sRRates| == 3 && |occupied| == 5 && |occupant| == 5 && |totalRates| == 4
    }

    function Occupancy(): Slot
      reads this
    {
      Slot(occupied, occupant)
    }

    /** The energies are kept as given, even when there are not four of them. */
    constructor (coord: Vec3, energies: seq<real>, ghost index: nat)
      ensures Valid() && this.coord == coord && this.energies == energies && this.index == index
      ensures sRNeighbours == [] && lRNeighbours == []
      ensures sRRates == [[], [], []] && lRRates == []
      ensures Occupancy() == Vacant && totalRates == [0.0, 0.0, 0.0, 0.0]
    {
      this.coord := coord;
      this.energies := energies;
      this.index := index;
      sRNeighbours, lRNeighbours := [], [];
      sRRates, lRRates := [[], [], []], [];
      occupied, occupant := Vacant.occupied, Vacant.occupant;
      totalRates := [0.0, 0.0, 0.0, 0.0];
    }

    function GetEnergy(t: PType): (e: real)
      requires t.Index() < |energies|
      ensures e == energies[t.Index()]
    {
      energies[t.Index()]
    }

    method AddSRNeighbour(nb: nat)
      modifies this`sRNeighbours
      ensures sRNeighbours == old(sRNeighbours) + [nb]
    {
      sRNeighbours := sRNeighbours + [nb];
    }

    method AddLRNeighbour(nb: nat)
      modifies this`lRNeighbours
      ensures lRNeighbours == old(lRNeighbours) + [nb]
    {
      lRNeighbours := lRNeighbours + [nb];
    }

    /** Only the electron, hole and triplet channels have a short-range rate list. */
    method AddSRRate(t: PType, rate: real)
      requires Valid() && t.Index() < 3
      modifies this`sRRates
      ensures Valid()
      ensures sRRates == old(sRRates)[t.Index() := old(sRRates)[t.Index()] + [rate]]
    {
      sRRates := sRRates[t.Index() := sRRates[t.Index()] + [rate]];
    }

    method AddLRRate(rate: real)
      modifies this`lRRates
      ensures lRRates == old(lRRates) + [rate]
    {
      lRRates := lRRates + [rate];
    }

    /** The stored flag of channel t. */
    function IsOccupied(t: PType): (r: bool)
      reads this
      requires Valid()
      ensures r == occupied[t.Index()]
    {
      Occupancy().IsOccupied(t)
    }

    /** The occupant of channel t: its recorded id when the channel is occupied, nothing when it is free. */
    function IsOccupiedBy(t: PType): (r: Option<nat>)
      reads this
      requires Valid()
      ensures r.Some? <==> IsOccupied(t)
      ensures r.Some? ==> r.value == occupant[t.Index()]
    {
      Occupancy().OccupiedBy(t)
    }

    method SetOccupied(t: PType)
      requires Valid()
      modifies this`occupied
      ensures Valid() && Occupancy() == old(Occupancy()).Occupy(t)
    {
      occupied := occupied[t.Index() := true];
    }

    method SetOccupiedBy(t: PType, id: nat)
      requires Valid()
      modifies this`occupied, this`occupant
      ensures Valid() && Occupancy() == old(Occupancy()).OccupyBy(t, id)
    {
      occupied, occupant := occupied[t.Index() := true], occupant[t.Index() := id];
    }

    method FreeSite(t: PType)
      requires Valid()
      modifies this`occupied
      ensures Valid() && Occupancy() == old(Occupancy()).Free(t)
    {
      occupied := occupied[t.Index() := false];
    }

    method ChangeOccupied(from: PType, to: PType, id: nat)
      requires Valid()
      modifies this`occupied, this`occupant
      ensures Valid() && Occupancy() == old(Occupancy()).Retype(from, to, id)
    {
      FreeSite(from);
      SetOccupiedBy(to, id);
    }

    /** Each total out-rate becomes the sum of its rate list; only totalRates changes. */
    method ComputeTotals()
      requires Valid()
      modifies this`totalRates
      ensures Valid()
      ensures totalRates == [Sum(sRRates[Elec.Index()]), Sum(sRRates[Hole.Index()]),
                             Sum(sRRates[Trip.Index()]), Sum(lRRates)]
    {
      var e := Accumulate(sRRates[Elec.Index()]);
      var h := Accumulate(sRRates[Hole.Index()]);
      var t := Accumulate(sRRates[Trip.Index()]);
      var s := Accumulate(lRRates);
      totalRates := [e, h, t, s];
    }

    function GetTotalOutRate(t: PType): (r: real)
      reads this
      requires Valid() && t.Index() < 4
      ensures r == totalRates[t.Index()]
    {
      totalRates[t.Index()]
    }
  }

  // Views of a list of sites, as values, and updates of one site of the list.

  /** Each site sits at its own index, so no site appears twice. */
  ghost predicate Distinct(sites: seq<Site>)
  {
    forall a :: 0 <= a < |sites| ==> sites[a].index == a
  }

  ghost predicate AllValid(sites: seq<Site>)
    reads sites
  {
    forall a :: 0 <= a < |sites| ==> sites[a].Valid()
  }

  ghost function OccTable(sites: seq<Site>): (r: seq<Slot>)
    reads sites
    ensures |r| == |sites|
  {
    seq(|sites|, a requires 0 <= a < |sites| reads sites => sites[a].Occupancy())
  }

  ghost function SRTable(sites: seq<Site>): (r: seq<seq<nat>>)
    reads sites
    ensures |r| == |sites|
  {
    seq(|sites|, a requires 0 <= a < |sites| reads sites => sites[a].sRNeighbours)
  }

  ghost function LRTable(sites: seq<Site>): (r: seq<seq<nat>>)
    reads sites
    ensures |r| == |sites|
  {
    seq(|sites|, a requires 0 <= a < |sites| reads sites => sites[a].lRNeighbours)
  }

  function Coords(sites: seq<Site>): (r: seq<Vec3>)
    ensures |r| == |sites|
  {
    seq(|sites|, a requires 0 <= a < |sites| => sites[a].coord)
  }

  method OccupyAt(sites: seq<Site>, k: nat, t: PType, id: nat)
    requires Distinct(sites) && AllValid(sites) && k < |sites|
    modifies sites[k]
    ensures AllValid(sites)
    ensures OccTable(sites) == old(OccTable(sites))[k := old(OccTable(sites))[k].OccupyBy(t, id)]
    ensures SRTable(sites) == old(SRTable(sites)) && LRTable(sites) == old(LRTable(sites))
  {
    sites[k].SetOccupiedBy(t, id);
  }

  method FreeAt(sites: seq<Site>, k: nat, t: PType)
    requires Distinct(sites) && AllValid(sites) && k < |sites|
    modifies sites[k]
    ensures AllValid(sites)
    ensures OccTable(sites) == old(OccTable(sites))[k := old(OccTable(sites))[k].Free(t)]
    ensures SRTable(sites) == old(SRTable(sites)) && LRTable(sites) == old(LRTable(sites))
  {
    sites[k].FreeSite(t);
  }

  method RetypeAt(sites: seq<Site>, k: nat, from: PType, to: PType, id: nat)
    requires Distinct(sites) && AllValid(sites) && k < |sites|
    modifies sites[k]
    ensures AllValid(sites)
    ensures OccTable(sites) == old(OccTable(sites))[k := old(OccTable(sites))[k].Retype(from, to, id)]
    ensures SRTable(sites) == old(SRTable(sites)) && LRTable(sites) == old(LRTable(sites))
  {
    sites[k].ChangeOccupied(from, to, id);
  }

  method AddSRAt(sites: seq<Site>, k: nat, nb: nat)
    requires Distinct(sites) && AllValid(sites) && k < |sites|
    modifies sites[k]
    ensures AllValid(sites)
    ensures SRTable(sites) == old(SRTable(sites))[k := old(SRTable(sites))[k] + [nb]]
    ensures OccTable(sites) == old(OccTable(sites)) && LRTable(sites) == old(LRTable(sites))
    ensures forall a :: 0 <= a < |sites| ==>
      sites[a].sRRates == old(sites[a].sRRates) && sites[a].lRRates == old(sites[a].lRRates)
  {
    sites[k].AddSRNeighbour(nb);
  }

  method AddLRAt(sites: seq<Site>, k: nat, nb: nat)
    requires Distinct(sites) && AllValid(sites) && k < |sites|
    modifies sites[k]
    ensures AllValid(sites)
    ensures LRTable(sites) == old(LRTable(sites))[k := old(LRTable(sites))[k] + [nb]]
    ensures OccTable(sites) == old(OccTable(sites)) && SRTable(sites) == old(SRTable(sites))
    ensures forall a :: 0 <= a < |sites| ==>
      sites[a].sRRates == old(sites[a].sRRates) && sites[a].lRRates == old(sites[a].lRRates)
  {
    sites[k].AddLRNeighbour(nb);
  }

  /** Record i and j as short-range neighbours of each other, i's entry first. */
  method LinkSRAt(sites: seq<Site>, i: nat, j: nat)
    requires Distinct(sites) && AllValid(sites) && i < j < |sites|
    modifies sites[i], sites[j]
    ensures AllValid(sites)
    ensures var t := old(SRTable(sites)); SRTable(sites) == t[i := t[i] + [j]][j := t[j] + [i]]
    ensures OccTable(sites) == old(OccTable(sites)) && LRTable(sites) == old(LRTable(sites))
  {
    AddSRAt(sites, i, j);
    AddSRAt(sites, j, i);
  }

  /** Record i and j as long-range neighbours of each other, i's entry first. */
  method LinkLRAt(sites: seq<Site>, i: nat, j: nat)
    requires Distinct(sites) && AllValid(sites) && i < j < |sites|
    modifies sites[i], sites[j]
    ensures AllValid(sites)
    ensures var t := old(LRTable(sites)); LRTable(sites) == t[i := t[i] + [j]][j := t[j] + [i]]
    ensures OccTable(sites) == old(OccTable(sites)) && SRTable(sites) == old(SRTable(sites))
  {
    AddLRAt(sites, i, j);
    AddLRAt(sites, j, i);
  }
}
