# Kinetic Monte Carlo engine for optoelectronic processes — a Dafny model

This project is a Dafny model of the core of a kinetic Monte Carlo (KMC) simulator. The simulator moves charge carriers and excitons over a lattice of sites: electrons, holes, singlet and triplet excitons, and charge-transfer (CT) states. The model proves properties of five parts of it:

- **The event list** (`EventList`, class `NextEventList`). It has four parallel buffers of candidate events: rate, transition kind, particle and target site. It also keeps a count and a running total rate. Resetting only rewinds the count. `GetNextEvent` does inverse-CDF selection: it takes the first buffered event whose cumulative rate reaches `total * u`. The scan itself lives in `Cumulative`.
- **The sites** (`Sites`, class `Site`). A site holds constant energies and coordinates, neighbour and rate lists that only grow, a per-channel occupancy, and per-type total out-rates. The occupancy of one site is also a value, `Slot`, on which the engine's specification is written.
- **The neighbour table read from pair records** (`Neighbours`, class `Neighbourlist`). Each record becomes two directed entries with the ids swapped and the displacement negated.
- **The multi-particle engine** (`Kmc`, class `KmcRun`). It is proved against value-level descriptions of the same steps:
  - `PairScan` for the neighbour scan of `initializeNeighbours`;
  - `Placement` for `initializeParticles`;
  - `Engine` for the event enumeration of `computeNextEventRates`;
  - `Transitions` for the state machine of `executeNextEvent`.
- **The older single-carrier loop** (`Single`, class `SingleRun`). One pair sweep builds neighbour and rate lists in lockstep. One electron is placed. Each step moves the first particle whose running sum of electron out-rates reaches `total * u`.

Site lists are `seq<Site>` fields of the engine classes, and the particle list is a `seq<Particle>` field. Each class exposes a ghost view of its state as a value: `KmcRun.State()` is a `World`, `SingleRun.State()` is a `Lattice`, `NextEventList.Contents()` is a sequence of `Event`s. Every state-changing method is specified against that view. Parts of the source that cannot be modelled as they stand become inputs:

- **Random draws** are method parameters: `dt`, `u`, `uExc` and `uHop`, and a finite sequence of site draws.
- **Rate formulas** are function-valued fields. `Engine.RateEngine` holds the laws `millerAbrahams`, `millerAbrahamsGEN`, `forster`, `decay`, `millerAbrahamsCT` and `millerAbrahamsCT_DIS`. `Single` holds `millerAbrahams` and `dexter`, and `Neighbours.RateModel` holds the Marcus rate.
- **Geometry** is also given: the periodic-boundary displacement and its norm.

Each site has five occupancy channels: `elec`, `hole`, `trip`, `sing` and `CT`, as in include/EnumNames.h. Each channel also records an occupant id, as the engine's `setOccupied(type, id, time)` and `isOccupiedBy` need. The `Site` header shown has four flags (include/Site.h:34). The engine in src/KmcRun.cpp uses a fifth, `CT`, and the model follows the engine. include/Particle.h has only the constructor, `Particle(loc, type)`, and getters. The particle mutators `jumpTo`, `makeExciton`, `makeCTState`, `makeElectron`, `makeHole`, `killParticle` and `setLocation` are not part of this model's sources. They are defined in `Particles` from their call sites in src/KmcRun.cpp:263-355.

## Model

| member | source | states |
|---|---|---|
| Cumulative.FirstAtLeast | src/NextEventList.cpp:19-23 | the running scan from i stops at the first k whose prefix sum reaches the threshold, or at the end; no earlier prefix reaches it |
| Cumulative.Select | src/NextEventList.cpp:15-25 | the selection with a defined fall-through: None exactly for an empty list; otherwise the first index whose prefix sum reaches the threshold, or the last index when none does |
| Cumulative.Crossing | src/NextEventList.cpp:19-23 | the scan as written, over whatever sequence it is given: Some(k) exactly at the first prefix sum reaching the threshold; None when no prefix reaches it (the missing return) |
| Cumulative.CrossingIsSelect | src/NextEventList.cpp:17-23 | for nonnegative rates and a threshold no larger than their sum, the first crossing exists and equals Select |
| Cumulative.CrossingExists | src/NextEventList.cpp:17-23 | for nonnegative rates and a threshold at most the total, the scan stops inside the list |
| Cumulative.SumSnoc | src/Site.cpp:21-24 | the left-to-right sum of s + [x] is the sum of s plus x |
| Cumulative.Sum | src/Site.cpp:19-40 | the left-to-right total of a rate list, as the accumulation loops of computeTotals build it; nonnegative rates give a nonnegative total |
| Cumulative.PrefixSumMonotone | src/NextEventList.cpp:19-21 | with nonnegative rates, a longer prefix has a sum at least as large |
| Cumulative.ScaledThreshold | src/NextEventList.cpp:17 | total * u lies in [0, total] for u in [0, 1], and is positive when both are |
| Cumulative.ScaleMonotone | src/NextEventList.cpp:17 | the threshold total * u is monotone in u |
| Cumulative.SelectAtZero | src/NextEventList.cpp:17-21 | with u = 0 the selection is index 0, even when that rate is 0 |
| Cumulative.SelectedInterval | src/NextEventList.cpp:19-22 | for a positive threshold within the total, the selected k has prefix sum before k below the threshold and with k at or above it |
| Cumulative.SelectInInterval | src/NextEventList.cpp:19-22 | conversely, any k whose interval contains the threshold is the selected index |
| Cumulative.SelectedIsPositiveAt | src/NextEventList.cpp:19-22 | a positive threshold within the total selects an event of strictly positive rate |
| Cumulative.SelectedIsPositive | src/NextEventList.cpp:17-22 | with total > 0 and 0 < u <= 1, the event selected at total * u has a strictly positive rate |
| Cumulative.SelectMonotone | src/NextEventList.cpp:16-22 | the selected index never decreases as the threshold grows |
| EventList.Rates | include/NextEventList.h:40 | the rate column of the buffered events, one per event |
| EventList.TotalRate | include/NextEventList.h:30 | the total rate of a list of events is the sum of its rate column, and is never negative when no rate is |
| EventList.Chosen | src/NextEventList.cpp:15-25 | the selection on an event sequence is None exactly when there is no event |
| EventList.ChosenHasPositiveRate | src/NextEventList.cpp:17-22 | with a positive total and 0 < u <= 1, the chosen event has a strictly positive rate |
| EventList.ChosenAtZero | src/NextEventList.cpp:17-21 | with u = 0 the first buffered event is chosen |
| EventList.ChosenMonotone | src/NextEventList.cpp:16-22 | the chosen index is monotone in the uniform draw |
| EventList.Resize | include/NextEventList.h:22-25 | std::vector::resize: new length n, old entries kept, new ones filled |
| EventList.NextEventList.Contents | include/NextEventList.h:38-44 | the buffered events are the first cPos rows of the four parallel buffers |
| EventList.NextEventList.constructor | include/NextEventList.h:38-44 | an empty list with total 0, empty buffers and maxSize 10 |
| EventList.NextEventList.InitializeListSize | include/NextEventList.h:20-26 | maxSize becomes size and each of the four buffers is resized to it as std::vector::resize does; count and total stay; with size at least the count the events survive and the list stays valid, and with a smaller size the count points past the truncated buffers and the list is no longer valid |
| EventList.NextEventList.ResizeVectors | include/NextEventList.h:45 | the buffers grow, stay equal in length, and keep the events, count and total |
| EventList.NextEventList.PushNextEvent | include/NextEventList.h:28 | the event is appended after the buffered ones and its rate added to the total, growing the buffers when full |
| EventList.NextEventList.ResetNextEventList | include/NextEventList.h:29 | no events and total 0, with the four buffers and maxSize untouched |
| EventList.NextEventList.GetTotalRate | include/NextEventList.h:30 | the total is the sum of the buffered rates |
| EventList.NextEventList.GetNrOfEvents | include/NextEventList.h:31 | the count is the number of buffered events |
| EventList.NextEventList.GetNextEvent | src/NextEventList.cpp:15-25 | the result is the selection over the buffered events only, at total * u; None for an empty list; the list is not changed |
| EventList.RunningScan | src/NextEventList.cpp:16-23 | the running-sum loop returns the index Select specifies |
| EventList.StaleEventAfterReset | src/NextEventList.cpp:19-23 | scanning the storage after a reset crosses at index 0 and returns an old event, while the reset list holds none |
| Sites.Slot.OccupiedBy | src/KmcRun.cpp:276 | a channel reports an occupant exactly when it is occupied, namely the recorded id |
| Sites.Slot.IsOccupied | include/Site.h:19 | the flag of channel t; no channel of a newly built site reports occupied |
| Sites.Slot.IsVacant | src/KmcRun.cpp:183-184 | the five-channel vacancy test holds exactly when no channel of any type is occupied |
| Sites.VacantIsVacant | include/Site.h:34 | a newly built site is vacant and no channel reports an occupant |
| Sites.Slot.Occupy | include/Site.h:20 | the channel becomes occupied; other channels and all ids unchanged |
| Sites.Slot.OccupyBy | src/KmcRun.cpp:266 | the channel becomes occupied by id; the other channels report what they did |
| Sites.Slot.Free | include/Site.h:21 | the channel becomes free; the other channels and the ids unchanged |
| Sites.Slot.Retype | src/KmcRun.cpp:277 | channel `to` becomes occupied by id, `from` is freed when different, others unchanged |
| Sites.OccupyIdempotent | include/Site.h:20 | occupying a channel twice is occupying it once |
| Sites.FreeIdempotent | include/Site.h:21 | freeing a channel twice is freeing it once |
| Sites.Accumulate | src/Site.cpp:20-24 | the accumulating loop returns the sum of the rate list |
| Sites.Site.constructor | src/Site.cpp:7-12 | given coordinate and energies kept (whatever their count), empty lists, all channels vacant, totals 0 |
| Sites.Site.GetEnergy | include/Site.h:12 | the energy stored for the type at construction |
| Sites.Site.AddSRNeighbour | include/Site.h:15 | appends one id to the short-range list |
| Sites.Site.AddLRNeighbour | include/Site.h:16 | appends one id to the long-range list |
| Sites.Site.AddSRRate | include/Site.h:17 | appends the rate to the list of type t (elec, hole or trip) only |
| Sites.Site.AddLRRate | include/Site.h:18 | appends the rate to the long-range rate list |
| Sites.Site.SetOccupied | include/Site.h:20 | occupancy becomes old occupancy with channel t occupied |
| Sites.Site.SetOccupiedBy | src/KmcRun.cpp:266 | occupancy becomes old occupancy with channel t occupied by id |
| Sites.Site.FreeSite | include/Site.h:21 | occupancy becomes old occupancy with channel t freed |
| Sites.Site.ChangeOccupied | src/KmcRun.cpp:277 | occupancy becomes old occupancy with channel from handed to channel to, recording id |
| Sites.Site.ComputeTotals | src/Site.cpp:19-40 | totals become the sums of the elec, hole and trip short-range rate lists and of the long-range list |
| Sites.Site.GetTotalOutRate | include/Site.h:25 | the stored total of the type |
| Sites.Site.IsOccupied | include/Site.h:19 | reads the stored flag of channel t |
| Sites.Site.IsOccupiedBy | src/KmcRun.cpp:276 | an occupant is reported exactly when channel t is occupied, and it is the id recorded there |
| Sites.OccTable | include/Site.h:34 | the occupancy of every site, one per site |
| Sites.OccupyAt | src/KmcRun.cpp:266 | only site k's occupancy changes, by OccupyBy; neighbour tables unchanged |
| Sites.FreeAt | src/KmcRun.cpp:265 | only site k's occupancy changes, by Free; neighbour tables unchanged |
| Sites.RetypeAt | src/KmcRun.cpp:284 | only site k's occupancy changes, by Retype; neighbour tables unchanged |
| Sites.AddSRAt | include/Site.h:15 | only site k's short-range list grows by one id; rates, occupancy and other lists unchanged |
| Sites.AddLRAt | include/Site.h:16 | only site k's long-range list grows by one id; rates, occupancy and other lists unchanged |
| Sites.LinkSRAt | src/KmcRun.cpp:88-89 | i gains j and j gains i in the short-range table, nothing else changes |
| Sites.LinkLRAt | src/KmcRun.cpp:85-86 | i gains j and j gains i in the long-range table, nothing else changes |
| Neighbours.SRPairs | src/Neighbourlist.cpp:18-37 | one directed pair of entries per short-range record, in record order |
| Neighbours.LRPairs | src/Neighbourlist.cpp:60-73 | one directed pair of entries per long-range record, in record order |
| Neighbours.RateModel.Rate | src/Neighbourlist.cpp:24-26 | the Marcus law applied with the pair's reorganisation and energy difference; a nonnegative law gives a nonnegative rate |
| Neighbours.SRPair | src/Neighbourlist.cpp:19-37 | one short-range record gives an entry toward id2 in list id1 with dr and one toward id1 in list id2 with -dr, neither carrying a singlet rate |
| Neighbours.LRPair | src/Neighbourlist.cpp:61-73 | one long-range record gives an entry toward id2 in list id1 with dr and one toward id1 in list id2 with -dr, neither carrying an electron or hole rate |
| Neighbours.Empty | include/Neighbourlist.h:10-13 | n empty lists |
| Neighbours.Append | src/Neighbourlist.cpp:38-39 | one record's two entries appended to the lists of id1 and id2; the number of lists stays |
| Neighbours.AddAll | src/Neighbourlist.cpp:18-40 | all records appended in order; the number of lists stays numberOfSites |
| Neighbours.AddAllAt | src/Neighbourlist.cpp:38-39 | after all records, site s's list is its old list followed by its entries from each record, in record order |
| Neighbours.AddAllSize | src/Neighbourlist.cpp:38-39 | the table grows by exactly two entries per record |
| Neighbours.ContributionsMember | src/Neighbourlist.cpp:38-39 | an entry is in site s's additions exactly when some record contributes it |
| Neighbours.MirrorEntry | src/Neighbourlist.cpp:20-23 | if list s holds {nb = j, dr} then list j holds {nb = s, -dr} |
| Neighbours.PairMirror | src/Neighbourlist.cpp:20-23 | each record's two entries are each other's mirror |
| Neighbours.EntryOrigin | src/Neighbourlist.cpp:38-39 | every entry of list s is the forward entry of a record with id1 = s or the backward entry of one with id2 = s |
| Neighbours.SRPairsMirrored | src/Neighbourlist.cpp:19-23 | every short-range record yields mirrored entries |
| Neighbours.LRPairsMirrored | src/Neighbourlist.cpp:61-65 | every long-range record yields mirrored entries |
| Neighbours.SREntryRates | src/Neighbourlist.cpp:24-37 | a short-range entry leaves rate_s at 0, and its electron and hole rates are the Marcus rates of its own record in its own direction |
| Neighbours.SRPairRates | src/Neighbourlist.cpp:24-37 | forward rates use (id1, id2, dx) and backward ones (id2, id1, -dx) with the same coupling |
| Neighbours.LREntryRates | src/Neighbourlist.cpp:67-73 | a long-range entry leaves rate_e and rate_h at 0, and its singlet rate is its record's Marcus rate |
| Neighbours.LRPairRates | src/Neighbourlist.cpp:67-73 | forward and backward singlet rates use the swapped ids and negated dx |
| Neighbours.Neighbourlist.constructor | include/Neighbourlist.h:10-13 | exactly numberOfSites empty short-range and long-range lists |
| Neighbours.Neighbourlist.SetupShortRangeNeighbours | src/Neighbourlist.cpp:18-40 | the short-range table gains every record's two entries, in file order |
| Neighbours.Neighbourlist.AddSRRecord | src/Neighbourlist.cpp:19-39 | one record appends its forward entry to id1's list and its backward entry to id2's |
| Neighbours.Neighbourlist.SetupLongRangeNeighbours | src/Neighbourlist.cpp:60-77 | the long-range table gains every record's two entries, in file order |
| Neighbours.Neighbourlist.AddLRRecord | src/Neighbourlist.cpp:61-76 | one record appends its two mirrored entries |
| Neighbours.Neighbourlist.GetSRNeighbours | include/Neighbourlist.h:19-21 | the stored short-range list of the site |
| Neighbours.Neighbourlist.GetLRNeighbours | include/Neighbourlist.h:22-24 | the stored long-range list of the site |
| PairScan.NearList | src/KmcRun.cpp:80-93 | the sites a scan links to s are below the site count and never s itself |
| PairScan.NearListMember | src/KmcRun.cpp:80-93 | k is linked to s exactly when k is another site and the pair (min, max) is near |
| PairScan.NearListIncreasing | src/KmcRun.cpp:80-81 | each site's list comes out in increasing order |
| PairScan.NearListSymmetric | src/KmcRun.cpp:84-90 | k is in s's list exactly when s is in k's |
| PairScan.NearListIrreflexive | src/KmcRun.cpp:81 | no site is its own neighbour |
| PairScan.NearListWithin | src/KmcRun.cpp:84-90 | every short-range neighbour is also a long-range neighbour |
| PairScan.Link | src/KmcRun.cpp:84-90 | one pair appended both ways when near; the number of lists stays |
| PairScan.ScanUpTo | src/KmcRun.cpp:80-92 | the lists part way through the double loop, one per site |
| PairScan.Rows | src/KmcRun.cpp:80-93 | the lists after the first i rows of the double loop, one per site |
| PairScan.ScanIsPartial | src/KmcRun.cpp:80-93 | part way through the double loop, each list holds the near pairs scanned so far |
| PairScan.RowsAreNearLists | src/KmcRun.cpp:80-93 | after the scan, site s's list is its old list followed by NearList of s |
| Placement.NextFree | src/KmcRun.cpp:102-105 | the redraw loop ends at the first draw, from the current one on, whose site is free for t; None when no remaining draw is |
| Placement.FreeFor | src/KmcRun.cpp:103-136 | the redraw test passes exactly when no channel of the type being placed, nor of any type placed before it, is occupied |
| Placement.PlaceAt | src/KmcRun.cpp:106-109 | placing a particle on a site keeps every site's occupancy valid and the number of sites |
| Placement.PlaceStep | src/KmcRun.cpp:102-109 | one redraw-and-place keeps the occupancy valid and the number of sites |
| Placement.PlaceType | src/KmcRun.cpp:101-110 | one type's loop keeps the occupancy valid and the number of sites |
| Placement.PlaceAll | src/KmcRun.cpp:96-144 | the four loops keep the occupancy valid and the number of sites |
| Placement.PlaceStepOutcome | src/KmcRun.cpp:101-110 | placing one particle either appends exactly one particle of type t, or fails with the draws used up and the particles unchanged |
| Placement.PlaceTypeOutcome | src/KmcRun.cpp:101-110 | one placement loop appends `count` particles of type t when it succeeds, keeps the earlier particles, and fails only when the draws run out |
| Placement.PlaceAtKeeps | src/KmcRun.cpp:106-109 | placing on a free site records the new particle, keeps earlier ones recorded and keeps all apart |
| Placement.PlaceStepKeeps | src/KmcRun.cpp:102-109 | one placement keeps every particle recorded on its site and apart |
| Placement.PlaceTypeKeeps | src/KmcRun.cpp:101-110 | one type's loop keeps every particle recorded and apart |
| Placement.PlaceAllSpec | src/KmcRun.cpp:96-144 | electrons, holes, triplets, singlets in that order: the types come out as counts[0..3] repeats, each new particle k is recorded with id k on its type's channel, no two share a site, and failure means the draws ran out |
| Placement.PlaceStepConsistent | src/KmcRun.cpp:102-109 | one placement keeps the world consistent and the running id within the particle list |
| Placement.PlaceTypeConsistent | src/KmcRun.cpp:101-110 | one type's loop keeps the world consistent |
| Placement.InitialPlacement | src/KmcRun.cpp:96-144 | from an empty list, particle k's site has k's channel occupied by id k, and no other particle is on that site |
| Placement.PlaceAllConsistent | src/KmcRun.cpp:96-144 | placement keeps the world consistent: recorded occupants index the particle list |
| Engine.NbEvents | src/KmcRun.cpp:155-240 | one neighbour yields at most two events, all for that particle and that neighbour |
| Engine.ScanEvents | src/KmcRun.cpp:155-240 | every event of a neighbour loop is tagged with the particle's index |
| Engine.ParticleEvents | src/KmcRun.cpp:153-242 | every event of a particle is tagged with its index |
| Engine.HopList | src/KmcRun.cpp:182-203 | the list an exciton hops over, long range for a singlet and short range for a triplet, holds only site indices |
| Engine.ExcitonParticleEvents | src/KmcRun.cpp:180-220 | every event of a singlet or triplet is tagged with its index, and its decay event is among them |
| Engine.CTParticleEvents | src/KmcRun.cpp:222-240 | every event of a CT state is tagged with its index, and the two recombinations come first, via the electron and then via the hole |
| Engine.ScanMember | src/KmcRun.cpp:155-165 | an event is in a loop's output exactly when some listed neighbour yields it |
| Engine.ScanCount | src/KmcRun.cpp:182-240 | each kind a free-neighbour loop produces is produced once per vacant neighbour; other kinds never |
| Engine.NbCount | src/KmcRun.cpp:183-197 | a free-neighbour test yields one event of each of its kinds for a vacant neighbour, none otherwise |
| Engine.EnumMember | src/KmcRun.cpp:150-152 | an event is enumerated exactly when it is an event of some living particle |
| Engine.EnumerateTags | src/KmcRun.cpp:150-152 | every enumerated event names a living particle of the list and is one of that particle's events |
| Engine.EnumUpTo | src/KmcRun.cpp:150-152 | the events pushed for the first n particles name only particles below n |
| Engine.Enumerate | src/KmcRun.cpp:148-152 | the event list computeNextEventRates builds names only particles of the list; ComputeNextEventRates is proved equal to it |
| Engine.ChargeEvents | src/KmcRun.cpp:154-179 | a carrier's events: for each short-range neighbour free of its own type, CT and excitons, excitonFromElec or excitonFromHole toward an opposite carrier, else normalhop, with the matching rates |
| Engine.ExcitonEvents | src/KmcRun.cpp:180-221 | an exciton's events: hops to vacant neighbours on the long-range (singlet) or short-range (triplet) list, its decay, and both CT events toward each vacant short-range neighbour |
| Engine.ExcitonMember | src/KmcRun.cpp:180-221 | membership in the exciton part of the enumeration, case by case |
| Engine.HopMember | src/KmcRun.cpp:182-188 | the hop loop yields exactly the hops to vacant neighbours of the hop list |
| Engine.ToCTMember | src/KmcRun.cpp:192-199 | the CT loop yields exactly the two CT events toward each vacant short-range neighbour |
| Engine.ExcitonKindCount | src/KmcRun.cpp:180-221 | the count of each kind among an exciton's events, case by case |
| Engine.ExcitonCounts | src/KmcRun.cpp:180-221 | an exciton has exactly one decay, one hop per vacant hop neighbour, and one ...ViaElec and one ...ViaHole event per vacant short-range neighbour |
| Engine.CTKindCount | src/KmcRun.cpp:222-241 | the count of each kind among a CT state's events |
| Engine.CTCounts | src/KmcRun.cpp:222-241 | a CT state has its two recombinations exactly once each, one CTdisViaHole per vacant neighbour of the hole's site and one CTdisViaElec per vacant neighbour of the electron's site |
| Engine.CTMember | src/KmcRun.cpp:222-241 | a CT event is a recombination or a dissociation toward an existing site |
| Engine.DisMember | src/KmcRun.cpp:227-240 | a dissociation loop yields only dissociations toward existing sites |
| Engine.NbNonNegative | src/KmcRun.cpp:155-240 | nonnegative rate laws give nonnegative rates to one neighbour's events |
| Engine.ScanNonNegative | src/KmcRun.cpp:155-240 | nonnegative rate laws give nonnegative rates to a neighbour loop |
| Engine.ParticleNonNegative | src/KmcRun.cpp:153-242 | nonnegative rate laws give nonnegative rates to a particle's events |
| Engine.ExcitonNonNegative | src/KmcRun.cpp:180-221 | nonnegative rate laws give nonnegative rates to an exciton's events |
| Engine.EnumUpToNonNegative | src/KmcRun.cpp:150-244 | every prefix of the enumeration has nonnegative rates |
| Engine.EnumerateNonNegative | src/KmcRun.cpp:146-245 | the whole enumeration has nonnegative rates, as the event list requires |
| Engine.CountAppend | src/KmcRun.cpp:150-244 | the count of a kind is additive over concatenation |
| Particles.NewParticle | include/Particle.h:9 | a new particle has the given type and site, is alive, and has travelled nothing |
| Particles.JumpTo | src/KmcRun.cpp:264 | the particle moves to the site and adds the displacement to what it has travelled; type, life and the CT electron site are kept |
| Particles.JumpToTwice | src/KmcRun.cpp:264 | two jumps are one jump to the second site over the summed displacement |
| Particles.ExcitonType | src/KmcRun.cpp:276 | the draw makes a triplet or a singlet, a triplet exactly when it is below 0.75 |
| Particles.MakeExciton | src/KmcRun.cpp:283 | the particle becomes a triplet or a singlet, and nothing but its type changes |
| Particles.MakeCTState | src/KmcRun.cpp:304 | the particle becomes a CT state with its hole and its electron on the given sites; life and travel are kept |
| Particles.MakeElectron | src/KmcRun.cpp:331 | the particle becomes an electron on the given site; life, travel and the CT electron site are kept |
| Particles.MakeHole | src/KmcRun.cpp:348 | the particle becomes a hole on the given site; life, travel and the CT electron site are kept |
| Particles.Kill | src/KmcRun.cpp:271 | the particle is dead from the given time; its type, sites and travel are kept |
| Particles.SetLocation | src/KmcRun.cpp:298 | the particle's site becomes the given one and nothing else changes, its travel included |
| Transitions.FreeW | src/KmcRun.cpp:265 | freeing a channel keeps the sizes and the particles, and keeps recorded occupants below any bound they were below |
| Transitions.OccupyW | src/KmcRun.cpp:266 | occupying a channel by id keeps the sizes and the particles, and occupants stay below a bound above id |
| Transitions.RetypeW | src/KmcRun.cpp:277 | handing a channel over keeps the sizes and the particles, and occupants stay below a bound above id |
| Transitions.SetPart | src/KmcRun.cpp:264 | replacing a particle keeps the sites and the number of particles |
| Transitions.ApplyHop | src/KmcRun.cpp:263-267 | a hop keeps the world well formed, keeps occupants in range and keeps the particle count |
| Transitions.ApplyDecay | src/KmcRun.cpp:269-272 | a decay keeps the world well formed, occupants in range and the particle count |
| Transitions.ApplyExcitonFromCarrier | src/KmcRun.cpp:274-292 | exciton formation, when it does not fault, keeps the world well formed and the particle count |
| Transitions.ApplyRecombination | src/KmcRun.cpp:281-299 | recombination keeps the world well formed and the particle count |
| Transitions.ApplyToCT | src/KmcRun.cpp:301-323 | CT formation keeps the world well formed and the particle count |
| Transitions.SplitW | src/KmcRun.cpp:331-337 | the particle is replaced, its partner appended, both recorded; occupants stay in range |
| Transitions.ApplyDissociation | src/KmcRun.cpp:325-355 | dissociation keeps the world well formed and grows the particle list by exactly one |
| Transitions.Apply | src/KmcRun.cpp:262-356 | any transition keeps the world well formed and the time and neighbour lists; the particle list grows by one exactly for dissociations |
| Transitions.Outcome | src/KmcRun.cpp:253-356 | carrying out a choice keeps a consistent world consistent, and keeps the time and neighbour lists |
| Transitions.Step | src/KmcRun.cpp:249-356 | a step keeps a consistent world consistent and advances the time by exactly dt |
| Transitions.StepUnfold | src/KmcRun.cpp:249-251 | a step first advances the clock, then carries out the selected event if there is one |
| Transitions.HopEffect | src/KmcRun.cpp:263-267 | normalhop frees the old channel, occupies the target by partID, moves the particle there with its displacement, and changes nothing else |
| Transitions.DecayEffect | src/KmcRun.cpp:269-272 | decay frees the particle's channel and kills it at the current time, nothing else changes |
| Transitions.ExcitonFromCarrierEffect | src/KmcRun.cpp:274-292 | faults exactly when the target records no opposite carrier; otherwise the carrier's channel is freed, the partner becomes the exciton, and the target's channel is retyped with the killed carrier's id as occupant |
| Transitions.RecombinationEffect | src/KmcRun.cpp:281-299 | the CT channel left behind is freed, the particle becomes the exciton on the other site, and that site's CT channel is retyped with the particle's id |
| Transitions.ToCTEffect | src/KmcRun.cpp:301-323 | the target becomes CT, the old exciton channel is retyped to CT, and the (hole, electron) sites are (old, new) via the electron and (new, old) via the hole |
| Transitions.DissociationEffect | src/KmcRun.cpp:325-355 | CT is freed on both sites; the particle becomes a carrier on the target; one complementary carrier with id equal to the old size is appended on the partner's site; both are recorded |
| Transitions.DissociationParts | src/KmcRun.cpp:331-333 | the particle list after a dissociation: the carrier moved, its partner appended |
| Transitions.DissociationSites | src/KmcRun.cpp:327-337 | the sites after a dissociation: CT gone from both, both carriers recorded, nothing else touched |
| Transitions.EnumeratedEventApplies | src/KmcRun.cpp:251-257 | in a consistent world every enumerated event applies without fault |
| Transitions.StepAppliesEnumerated | src/KmcRun.cpp:249-257 | a step that picks an enumerated event carries out that event's transition |
| Transitions.ChosenEventApplies | src/KmcRun.cpp:249-257 | whatever the draw, the event selected from the enumeration of a consistent world applies without fault |
| Kmc.KmcRun.constructor | include/KmcRun.h:23-24 | no sites, no particles, time 0 and an empty event list holding the given rate engine, geometry and cutoffs |
| Kmc.KmcRun.InitializeSites | src/KmcRun.cpp:57-65 | one new vacant site with empty lists per coordinate, appended in order with its energies; particles and time unchanged |
| Kmc.NewSites | src/KmcRun.cpp:57-64 | one fresh site per coordinate, vacant, with empty lists |
| Kmc.SitesGrowConsistent | src/KmcRun.cpp:64 | appending vacant sites with empty lists keeps the world consistent |
| Kmc.KmcRun.InitializeNeighbours | src/KmcRun.cpp:77-94 | each site's long-range list gains NearList of the long-range test and its short-range list NearList of the short-range test inside it; occupancy unchanged |
| Kmc.KmcRun.ScanRow | src/KmcRun.cpp:81-92 | the inner loop completes row i of the scan |
| Kmc.KmcRun.LRNear | src/KmcRun.cpp:84 | the long-range test holds only for pairs of site indices |
| Kmc.KmcRun.SRNear | src/KmcRun.cpp:87 | the short-range test is made inside the long-range one: a short-range pair is a long-range pair |
| Kmc.KmcRun.LinkPair | src/KmcRun.cpp:82-90 | one pair is linked long-range when near, and short-range when also within that cutoff |
| Kmc.ScannedConsistent | src/KmcRun.cpp:77-94 | scanning all pairs keeps the world consistent |
| Kmc.KmcRun.InitializeParticles | src/KmcRun.cpp:96-144 | sites and particles become PlaceAll of the old state; neighbour lists and time unchanged; false only when the draws ran out |
| Kmc.KmcRun.PlaceAllTypes | src/KmcRun.cpp:100-143 | the four placement loops in order are PlaceAll |
| Kmc.KmcRun.PlaceParticles | src/KmcRun.cpp:101-110 | one placement loop is PlaceType |
| Kmc.KmcRun.PlaceOne | src/KmcRun.cpp:102-109 | one placement is PlaceStep |
| Kmc.KmcRun.PutParticle | src/KmcRun.cpp:106-108 | appends NewParticle(loc, t) and records its id on channel t of loc, nothing else |
| Kmc.KmcRun.DrawFree | src/KmcRun.cpp:102-105 | the redraw loop returns NextFree |
| Kmc.KmcRun.ComputeNextEventRates | src/KmcRun.cpp:146-245 | the event list then holds exactly Enumerate of the current state; the state is unchanged |
| Kmc.KmcRun.PushAllParticles | src/KmcRun.cpp:150-244 | after the reset the particle loop pushes the enumeration |
| Kmc.KmcRun.PushIfAlive | src/KmcRun.cpp:151-152 | one round pushes particle i's events if it is alive, nothing otherwise |
| Kmc.KmcRun.PushParticleEvents | src/KmcRun.cpp:153-242 | the type switch pushes ParticleEvents of particle i |
| Kmc.KmcRun.PushExciton | src/KmcRun.cpp:180-221 | an exciton's hops, decay and CT formations are pushed in source order |
| Kmc.KmcRun.PushCT | src/KmcRun.cpp:222-241 | a CT state's recombinations and dissociations are pushed in source order |
| Kmc.KmcRun.PushRecombinations | src/KmcRun.cpp:224-225 | the two recombination events with their rates and targets |
| Kmc.KmcRun.PushDissociations | src/KmcRun.cpp:227-240 | the hole-site loop, then the electron-site loop |
| Kmc.KmcRun.PushScan | src/KmcRun.cpp:155-165 | a neighbour loop pushes ScanEvents |
| Kmc.KmcRun.PushAll | src/KmcRun.cpp:160-163 | pushes each event in order |
| Kmc.KmcRun.ExecuteNextEvent | src/KmcRun.cpp:247-357 | the new state is Step of the old, with the event the list selects at total * u |
| Kmc.KmcRun.AdvanceClock | src/KmcRun.cpp:249 | the time grows by dt, nothing else changes |
| Kmc.KmcRun.ExecuteChosen | src/KmcRun.cpp:251-262 | the selected event, if any, is carried out as Outcome says |
| Kmc.KmcRun.Execute | src/KmcRun.cpp:262-356 | the transition switch does what Outcome says |
| Kmc.KmcRun.DoHop | src/KmcRun.cpp:263-267 | the sites and particles become ApplyHop of the old state |
| Kmc.KmcRun.DoDecay | src/KmcRun.cpp:269-272 | they become ApplyDecay of the old state |
| Kmc.KmcRun.DoExcitonFromCarrier | src/KmcRun.cpp:274-292 | they become ApplyExcitonFromCarrier, or stay as they were on a fault |
| Kmc.KmcRun.DoRecombination | src/KmcRun.cpp:281-299 | they become ApplyRecombination |
| Kmc.KmcRun.DoToCT | src/KmcRun.cpp:301-323 | they become ApplyToCT |
| Kmc.KmcRun.DoDissociation | src/KmcRun.cpp:325-355 | they become ApplyDissociation |
| Kmc.KmcRun.PlaceSplit | src/KmcRun.cpp:331-337 | they become SplitW |
| Kmc.KmcRun.OccupyPair | src/KmcRun.cpp:336-337 | two OccupyW in order |
| Kmc.KmcRun.FreePair | src/KmcRun.cpp:327-328 | two FreeW in order |
| Kmc.KmcRun.OccupyState | src/KmcRun.cpp:266 | the sites become OccupyW of the old state |
| Kmc.KmcRun.FreeState | src/KmcRun.cpp:265 | the sites become FreeW of the old state |
| Kmc.KmcRun.RetypeState | src/KmcRun.cpp:277 | the sites become RetypeW of the old state |
| Kmc.KmcRun.SetParticle | src/KmcRun.cpp:264 | replaces one particle of the list |
| Kmc.KmcRun.AddParticle | src/KmcRun.cpp:333 | appends one particle to the list |
| Single.Along | src/SingleRun.cpp:52-63 | what a site records toward each of its new neighbours: one value per neighbour, in order |
| Single.During | src/SingleRun.cpp:46-67 | the lists at any point of the sweep, one per site |
| Single.Rule.ProgressStep | src/SingleRun.cpp:47-65 | one pair of the sweep advances the sweep's state by one pair |
| Single.Rule.ProgressRowEnd | src/SingleRun.cpp:46-66 | the end of row i is the start of row i + 1 |
| Single.Rule.ProgressStart | src/SingleRun.cpp:46 | before the sweep the lists are as they were |
| Single.Rule.ProgressDone | src/SingleRun.cpp:46-67 | after the sweep each list has gained the near sites in increasing order, each rate list the rates toward them, and sites in lockstep stay in lockstep |
| Single.LinkWith | src/SingleRun.cpp:50-64 | an unlinked pair changes nothing; a linked pair i != j appends f(i, j) to list i and f(j, i) to list j; every other list is unchanged |
| Single.Rule.LinkAll | src/SingleRun.cpp:50-64 | one pair of the sweep keeps every list sized for the sites and keeps sites in lockstep |
| Single.Rule.LinkAllCases | src/SingleRun.cpp:50-64 | a pair outside the long-range cutoff changes nothing; inside it only, the long-range lists gain; inside both, all six lists gain |
| Single.ListsOf | src/SingleRun.cpp:51-63 | the neighbour and rate lists of every site, one per site |
| Single.ElecTotals | src/SingleRun.cpp:92 | the elec total out-rate of every site, one per site |
| Single.AppendLR | src/SingleRun.cpp:51-52 | site k gains nb and the rate toward it; nothing else changes |
| Single.AppendSR | src/SingleRun.cpp:56-59 | site k gains nb and its three carrier rates; nothing else changes |
| Single.LinkSite | src/SingleRun.cpp:56-59 | the site gains nb and one rate in each of the elec, hole and trip lists |
| Single.ComputeTotalsAt | src/SingleRun.cpp:69 | site k's totals become the sums of its rate lists; other sites' totals unchanged |
| Single.ClearAt | src/SingleRun.cpp:105 | only site k's channel t is freed; lists and totals unchanged |
| Single.MarkAt | src/SingleRun.cpp:106 | only site k's channel t is occupied; lists and totals unchanged |
| Single.RatesOf | src/SingleRun.cpp:91-93 | each particle's rate is the elec total of its site, in particle order |
| Single.Hop | src/SingleRun.cpp:102-107 | one hop keeps the lattice sound and its sizes |
| Single.Move | src/SingleRun.cpp:97-109 | a step keeps the lattice sound and its sizes |
| Single.MoveMovesOne | src/SingleRun.cpp:99-108 | at most one particle changes, the types and time stay, and with no crossing nothing changes |
| Single.StepChoosesSelect | src/SingleRun.cpp:97-101 | with nonnegative totals the running sum crosses total * u at the Select index, and for u > 0 and a positive total that particle has a positive rate |
| Single.RatesNonNegative | src/SingleRun.cpp:91-93 | nonnegative totals give nonnegative particle rates |
| Single.MoveKeepsLone | src/SingleRun.cpp:99-108 | with one particle, a step keeps exactly its own channel occupied |
| Single.PlacedIsLone | src/SingleRun.cpp:76-84 | placing the electron on vacant sites gives a lattice where only its channel is occupied |
| Single.SingleRun.constructor | src/SingleRun.cpp:4-6 | the state runSimulation starts from, assumed empty: no sites, no particles, time 0, with the given rate laws, hop rule, geometry and cutoffs |
| Single.SingleRun.InitializeSites | src/SingleRun.cpp:14-40 | one new vacant site with empty lists per coordinate, appended in order |
| Single.SingleRun.SweptAdjacency | src/SingleRun.cpp:46-64 | the adjacency the sweep builds is symmetric, has no self-edges, and every short-range neighbour is a long-range neighbour |
| Single.SingleRun.LRNear | src/SingleRun.cpp:50 | the long-range test holds only for pairs of site indices |
| Single.SingleRun.SRNear | src/SingleRun.cpp:55 | the short-range test is made inside the long-range one: a short-range pair is a long-range pair |
| Single.SingleRun.InitializeNeighboursAndRates | src/SingleRun.cpp:42-71 | every site is swept as ProgressDone says, lockstep is kept, every site's totals are the sums of its rate lists, occupancy unchanged |
| Single.SingleRun.SweepRow | src/SingleRun.cpp:47-66 | the inner loop completes row i |
| Single.SingleRun.SweepPair | src/SingleRun.cpp:48-65 | one pair advances the sweep by one pair |
| Single.SingleRun.LinkPair | src/SingleRun.cpp:48-65 | lists after pair (i, j) are LinkAll of those before |
| Single.SingleRun.LinkLR | src/SingleRun.cpp:51-54 | i and j gain each other and the Dexter rates toward each other |
| Single.SingleRun.LinkSR | src/SingleRun.cpp:56-63 | i and j gain each other and the three Miller-Abrahams rates toward each other |
| Single.SingleRun.ComputeAllTotals | src/SingleRun.cpp:68-70 | every site's totals become the sums of its rate lists |
| Single.SingleRun.InitializeParticles | src/SingleRun.cpp:73-85 | an electron is placed at the first draw whose site has a free elec channel, that channel is occupied, and nothing else changes; false and no change when no draw is free |
| Single.SingleRun.AddElectron | src/SingleRun.cpp:81-83 | appends an electron on the site and occupies its elec channel |
| Single.SingleRun.DrawFreeElectron | src/SingleRun.cpp:77-80 | the redraw loop returns NextFree for the elec channel |
| Single.SingleRun.TotalRate | src/SingleRun.cpp:88-93 | the sum over particles of their site's elec out-rate |
| Single.SingleRun.FindAndExecuteNextEvent | src/SingleRun.cpp:87-110 | time grows by dt, and the state becomes Move of it at total * u; lists and totals unchanged |
| Single.SingleRun.AdvanceClock | src/SingleRun.cpp:95 | the time grows by dt, nothing else |
| Single.SingleRun.ScanAndHop | src/SingleRun.cpp:97-109 | the state becomes Move of the old |
| Single.SingleRun.HopParticle | src/SingleRun.cpp:102-106 | the state becomes Hop of the old, for particle k to the hop rule's site |

## Left out

- File input and output are left out: the site file, the neighbour files, `runSimulation`'s progress messages, `printSiteOccupations` and `printSiteOccupation`. Coordinates, energies and pair records are parameters.
- The random engine is a parameter. `getDOSEnergy`, `getRandomSite`, `getUniform01` and `getInterArrivalTime` become inputs: energies, a finite sequence of site draws, the draws `u`, `uExc` and `uHop`, and the waiting time `dt`.
- Rate formulas (src/RateEngine.cpp, src/RateEngine2.cpp) are left out because they are floating-point formulas. They are given functions of the site indices, assumed nonnegative where the event list needs that.
- Periodic-boundary geometry (include/PBC.h) is given: the displacement and its norm are parameters.
- Occupation-time accounting is left out. It is the time argument of `setOccupied` and `freeSite` and `getOccupation`, and it feeds only the output.
- `runSimulation` is left out. It only sequences the modelled operations and prints.
- Floating point is left out: rates, energies and time are `real`.
- The fixed-size `std::array` members of a site and `std::vector` buffers are `seq` fields. Indexing is proved in range instead of being unchecked.
- EventList.NextEventList.ResizeVectors: only the declaration is shown (include/NextEventList.h:45). The model states only that the buffers grow and the events are kept, not by how much.
- EventList.NextEventList.PushNextEvent: only the declaration is shown (include/NextEventList.h:28). Its body is modelled from the list's fields: write at cPos, growing first when full. It requires a nonnegative rate, which the rate laws give; the list's invariant keeps its rates nonnegative.
- Particles.NewParticle: the constructor at include/Particle.h:9 leaves the travelled displacement uninitialised. The model starts it at the origin.
- EventList.NextEventList.InitializeListSize: a size below the count leaves the list outside its invariant, which the contract states. What the source would do from such a state is undefined (`pushNextEvent` writes at `cPos`, past the buffers) and is not modelled, because every other operation of the list requires the invariant.
- Single.SingleRun.constructor: the `SingleRun` header is not part of this model. The state `runSimulation` starts from (src/SingleRun.cpp:4-6) is assumed to be empty: no sites, no particles, time 0.
- Particles.ExcitonType: `makeExciton` is not among the files shown. A draw below 0.75 is assumed to make a triplet, and a singlet otherwise.
- Kmc.KmcRun.InitializeParticles: the unbounded redraw loop is modelled on a finite sequence of draws. The result is false when the draws run out before every particle is placed.
- Single.SingleRun.InitializeParticles: the same finite sequence of draws, for its one electron.
- Exciton formation from a carrier is modelled as written in src/KmcRun.cpp:277 and :290. The retyped exciton channel records `partID`, the id of the carrier being killed, not the partner that becomes the exciton. `Transitions.ExcitonFromCarrierEffect` states this outright instead of correcting it.
- Undefined behaviour of src/KmcRun.cpp is not modelled. An unchecked index out of range, or a partner lookup on a free channel, is a fault in `Transitions.Apply` that leaves the state unchanged. `Transitions.ChosenEventApplies` shows that this never happens for an event enumerated from a consistent state.
- The `CTdisViaElec` rate takes the hole's site as its first argument (src/KmcRun.cpp:238). The enumeration in `Engine` keeps that as written.
- The `Single` module uses the older site interface of src/SingleRun.cpp. There, `setOccupied(type, time)` records no occupant, and `getNextHop` is not among the files shown. It is the `nextHop` parameter, assumed to return a site index.
- In src/SingleRun.cpp:92 and :100 every particle contributes its site's elec total, whatever its type. `Single.SingleRun.TotalRate` and `Single.Move` keep that as written.
- `Single.SingleRun.FindAndExecuteNextEvent` returns the total rate it drew the step for, so that a caller can relate `dt` to it. src/SingleRun.cpp:87 returns nothing.
- Each `Site` has a ghost `index`, its place in the site list. It states that the sites of a list are distinct objects, and no data of the source corresponds to it.

## Findings

| source | as written | input that shows it | evidently intended | confidence | as-written member | corrected member |
|---|---|---|---|---|---|---|
| src/NextEventList.cpp:19-25 | the text as shown does not compile: :19 compares `i` with the vector `rateList` itself, :22 lacks its `;`, and :15 returns `std::tuple<int, int>` where include/NextEventList.h:33 declares `std::tuple<Transition, int, int>`. Read as `i < rateList.size()`, the scan runs over the storage instead of the first `cPos` entries, and falls off the end without a return when no entry crosses | under that reading: after `resetNextEventList` (cPos = 0, storage still holding an old event of rate >= 0), `getNextEvent(u)` crosses at index 0 and returns that stale event | scan only the buffered events and report an empty list | not executed | Cumulative.Crossing, EventList.StaleEventAfterReset | EventList.NextEventList.GetNextEvent |
