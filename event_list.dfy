/**
 * The event list of the kinetic Monte Carlo engine (include/NextEventList.h,
 * src/NextEventList.cpp): four parallel buffers holding, for every candidate
 * event, its rate, its transition kind, the particle it concerns and the site
 * it leads to; a count of the buffered events and their running total rate.
 * Resetting only rewinds the count, so the buffers are reused between steps.
 */
module EventList {
  import opened KmcTypes
  import opened Cumulative

  /** One candidate event, as pushed. */
  datatype Event = Event(rate: real, kind: Transition, part: nat, loc: nat)

  /** What a selection hands back to the engine: the kind, the particle and the target site. */
  datatype Choice = Choice(kind: Transition, part: nat, loc: nat)

  function Rates(events: seq<Event>): (r: seq<real>)
    ensures |r| == |events|
  {
    seq(|events|, k requires 0 <= k < |events| => events[k].rate)
  }

  function ChoiceOf(e: Event): Choice
  {
    Choice(e.kind, e.part, e.loc)
  }

  /**
   * The event picked from `events` with threshold thr: the first whose running
   * rate sum reaches thr (the last one if none does), nothing from an empty list.
   */
  function Chosen(events: seq<Event>, thr: real): (r: Option<Choice>)
    ensures r.None? <==> |events| == 0
  {
    match Select(Rates(events), thr)
    case None => None
    case Some(k) => Some(ChoiceOf(events[k]))
  }

  /** Total rate of a list of events. */
  function TotalRate(events: seq<Event>): (r: real)
    ensures NonNegative(Rates(events)) ==> r >= 0.0
  {
    Sum(Rates(events))
  }

  lemma {:induction false} RatesSnoc(events: seq<Event>, e: Event)
    ensures Rates(events + [e]) == Rates(events) + [e.rate]
  {
  }

  lemma {:induction false} RatesPrefix(events: seq<Event>, n: nat)
    requires n <= |events|
    ensures Rates(events[..n]) == Rates(events)[..n]
  {
  }

  /**
   * Among events with nonnegative rates, a draw u in (0, 1] selects an event
   * whose own rate is strictly positive, so an event of rate 0 is never taken.
   */
  lemma {:induction false} ChosenHasPositiveRate(events: seq<Event>, u: real)
    requires NonNegative(Rates(events)) && TotalRate(events) > 0.0 && 0.0 < u <= 1.0
    ensures Select(Rates(events), TotalRate(events) * u).Some?
    ensures events[Select(Rates(events), TotalRate(events) * u).value].rate > 0.0
  {
    SelectedIsPositive(Rates(events), TotalRate(events), u);
  }

  /** A draw of 0 selects the first event pushed, whatever its rate. */
  lemma {:induction false} ChosenAtZero(events: seq<Event>)
    requires NonNegative(Rates(events)) && |events| > 0
    ensures Chosen(events, TotalRate(events) * 0.0) == Some(ChoiceOf(events[0]))
  {
    SelectAtZero(Rates(events));
  }

  /** A larger draw never selects an earlier event. */
  lemma {:induction false} ChosenMonotone(events: seq<Event>, total: real, u1: real, u2: real)
    requires total == TotalRate(events)
    requires NonNegative(Rates(events)) && |events| > 0 && 0.0 <= u1 <= u2
    ensures Select(Rates(events), total * u1).value <= Select(Rates(events), total * u2).value
  {
    ScaleMonotone(total, u1, u2);
    SelectMonotone(Rates(events), total * u1, total * u2);
  }

  /** Every rate in `events` is nonnegative and `total` is their sum. */
  ghost predicate Accounted(events: seq<Event>, total: real)
  {
    NonNegative(Rates(events)) && total == TotalRate(events)
  }

  /** std::vector::resize: the first n elements of s, padded with fill. */
  function Resize<T>(s: seq<T>, n: nat, fill: T): (r: seq<T>)
    ensures |r| == n
    ensures forall k :: 0 <= k < n && k < |s| ==> r[k] == s[k]
    ensures forall k :: |s| <= k < n ==> r[k] == fill
  {
    if n <= |s| then s[..n] else s + seq(n - |s|, _ => fill)
  }

  /** The first n entries of the four parallel lists, read as events. */
  function Zip(r: seq<real>, e: seq<Transition>, p: seq<nat>, l: seq<nat>, n: nat): (z: seq<Event>)
    requires n <= |r| && n <= |e| && n <= |p| && n <= |l|
    ensures |z| == n
  {
    seq(n, k requires 0 <= k < n => Event(r[k], e[k], p[k], l[k]))
  }

  class NextEventList {
    var maxSize: nat
    var cPos: nat
    var rateList: seq<real>
    var partList: seq<nat>
    var newLocation: seq<nat>
    var eventType: seq<Transition>
    var totalRate: real

    ghost predicate Valid()
      reads this
    {
      |rateList| == |partList| == |newLocation| == |eventType| &&
      cPos <= |rateList| &&
      Accounted(Zip(rateList, eventType, partList, newLocation, cPos), totalRate)
    }

    /** The buffered events, in push order. */
    ghost function Contents(): (s: seq<Event>)
      reads this
      requires Valid()
      ensures |s| == cPos
    {
      Zip(rateList, eventType, partList, newLocation, cPos)
    }

    constructor ()
      ensures Valid()
      ensures Contents() == [] && totalRate == 0.0 && maxSize == 10
      ensures rateList == []
    {
      maxSize, cPos := 10, 0;
      rateList, partList, newLocation, eventType := [], [], [], [];
      totalRate := 0.0;
    }

    /**
     * Resize every list to `size` entries. When the lists still hold the
     * buffered events, those survive; a size below the count truncates the
     * lists under it, and the list is no longer valid: the count then points
     * past the storage.
     */
    method InitializeListSize(size: nat)
      requires Valid()
      modifies this
      ensures maxSize == size && cPos == old(cPos) && totalRate == old(totalRate)
      ensures rateList == Resize(old(rateList), size, 0.0) && partList == Resize(old(partList), size, 0)
      ensures newLocation == Resize(old(newLocation), size, 0) && eventType == Resize(old(eventType), size, NormalHop)
      ensures old(cPos) <= size ==> Valid() && Contents() == old(Contents())
      ensures size < old(cPos) ==> !Valid()
    {
      ghost var before := Contents();
      maxSize := size;
      rateList := Resize(rateList, size, 0.0);
      partList := Resize(partList, size, 0);
      newLocation := Resize(newLocation, size, 0);
      eventType := Resize(eventType, size, NormalHop);
      if cPos <= size {
        assert Zip(rateList, eventType, partList, newLocation, cPos) == before;
      }
    }

    /** Grow every list by at least one entry, keeping the buffered events. */
    method ResizeVectors()
      requires Valid()
      modifies this
      ensures Valid()
      ensures |rateList| > old(|rateList|) && maxSize == |rateList|
      ensures Contents() == old(Contents()) && totalRate == old(totalRate) && cPos == old(cPos)
    {
      var size := if 2 * maxSize > |rateList| then 2 * maxSize else |rateList| + 1;
      InitializeListSize(size);
    }

    /** Append one event and add its rate to the total; the lists grow when full. */
    method PushNextEvent(rate: real, kind: Transition, part: nat, loc: nat)
      requires Valid() && rate >= 0.0
      modifies this
      ensures Valid()
      ensures Contents() == old(Contents()) + [Event(rate, kind, part, loc)]
      ensures totalRate == old(totalRate) + rate
    {
      if cPos == |rateList| {
        ResizeVectors();
      }
      ghost var before := Contents();
      rateList := rateList[cPos := rate];
      partList := partList[cPos := part];
      newLocation := newLocation[cPos := loc];
      eventType := eventType[cPos := kind];
      cPos := cPos + 1;
      assert Zip(rateList, eventType, partList, newLocation, cPos) == before + [Event(rate, kind, part, loc)];
      RatesSnoc(before, Event(rate, kind, part, loc));
      SumSnoc(Rates(before), rate);
      totalRate := totalRate + rate;
    }

    /** Empty the list; the lists, and what they hold, stay as they are. */
    method ResetNextEventList()
      requires Valid()
      modifies this
      ensures Valid()
      ensures Contents() == [] && totalRate == 0.0
      ensures rateList == old(rateList) && partList == old(partList)
      ensures newLocation == old(newLocation) && eventType == old(eventType)
      ensures maxSize == old(maxSize)
    {
      cPos, totalRate := 0, 0.0;
    }

    function GetTotalRate(): (r: real)
      reads this
      requires Valid()
      ensures r == TotalRate(Contents())
    {
      totalRate
    }

    function GetNrOfEvents(): (n: nat)
      reads this
      requires Valid()
      ensures n == |Contents()|
    {
      cPos
    }

    /** The point of the running rate sum that a draw random01 selects. */
    ghost function Threshold(random01: real): real
      reads this
    {
      totalRate * random01
    }

    /**
     * Inverse-CDF selection: scan the buffered events in push order and return
     * the first whose running rate sum reaches totalRate * random01, comparing
     * with >=. The list is not changed.
     */
    method GetNextEvent(random01: real) returns (r: Option<Choice>)
      requires Valid()
      ensures r == Chosen(Contents(), Threshold(random01))
    {
      if cPos == 0 {
        return None;
      }
      assert Rates(Contents()) == rateList[..cPos];
      var i := RunningScan(rateList[..cPos], totalRate * random01);
      return Some(Choice(eventType[i], partList[i], newLocation[i]));
    }
  }

  /**
   * The scan of getNextEvent over the first |rates| buffered rates: the first
   * index whose running sum reaches select, the last index if none does.
   */
  method RunningScan(rates: seq<real>, select: real) returns (i: nat)
    requires |rates| > 0
    ensures Select(rates, select) == Some(i)
  {
    var cumSum := 0.0;
    i := 0;
    while i < |rates|
      invariant 0 <= i <= |rates|
      invariant cumSum == Sum(rates[..i])
      invariant FirstAtLeast(rates, select, 0) == FirstAtLeast(rates, select, i)
    {
      assert rates[..i + 1][..i] == rates[..i];
      cumSum := cumSum + rates[i];
      if cumSum >= select {
        return;
      }
      i := i + 1;
    }
    i := |rates| - 1;
  }

  /**
   * After a reset the count is 0 and the total is 0, but an event of an earlier
   * step is still in the storage. The scan as written in src/NextEventList.cpp
   * bounds its loop by the storage rather than by the count and has no return
   * after the loop: it is Crossing over the whole storage, and it returns that
   * stale event, whereas the list holds no event.
   */
  lemma {:induction false} StaleEventAfterReset(storage: seq<real>, u: real)
    requires |storage| > 0 && storage[0] >= 0.0
    ensures Crossing(storage, 0.0 * u) == Some(0)
    ensures Chosen([], 0.0 * u) == None
  {
    assert storage[..1] == [storage[0]];
    assert Sum([storage[0]]) == Sum([]) + storage[0];
  }
}
