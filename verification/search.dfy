/**
 * `findNextBusesByDeparture` and `findNextBusesByArrival`: each turns the
 * timetable into (bus, key) pairs with `compactMap`, ranks them and keeps
 * the first two. Both share the pipeline `NextBuses`; they differ in the key.
 */
module Search {
  import opened Wrappers
  import opened DataModels
  import opened TimeOfDay
  import opened Ranking

  /** After this minute (21:00) the departure search reads runs before 04:00 as the next day's. */
  const LateEvening := 21 * MinutesPerHour

  /** Runs before this minute (04:00) are the ones that roll over. */
  const EarlyMorning := 4 * MinutesPerHour

  /**
   * The `compactMap` step: every bus the closure keys, paired with its key,
   * in timetable order. Each keyed bus appears as often as in the timetable,
   * so there are as many candidates as keyed runs.
   */
  function Candidates(tt: seq<Bus>, keyOf: Bus -> Option<int>): (cs: seq<Candidate>)
    ensures forall c | c in cs :: c.bus in tt && keyOf(c.bus) == Some(c.key)
    ensures forall b | b in tt && keyOf(b).Some? :: Candidate(b, keyOf(b).value) in cs
  {
    if |tt| == 0 then []
    else
      var rest := Candidates(tt[1..], keyOf);
      assert forall b | b in tt :: b == tt[0] || b in tt[1..];
      match keyOf(tt[0])
      case None => rest
      case Some(k) => [Candidate(tt[0], k)] + rest
  }

  /** Each keyed bus is a candidate as often as the timetable lists it, and no other bus is. */
  lemma {:induction false} CandidatesCountRuns(tt: seq<Bus>, keyOf: Bus -> Option<int>)
    ensures forall b :: multiset(Buses(Candidates(tt, keyOf)))[b] == if keyOf(b).Some? then multiset(tt)[b] else 0
  {
    if |tt| > 0 {
      var rest := Candidates(tt[1..], keyOf);
      CandidatesCountRuns(tt[1..], keyOf);
      assert tt == [tt[0]] + tt[1..];
      assert multiset(tt) == multiset{tt[0]} + multiset(tt[1..]);
      if keyOf(tt[0]).Some? {
        var c := Candidate(tt[0], keyOf(tt[0]).value);
        assert Candidates(tt, keyOf) == [c] + rest;
        BusesAppend([c], rest);
        assert multiset(Buses(Candidates(tt, keyOf))) == multiset{tt[0]} + multiset(Buses(rest));
      } else {
        assert Candidates(tt, keyOf) == rest;
      }
    }
  }

  /** `map { $0.bus }`: the buses of the candidates, in order. */
  function Buses(cs: seq<Candidate>): seq<Bus>
  {
    seq(|cs|, i requires 0 <= i < |cs| => cs[i].bus)
  }

  /** Dropping the keys of the candidates preserves concatenation. */
  lemma BusesAppend(u: seq<Candidate>, v: seq<Candidate>)
    ensures Buses(u + v) == Buses(u) + Buses(v)
  {
  }

  /** Candidates drawn from others have their buses drawn from the others' buses. */
  lemma {:induction false} BusesKeepSubMultiset(a: seq<Candidate>, b: seq<Candidate>)
    requires multiset(a) <= multiset(b)
    ensures multiset(Buses(a)) <= multiset(Buses(b))
    decreases |a|
  {
    if a != [] {
      var x := a[0];
      assert x in multiset(b);
      var k :| 0 <= k < |b| && b[k] == x;
      var rest := b[..k] + b[k + 1..];
      assert b == b[..k] + [x] + b[k + 1..];
      assert multiset(b) == multiset(rest) + multiset{x};
      assert a == [x] + a[1..];
      assert multiset(a[1..]) <= multiset(rest) by {
        forall y
          ensures multiset(a[1..])[y] <= multiset(rest)[y]
        {
          assert multiset(a)[y] == multiset(a[1..])[y] + (if y == x then 1 else 0);
          assert multiset(b)[y] == multiset(rest)[y] + (if y == x then 1 else 0);
        }
      }
      BusesKeepSubMultiset(a[1..], rest);
      BusesAppend([x], a[1..]);
      BusesAppend(b[..k], [x]);
      BusesAppend(b[..k] + [x], b[k + 1..]);
      BusesAppend(b[..k], b[k + 1..]);
    }
  }

  /**
   * The pipeline both searches share: key the buses, rank them, keep two,
   * drop the keys. It returns as many buses as there are keyed runs, up to
   * two, never a run more often than the timetable lists it, and every keyed
   * run as often as listed when fewer than two come back.
   */
  function NextBuses(tt: seq<Bus>, keyOf: Bus -> Option<int>, ascending: bool): (r: seq<Bus>)
    ensures |r| == if |Candidates(tt, keyOf)| <= ResultLimit then |Candidates(tt, keyOf)| else ResultLimit
    ensures multiset(r) <= multiset(tt)
    ensures |r| < ResultLimit ==> forall b | b in tt && keyOf(b).Some? :: multiset(r)[b] == multiset(tt)[b]
  {
    var cs := Candidates(tt, keyOf);
    var top := TopTwo(cs, ascending);
    CandidatesCountRuns(tt, keyOf);
    BusesKeepSubMultiset(top, cs);
    assert |cs| <= ResultLimit ==> multiset(Buses(cs)) <= multiset(Buses(top)) by {
      if |cs| <= ResultLimit {
        BusesKeepSubMultiset(cs, top);
      }
    }
    Buses(top)
  }

  /** Key `x` ranks strictly ahead of key `y`. */
  predicate StrictlyAhead(x: int, y: int, ascending: bool)
  {
    if ascending then x < y else x > y
  }

  /** Every returned bus is the bus of the kept candidate at the same place. */
  lemma NextBusesAreKept(tt: seq<Bus>, keyOf: Bus -> Option<int>, ascending: bool)
    ensures var cs := Candidates(tt, keyOf);
      var top := TopTwo(cs, ascending);
      var r := NextBuses(tt, keyOf, ascending);
      && |r| == |top|
      && (forall c | c in top :: c in cs)
      && (forall i | 0 <= i < |r| :: r[i] == top[i].bus && keyOf(r[i]) == Some(top[i].key))
  {
    var cs := Candidates(tt, keyOf);
    var top := TopTwo(cs, ascending);
    forall c | c in top ensures c in cs {
      assert c in multiset(top);
    }
    forall i | 0 <= i < |top| ensures keyOf(top[i].bus) == Some(top[i].key) {
      assert top[i] in top;
    }
  }

  /** At most two buses come back, each from the timetable and keyed, in ranked order of their keys. */
  lemma NextBusesAreRanked(tt: seq<Bus>, keyOf: Bus -> Option<int>, ascending: bool)
    ensures var r := NextBuses(tt, keyOf, ascending);
      && |r| <= ResultLimit
      && (forall b | b in r :: b in tt && keyOf(b).Some?)
      && (forall i, j | 0 <= i < j < |r| :: !StrictlyAhead(keyOf(r[j]).value, keyOf(r[i]).value, ascending))
  {
    var cs := Candidates(tt, keyOf);
    var top := TopTwo(cs, ascending);
    var r := NextBuses(tt, keyOf, ascending);
    NextBusesAreKept(tt, keyOf, ascending);
    forall b | b in r ensures b in tt && keyOf(b).Some? {
      var i :| 0 <= i < |r| && r[i] == b;
      assert top[i] in top;
    }
    forall i, j | 0 <= i < j < |r| ensures !StrictlyAhead(keyOf(r[j]).value, keyOf(r[i]).value, ascending) {
      assert Precedes(top[i], top[j], ascending);
    }
  }

  /** Every copy of a candidate ranking strictly ahead of a kept one was kept too. */
  lemma KeptWhenAhead(cs: seq<Candidate>, top: seq<Candidate>, ascending: bool, c: Candidate, i: nat)
    requires forall d, e | d in multiset(cs) - multiset(top) && e in top :: Precedes(e, d, ascending)
    requires multiset(top) <= multiset(cs) && i < |top|
    requires StrictlyAhead(c.key, top[i].key, ascending)
    ensures multiset(top)[c] == multiset(cs)[c]
  {
    if multiset(top)[c] < multiset(cs)[c] {
      assert c in multiset(cs) - multiset(top);
      assert Precedes(top[i], c, ascending) by {
        assert top[i] in top;
      }
    }
  }

  /** When every candidate for bus `b` has key `k`, `b` is among their buses as often as that candidate is among them. */
  lemma {:induction false} BusCountIsCandidateCount(cs: seq<Candidate>, b: Bus, k: int)
    requires forall c | c in cs && c.bus == b :: c.key == k
    ensures multiset(Buses(cs))[b] == multiset(cs)[Candidate(b, k)]
    decreases |cs|
  {
    if cs != [] {
      assert cs == [cs[0]] + cs[1..];
      assert multiset(cs) == multiset{cs[0]} + multiset(cs[1..]);
      BusesAppend([cs[0]], cs[1..]);
      BusCountIsCandidateCount(cs[1..], b, k);
    }
  }

  /** Any keyed bus ranking strictly ahead of a returned bus is returned as often as the timetable lists it. */
  lemma NextBusesSkipNothingAhead(tt: seq<Bus>, keyOf: Bus -> Option<int>, ascending: bool)
    ensures var r := NextBuses(tt, keyOf, ascending);
      forall b, i | b in tt && keyOf(b).Some? && 0 <= i < |r| && keyOf(r[i]).Some? && StrictlyAhead(keyOf(b).value, keyOf(r[i]).value, ascending) ::
        multiset(r)[b] == multiset(tt)[b]
  {
    var cs := Candidates(tt, keyOf);
    var top := TopTwo(cs, ascending);
    var r := NextBuses(tt, keyOf, ascending);
    TopTwoLeavesOutNoBetter(cs, ascending);
    NextBusesAreKept(tt, keyOf, ascending);
    CandidatesCountRuns(tt, keyOf);
    forall b, i | b in tt && keyOf(b).Some? && 0 <= i < |r| && keyOf(r[i]).Some? && StrictlyAhead(keyOf(b).value, keyOf(r[i]).value, ascending)
      ensures multiset(r)[b] == multiset(tt)[b]
    {
      var k := keyOf(b).value;
      KeptWhenAhead(cs, top, ascending, Candidate(b, k), i);
      BusCountIsCandidateCount(cs, b, k);
      BusCountIsCandidateCount(top, b, k);
    }
  }

  /** None comes back exactly when no bus is keyed, and every keyed bus comes back when fewer than two do. */
  lemma NextBusesMissNothingWhenShort(tt: seq<Bus>, keyOf: Bus -> Option<int>, ascending: bool)
    ensures var r := NextBuses(tt, keyOf, ascending);
      && (r == [] <==> forall b | b in tt :: keyOf(b).None?)
      && (|r| < ResultLimit ==> forall b | b in tt && keyOf(b).Some? :: b in r)
  {
    var cs := Candidates(tt, keyOf);
    var top := TopTwo(cs, ascending);
    var r := NextBuses(tt, keyOf, ascending);
    NextBusesAreKept(tt, keyOf, ascending);
    if |r| < ResultLimit {
      forall b | b in tt && keyOf(b).Some?
        ensures b in r
      {
        var c := Candidate(b, keyOf(b).value);
        assert c in multiset(top);
        var k :| 0 <= k < |top| && top[k] == c;
        assert r[k] == b;
      }
    }
    if r != [] {
      assert top[0] in top;
    }
  }

  /** The minute run `busMinute` is compared at: the next day's when the reference is late and the run is early. */
  function DepartureKey(busMinute: MinuteOfDay, ref: MinuteOfDay): (key: int)
    ensures key == busMinute || key == busMinute + MinutesPerDay
    ensures key == busMinute + MinutesPerDay <==> ref > LateEvening && busMinute < EarlyMorning
  {
    if ref > LateEvening && busMinute < EarlyMorning then busMinute + MinutesPerDay else busMinute
  }

  /**
   * The closure of the departure search: a bus is kept when its departure
   * parses and is not before `ref`, and then it is ranked by a minute that
   * lies within the day ahead of `ref`.
   */
  function DepartureSortKey(b: Bus, ref: MinuteOfDay): (key: Option<int>)
    ensures key.Some? <==> ParseTime(b.departure).Some? && DepartureKey(ParseTime(b.departure).value, ref) >= ref
    ensures key.Some? ==> key.value == DepartureKey(ParseTime(b.departure).value, ref)
    ensures key.Some? ==> ref <= key.value < ref + MinutesPerDay
  {
    match ParseTime(b.departure)
    case None => None
    case Some(m) => if DepartureKey(m, ref) >= ref then Some(DepartureKey(m, ref)) else None
  }

  /** `findNextBusesByDeparture`: the next two buses leaving at or after `ref`. */
  function FindNextBusesByDeparture(tt: seq<Bus>, ref: MinuteOfDay): (r: seq<Bus>)
    ensures |r| <= ResultLimit
    ensures multiset(r) <= multiset(tt)
    ensures |r| < ResultLimit ==> forall b | b in tt && DepartureSortKey(b, ref).Some? :: multiset(r)[b] == multiset(tt)[b]
  {
    NextBuses(tt, b => DepartureSortKey(b, ref), true)
  }

  /** Every bus offered leaves at or after `ref` (rolled over), and they come earliest first. */
  lemma DeparturesQualifyInOrder(tt: seq<Bus>, ref: MinuteOfDay)
    ensures var r := FindNextBusesByDeparture(tt, ref);
      && (forall b | b in r :: b in tt && ParseTime(b.departure).Some? && DepartureKey(ParseTime(b.departure).value, ref) >= ref)
      && (forall i, j | 0 <= i < j < |r| ::
            DepartureKey(ParseTime(r[i].departure).value, ref) <= DepartureKey(ParseTime(r[j].departure).value, ref))
  {
    NextBusesAreRanked(tt, b => DepartureSortKey(b, ref), true);
  }

  /**
   * Nothing qualifying is passed over: none is offered exactly when none
   * qualifies, every one is offered when fewer than two are, and none that
   * leaves strictly earlier than an offered bus is left out, not even one
   * of its copies when the timetable lists it twice.
   */
  lemma DeparturesSkipNothingEarlier(tt: seq<Bus>, ref: MinuteOfDay)
    ensures var r := FindNextBusesByDeparture(tt, ref);
      && (r == [] <==> forall b | b in tt :: DepartureSortKey(b, ref).None?)
      && (|r| < ResultLimit ==> forall b | b in tt && DepartureSortKey(b, ref).Some? :: b in r)
      && (forall b, i | b in tt && DepartureSortKey(b, ref).Some? && 0 <= i < |r| && ParseTime(r[i].departure).Some? &&
            DepartureSortKey(b, ref).value < DepartureKey(ParseTime(r[i].departure).value, ref) ::
              multiset(r)[b] == multiset(tt)[b])
  {
    NextBusesSkipNothingAhead(tt, b => DepartureSortKey(b, ref), true);
    NextBusesMissNothingWhenShort(tt, b => DepartureSortKey(b, ref), true);
  }

  /**
   * Two distinct runs that both qualify are both offered, the earlier first
   * and each once: the contracts above leave no other answer.
   */
  lemma TwoQualifyingRunsAreBothOffered(early: Bus, late: Bus, ref: MinuteOfDay)
    requires early != late
    requires DepartureSortKey(early, ref).Some? && DepartureSortKey(late, ref).Some?
    requires DepartureSortKey(early, ref).value < DepartureSortKey(late, ref).value
    ensures FindNextBusesByDeparture([early, late], ref) == [early, late]
  {
    var tt := [early, late];
    var r := FindNextBusesByDeparture(tt, ref);
    assert multiset(tt)[early] == 1 && multiset(tt)[late] == 1;
    PairTakenWhole(r, early, late);
    DeparturesQualifyInOrder(tt, ref);
  }

  /** At most two buses, drawn from two distinct ones and holding both when fewer than two: both, in some order. */
  lemma PairTakenWhole(r: seq<Bus>, x: Bus, y: Bus)
    requires x != y && |r| <= ResultLimit
    requires multiset(r) <= multiset([x, y])
    requires |r| < ResultLimit ==> multiset(r)[x] == 1 && multiset(r)[y] == 1
    ensures r == [x, y] || r == [y, x]
  {
    assert |r| == ResultLimit;
    assert r == [r[0], r[1]];
    assert r[0] in multiset([x, y]) && r[1] in multiset([x, y]);
    assert r[0] == r[1] ==> multiset(r)[r[0]] == 2;
  }

  /** At 07:05, with runs leaving at 7:10 and 7:20, the search offers [7:10, 7:20]. */
  lemma SevenOhFiveOffersBothRuns()
    ensures var early, late := Bus("7:10", "7:18"), Bus("7:20", "7:28");
      FindNextBusesByDeparture([early, late], 7 * MinutesPerHour + 5) == [early, late]
  {
    var early, late := Bus("7:10", "7:18"), Bus("7:20", "7:28");
    ReadsAs("7:10", 430);
    ReadsAs("7:20", 440);
    TwoQualifyingRunsAreBothOffered(early, late, 7 * MinutesPerHour + 5);
  }

  /** A run listed twice ahead of a later one takes both places, and the later run none. */
  lemma RepeatedRunTakesBothPlaces(early: Bus, late: Bus, ref: MinuteOfDay)
    requires early != late
    requires DepartureSortKey(early, ref).Some? && DepartureSortKey(late, ref).Some?
    requires DepartureSortKey(early, ref).value < DepartureSortKey(late, ref).value
    ensures FindNextBusesByDeparture([early, early, late], ref) == [early, early]
  {
    var tt := [early, early, late];
    var r := FindNextBusesByDeparture(tt, ref);
    assert multiset(tt)[early] == 2;
    DeparturesSkipNothingEarlier(tt, ref);
    forall i | 0 <= i < |r| && r[i] == late
      ensures multiset(r)[early] == 2
    {
    }
    RepeatTakenWhole(r, early, late);
  }

  /**
   * At most two buses, drawn from `x, x, y`, holding both copies of `x`
   * when fewer than two or when `y` is among them: the two copies of `x`.
   */
  lemma RepeatTakenWhole(r: seq<Bus>, x: Bus, y: Bus)
    requires x != y && |r| <= ResultLimit
    requires multiset(r) <= multiset([x, x, y])
    requires |r| < ResultLimit ==> multiset(r)[x] == 2
    requires forall i | 0 <= i < |r| && r[i] == y :: multiset(r)[x] == 2
    ensures r == [x, x]
  {
    assert |r| == ResultLimit;
    assert r == [r[0], r[1]];
    assert r[0] in multiset([x, x, y]) && r[1] in multiset([x, x, y]);
    assert r[0] == r[1] ==> multiset(r)[r[0]] == 2;
  }

  /** At 07:05, with the 7:10 run listed twice before the 7:20 run, the search offers the 7:10 run twice. */
  lemma SevenOhFiveOffersRepeatedRunTwice()
    ensures var early, late := Bus("7:10", "7:18"), Bus("7:20", "7:28");
      FindNextBusesByDeparture([early, early, late], 7 * MinutesPerHour + 5) == [early, early]
  {
    var early, late := Bus("7:10", "7:18"), Bus("7:20", "7:28");
    ReadsAs("7:10", 430);
    ReadsAs("7:20", 440);
    RepeatedRunTakesBothPlaces(early, late, 7 * MinutesPerHour + 5);
  }

  /**
   * The closure of the arrival search: a bus is kept when its arrival parses
   * and is not after `target`, and then it is ranked by that arrival.
   */
  function ArrivalSortKey(b: Bus, target: MinuteOfDay): (key: Option<int>)
    ensures key.Some? <==> ParseTime(b.arrival).Some? && ParseTime(b.arrival).value <= target
    ensures key.Some? ==> ParseTime(b.arrival) == Some(key.value) && 0 <= key.value <= target
  {
    match ParseTime(b.arrival)
    case None => None
    case Some(m) => if m <= target then Some(m) else None
  }

  /** `findNextBusesByArrival`: the two latest buses arriving at or before `target`. */
  function FindNextBusesByArrival(tt: seq<Bus>, target: MinuteOfDay): (r: seq<Bus>)
    ensures |r| <= ResultLimit
    ensures multiset(r) <= multiset(tt)
    ensures |r| < ResultLimit ==> forall b | b in tt && ArrivalSortKey(b, target).Some? :: multiset(r)[b] == multiset(tt)[b]
  {
    NextBuses(tt, b => ArrivalSortKey(b, target), false)
  }

  /** Every bus offered arrives at or before `target`, and they come latest first. */
  lemma ArrivalsQualifyInOrder(tt: seq<Bus>, target: MinuteOfDay)
    ensures var r := FindNextBusesByArrival(tt, target);
      && (forall b | b in r :: b in tt && ParseTime(b.arrival).Some? && ParseTime(b.arrival).value <= target)
      && (forall i, j | 0 <= i < j < |r| :: ParseTime(r[i].arrival).value >= ParseTime(r[j].arrival).value)
  {
    NextBusesAreRanked(tt, b => ArrivalSortKey(b, target), false);
  }

  /**
   * Nothing qualifying is passed over: none is offered exactly when none
   * qualifies, every one is offered when fewer than two are, and none that
   * arrives strictly later than an offered bus is left out, not even one
   * of its copies when the timetable lists it twice.
   */
  lemma ArrivalsSkipNothingLater(tt: seq<Bus>, target: MinuteOfDay)
    ensures var r := FindNextBusesByArrival(tt, target);
      && (r == [] <==> forall b | b in tt :: ArrivalSortKey(b, target).None?)
      && (|r| < ResultLimit ==> forall b | b in tt && ArrivalSortKey(b, target).Some? :: b in r)
      && (forall b, i | b in tt && ArrivalSortKey(b, target).Some? && 0 <= i < |r| && ParseTime(r[i].arrival).Some? &&
            ParseTime(b.arrival).value > ParseTime(r[i].arrival).value ::
              multiset(r)[b] == multiset(tt)[b])
  {
    NextBusesSkipNothingAhead(tt, b => ArrivalSortKey(b, target), false);
    NextBusesMissNothingWhenShort(tt, b => ArrivalSortKey(b, target), false);
  }

  /** Two distinct runs that both arrive in time are both offered, the later arrival first and each once. */
  lemma TwoQualifyingArrivalsAreBothOffered(early: Bus, late: Bus, target: MinuteOfDay)
    requires early != late
    requires ArrivalSortKey(early, target).Some? && ArrivalSortKey(late, target).Some?
    requires ArrivalSortKey(early, target).value < ArrivalSortKey(late, target).value
    ensures FindNextBusesByArrival([early, late], target) == [late, early]
  {
    var tt := [early, late];
    var r := FindNextBusesByArrival(tt, target);
    assert multiset(tt)[early] == 1 && multiset(tt)[late] == 1;
    PairTakenWhole(r, early, late);
    ArrivalsQualifyInOrder(tt, target);
  }

  /** The last run of the night leaves at minute 4 of the day and arrives at minute 13. */
  lemma AfterMidnightRunReadsEarly()
    ensures ParseTime("0:04") == Some(4) && ParseTime("0:13") == Some(13)
  {
    ReadsAs("0:04", 4);
    ReadsAs("0:13", 13);
  }

  /** A timetable time spelling minute `m` reads as `m`. */
  lemma ReadsAs(s: string, m: MinuteOfDay)
    requires IsTimetableTime(s) && TextMinute(s) == m
    ensures ParseTime(s) == Some(m)
  {
    ReadsTimetableTime(s);
  }

  /**
   * The rollover test is strict: at exactly 21:00 a run leaving at 0:04 is
   * compared as minute 4 and so is never offered, whatever the timetable.
   */
  lemma NineOClockSkipsAfterMidnightRun(tt: seq<Bus>, arrival: string)
    ensures DepartureSortKey(Bus("0:04", arrival), LateEvening) == None
    ensures Bus("0:04", arrival) !in FindNextBusesByDeparture(tt, LateEvening)
  {
    var b := Bus("0:04", arrival);
    assert ParseTime(b.departure) == Some(4) by {
      AfterMidnightRunReadsEarly();
    }
    DeparturesQualifyInOrder(tt, LateEvening);
  }

  /** Once the reference is past 21:00 the run leaving at 0:04 ranks as 24:04 and is kept. */
  lemma LateReferenceKeepsAfterMidnightRun(ref: MinuteOfDay, arrival: string)
    requires ref > LateEvening
    ensures DepartureSortKey(Bus("0:04", arrival), ref) == Some(4 + MinutesPerDay)
  {
    AfterMidnightRunReadsEarly();
  }

  /** The arrival search has no rollover: a run arriving at 0:13 counts as arriving at minute 13. */
  lemma ArrivalAfterMidnightCountsAsEarly(departure: string, target: MinuteOfDay)
    ensures ArrivalSortKey(Bus(departure, "0:13"), target) == if 13 <= target then Some(13) else None
  {
    AfterMidnightRunReadsEarly();
  }

  /** A departure that does not split into exactly two pieces is skipped by the departure search. */
  lemma UnsplittableDepartureIsSkipped(tt: seq<Bus>, ref: MinuteOfDay, b: Bus)
    requires |Split(b.departure)| != 2
    ensures b !in FindNextBusesByDeparture(tt, ref)
  {
    DeparturesQualifyInOrder(tt, ref);
  }

  /** An arrival that does not split into exactly two pieces is skipped by the arrival search. */
  lemma UnsplittableArrivalIsSkipped(tt: seq<Bus>, target: MinuteOfDay, b: Bus)
    requires |Split(b.arrival)| != 2
    ensures b !in FindNextBusesByArrival(tt, target)
  {
    ArrivalsQualifyInOrder(tt, target);
  }
}
