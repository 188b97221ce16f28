/**
 * The two fixed timetables of `setupTimetables`, and the order they keep:
 * every time is written "H:MM" or "HH:MM", the runs leave in strictly
 * increasing order once the runs after midnight are placed at the end of
 * the service day, every run arrives after it leaves, and so no two runs of
 * a route share a departure (their id).
 */
module Timetables {
  import opened Wrappers
  import opened DataModels
  import opened TimeOfDay

  /** The two directions of travel. */
  datatype Route = MansionToStation | StationToMansion

  /** Each route has this many runs a day. */
  const RunsPerRoute := 47

  /** The source lists the runs two to a line; the last line holds one. */
  const LinesPerRoute := 24

  /** The runs of MansionToStation, two to a line as `setupTimetables` lists them (BusTimetableViewModel.swift:57-82). */
  function MansionToStationLine(r: nat): (line: seq<Bus>)
    requires r < LinesPerRoute
    ensures |line| == if r + 1 < LinesPerRoute then 2 else 1
  {
    match r
    case 0 => [Bus("6:03", "6:11"), Bus("6:30", "6:38")]
    case 1 => [Bus("6:40", "6:48"), Bus("6:50", "6:58")]
    case 2 => [Bus("7:00", "7:08"), Bus("7:10", "7:18")]
    case 3 => [Bus("7:20", "7:28"), Bus("7:30", "7:38")]
    case 4 => [Bus("7:40", "7:48"), Bus("7:50", "7:58")]
    case 5 => [Bus("8:00", "8:08"), Bus("8:10", "8:18")]
    case 6 => [Bus("8:20", "8:28"), Bus("8:30", "8:38")]
    case 7 => [Bus("8:40", "8:48"), Bus("9:00", "9:08")]
    case 8 => [Bus("9:30", "9:38"), Bus("10:00", "10:08")]
    case 9 => [Bus("10:30", "10:38"), Bus("11:00", "11:08")]
    case 10 => [Bus("11:30", "11:38"), Bus("13:00", "13:08")]
    case 11 => [Bus("13:30", "13:38"), Bus("14:00", "14:08")]
    case 12 => [Bus("14:30", "14:38"), Bus("15:00", "15:08")]
    case 13 => [Bus("15:30", "15:38"), Bus("16:00", "16:08")]
    case 14 => [Bus("16:30", "16:38"), Bus("17:04", "17:12")]
    case 15 => [Bus("17:37", "17:46"), Bus("18:02", "18:11")]
    case 16 => [Bus("18:19", "18:28"), Bus("18:37", "18:46")]
    case 17 => [Bus("19:01", "19:10"), Bus("19:18", "19:27")]
    case 18 => [Bus("19:32", "19:41"), Bus("19:51", "20:00")]
    case 19 => [Bus("20:11", "20:20"), Bus("20:51", "21:00")]
    case 20 => [Bus("21:08", "21:17"), Bus("21:55", "22:04")]
    case 21 => [Bus("22:19", "22:28"), Bus("22:37", "22:46")]
    case 22 => [Bus("23:06", "23:15"), Bus("23:38", "23:47")]
    case _ => [Bus("0:04", "0:13")]
  }

  /** The runs of StationToMansion, two to a line as `setupTimetables` lists them (BusTimetableViewModel.swift:84-109). */
  function StationToMansionLine(r: nat): (line: seq<Bus>)
    requires r < LinesPerRoute
    ensures |line| == if r + 1 < LinesPerRoute then 2 else 1
  {
    match r
    case 0 => [Bus("6:11", "6:18"), Bus("6:38", "6:45")]
    case 1 => [Bus("6:48", "6:55"), Bus("6:58", "7:05")]
    case 2 => [Bus("7:08", "7:15"), Bus("7:18", "7:25")]
    case 3 => [Bus("7:28", "7:35"), Bus("7:38", "7:45")]
    case 4 => [Bus("7:48", "7:55"), Bus("7:58", "8:05")]
    case 5 => [Bus("8:08", "8:15"), Bus("8:18", "8:25")]
    case 6 => [Bus("8:28", "8:35"), Bus("8:48", "8:55")]
    case 7 => [Bus("9:38", "9:53"), Bus("10:08", "10:15")]
    case 8 => [Bus("10:38", "10:53"), Bus("11:08", "11:15")]
    case 9 => [Bus("11:38", "11:53"), Bus("13:08", "13:15")]
    case 10 => [Bus("13:38", "13:53"), Bus("14:08", "14:15")]
    case 11 => [Bus("14:38", "14:53"), Bus("15:08", "15:15")]
    case 12 => [Bus("15:38", "15:53"), Bus("16:08", "16:15")]
    case 13 => [Bus("16:38", "16:53"), Bus("17:12", "17:19")]
    case 14 => [Bus("17:46", "17:53"), Bus("18:11", "18:18")]
    case 15 => [Bus("18:28", "18:35"), Bus("18:46", "18:53")]
    case 16 => [Bus("19:10", "19:17"), Bus("19:27", "19:34")]
    case 17 => [Bus("19:41", "19:48"), Bus("20:00", "20:07")]
    case 18 => [Bus("20:20", "20:27"), Bus("20:43", "20:50")]
    case 19 => [Bus("21:00", "21:07"), Bus("21:17", "21:24")]
    case 20 => [Bus("21:39", "21:46"), Bus("22:04", "22:11")]
    case 21 => [Bus("22:28", "22:35"), Bus("22:46", "22:53")]
    case 22 => [Bus("23:15", "23:22"), Bus("23:47", "23:54")]
    case _ => [Bus("0:13", "0:20")]
  }

  /** Run `i` of a route, counting from the first run of the day. */
  function Run(route: Route, i: nat): Bus
    requires i < RunsPerRoute
  {
    match route
    case MansionToStation => MansionToStationLine(i / 2)[i % 2]
    case StationToMansion => StationToMansionLine(i / 2)[i % 2]
  }

  /** The fixed list of a route, in published order. */
  function Timetable(route: Route): (tt: seq<Bus>)
    ensures |tt| == RunsPerRoute
    ensures forall i | 0 <= i < RunsPerRoute :: tt[i] == Run(route, i)
  {
    seq(RunsPerRoute, i requires 0 <= i < RunsPerRoute => Run(route, i))
  }

  /** `allTimetables` once `setupTimetables` has run: both routes, each with its list. */
  function AllTimetables(): (tables: map<Route, seq<Bus>>)
    ensures tables.Keys == {MansionToStation, StationToMansion}
    ensures MansionToStation in tables && tables[MansionToStation] == Timetable(MansionToStation)
    ensures StationToMansion in tables && tables[StationToMansion] == Timetable(StationToMansion)
  {
    map[MansionToStation := Timetable(MansionToStation), StationToMansion := Timetable(StationToMansion)]
  }

  /** The hour at which the service day starts; earlier runs belong to the night. */
  const ServiceDayStart := 4 * MinutesPerHour

  /** A minute of the day placed on the service day that starts at 04:00. */
  function ServiceMinute(m: MinuteOfDay): (s: int)
    ensures ServiceDayStart <= s < ServiceDayStart + MinutesPerDay
    ensures s == m || s == m + MinutesPerDay
  {
    if m < ServiceDayStart then m + MinutesPerDay else m
  }

  /** Both times of the run are timetable times, and it arrives after it leaves. */
  predicate WellFormedRun(b: Bus)
  {
    && IsTimetableTime(b.departure)
    && IsTimetableTime(b.arrival)
    && ServiceMinute(TextMinute(b.departure)) < ServiceMinute(TextMinute(b.arrival))
  }

  /** Run `b` leaves before run `c` on the service day. */
  predicate DepartsBefore(b: Bus, c: Bus)
    requires IsTimetableTime(b.departure) && IsTimetableTime(c.departure)
  {
    ServiceMinute(TextMinute(b.departure)) < ServiceMinute(TextMinute(c.departure))
  }

  /** Run `b` is well formed and leaves before the run after it, if any. */
  predicate KeepsOrder(b: Bus, next: Option<Bus>)
  {
    && WellFormedRun(b)
    && (next.Some? ==> IsTimetableTime(next.value.departure) && DepartsBefore(b, next.value))
  }

  /** Run `i` of the route is well formed and leaves before the next run. */
  predicate RunKeepsOrder(route: Route, i: nat)
    requires i < RunsPerRoute
  {
    KeepsOrder(Run(route, i), if i + 1 < RunsPerRoute then Some(Run(route, i + 1)) else None)
  }

  // One lemma per run of MansionToStation. The order of the runs is checked on the literal
  // times themselves, and each literal the solver reads is costly: a proof over
  // a symbolic run, or over several runs at once, would exceed the solver's budget,
  // whereas each proof below reads only the two lines holding run `i` and run
  // `i + 1`. The lemma after them picks the one for a given run.
  lemma MansionToStationRun0KeepsOrder() ensures RunKeepsOrder(MansionToStation, 0) {}
  lemma MansionToStationRun1KeepsOrder() ensures RunKeepsOrder(MansionToStation, 1) {}
  lemma MansionToStationRun2KeepsOrder() ensures RunKeepsOrder(MansionToStation, 2) {}
  lemma MansionToStationRun3KeepsOrder() ensures RunKeepsOrder(MansionToStation, 3) {}
  lemma MansionToStationRun4KeepsOrder() ensures RunKeepsOrder(MansionToStation, 4) {}
  lemma MansionToStationRun5KeepsOrder() ensures RunKeepsOrder(MansionToStation, 5) {}
  lemma MansionToStationRun6KeepsOrder() ensures RunKeepsOrder(MansionToStation, 6) {}
  lemma MansionToStationRun7KeepsOrder() ensures RunKeepsOrder(MansionToStation, 7) {}
  lemma MansionToStationRun8KeepsOrder() ensures RunKeepsOrder(MansionToStation, 8) {}
  lemma MansionToStationRun9KeepsOrder() ensures RunKeepsOrder(MansionToStation, 9) {}
  lemma MansionToStationRun10KeepsOrder() ensures RunKeepsOrder(MansionToStation, 10) {}
  lemma MansionToStationRun11KeepsOrder() ensures RunKeepsOrder(MansionToStation, 11) {}
  lemma MansionToStationRun12KeepsOrder() ensures RunKeepsOrder(MansionToStation, 12) {}
  lemma MansionToStationRun13KeepsOrder() ensures RunKeepsOrder(MansionToStation, 13) {}
  lemma MansionToStationRun14KeepsOrder() ensures RunKeepsOrder(MansionToStation, 14) {}
  lemma MansionToStationRun15KeepsOrder() ensures RunKeepsOrder(MansionToStation, 15) {}
  lemma MansionToStationRun16KeepsOrder() ensures RunKeepsOrder(MansionToStation, 16) {}
  lemma MansionToStationRun17KeepsOrder() ensures RunKeepsOrder(MansionToStation, 17) {}
  lemma MansionToStationRun18KeepsOrder() ensures RunKeepsOrder(MansionToStation, 18) {}
  lemma MansionToStationRun19KeepsOrder() ensures RunKeepsOrder(MansionToStation, 19) {}
  lemma MansionToStationRun20KeepsOrder() ensures RunKeepsOrder(MansionToStation, 20) {}
  lemma MansionToStationRun21KeepsOrder() ensures RunKeepsOrder(MansionToStation, 21) {}
  lemma MansionToStationRun22KeepsOrder() ensures RunKeepsOrder(MansionToStation, 22) {}
  lemma MansionToStationRun23KeepsOrder() ensures RunKeepsOrder(MansionToStation, 23) {}
  lemma MansionToStationRun24KeepsOrder() ensures RunKeepsOrder(MansionToStation, 24) {}
  lemma MansionToStationRun25KeepsOrder() ensures RunKeepsOrder(MansionToStation, 25) {}
  lemma MansionToStationRun26KeepsOrder() ensures RunKeepsOrder(MansionToStation, 26) {}
  lemma MansionToStationRun27KeepsOrder() ensures RunKeepsOrder(MansionToStation, 27) {}
  lemma MansionToStationRun28KeepsOrder() ensures RunKeepsOrder(MansionToStation, 28) {}
  lemma MansionToStationRun29KeepsOrder() ensures RunKeepsOrder(MansionToStation, 29) {}
  lemma MansionToStationRun30KeepsOrder() ensures RunKeepsOrder(MansionToStation, 30) {}
  lemma MansionToStationRun31KeepsOrder() ensures RunKeepsOrder(MansionToStation, 31) {}
  lemma MansionToStationRun32KeepsOrder() ensures RunKeepsOrder(MansionToStation, 32) {}
  lemma MansionToStationRun33KeepsOrder() ensures RunKeepsOrder(MansionToStation, 33) {}
  lemma MansionToStationRun34KeepsOrder() ensures RunKeepsOrder(MansionToStation, 34) {}
  lemma MansionToStationRun35KeepsOrder() ensures RunKeepsOrder(MansionToStation, 35) {}
  lemma MansionToStationRun36KeepsOrder() ensures RunKeepsOrder(MansionToStation, 36) {}
  lemma MansionToStationRun37KeepsOrder() ensures RunKeepsOrder(MansionToStation, 37) {}
  lemma MansionToStationRun38KeepsOrder() ensures RunKeepsOrder(MansionToStation, 38) {}
  lemma MansionToStationRun39KeepsOrder() ensures RunKeepsOrder(MansionToStation, 39) {}
  lemma MansionToStationRun40KeepsOrder() ensures RunKeepsOrder(MansionToStation, 40) {}
  lemma MansionToStationRun41KeepsOrder() ensures RunKeepsOrder(MansionToStation, 41) {}
  lemma MansionToStationRun42KeepsOrder() ensures RunKeepsOrder(MansionToStation, 42) {}
  lemma MansionToStationRun43KeepsOrder() ensures RunKeepsOrder(MansionToStation, 43) {}
  lemma MansionToStationRun44KeepsOrder() ensures RunKeepsOrder(MansionToStation, 44) {}
  lemma MansionToStationRun45KeepsOrder() ensures RunKeepsOrder(MansionToStation, 45) {}
  lemma MansionToStationRun46KeepsOrder() ensures RunKeepsOrder(MansionToStation, 46) {}

  /** Every run of MansionToStation is well formed and leaves before the next one. */
  lemma MansionToStationKeepsOrder(i: nat)
    requires i < RunsPerRoute
    ensures RunKeepsOrder(MansionToStation, i)
  {
    if i == 0 {
      MansionToStationRun0KeepsOrder();
    } else if i == 1 {
      MansionToStationRun1KeepsOrder();
    } else if i == 2 {
      MansionToStationRun2KeepsOrder();
    } else if i == 3 {
      MansionToStationRun3KeepsOrder();
    } else if i == 4 {
      MansionToStationRun4KeepsOrder();
    } else if i == 5 {
      MansionToStationRun5KeepsOrder();
    } else if i == 6 {
      MansionToStationRun6KeepsOrder();
    } else if i == 7 {
      MansionToStationRun7KeepsOrder();
    } else if i == 8 {
      MansionToStationRun8KeepsOrder();
    } else if i == 9 {
      MansionToStationRun9KeepsOrder();
    } else if i == 10 {
      MansionToStationRun10KeepsOrder();
    } else if i == 11 {
      MansionToStationRun11KeepsOrder();
    } else if i == 12 {
      MansionToStationRun12KeepsOrder();
    } else if i == 13 {
      MansionToStationRun13KeepsOrder();
    } else if i == 14 {
      MansionToStationRun14KeepsOrder();
    } else if i == 15 {
      MansionToStationRun15KeepsOrder();
    } else if i == 16 {
      MansionToStationRun16KeepsOrder();
    } else if i == 17 {
      MansionToStationRun17KeepsOrder();
    } else if i == 18 {
      MansionToStationRun18KeepsOrder();
    } else if i == 19 {
      MansionToStationRun19KeepsOrder();
    } else if i == 20 {
      MansionToStationRun20KeepsOrder();
    } else if i == 21 {
      MansionToStationRun21KeepsOrder();
    } else if i == 22 {
      MansionToStationRun22KeepsOrder();
    } else if i == 23 {
      MansionToStationRun23KeepsOrder();
    } else if i == 24 {
      MansionToStationRun24KeepsOrder();
    } else if i == 25 {
      MansionToStationRun25KeepsOrder();
    } else if i == 26 {
      MansionToStationRun26KeepsOrder();
    } else if i == 27 {
      MansionToStationRun27KeepsOrder();
    } else if i == 28 {
      MansionToStationRun28KeepsOrder();
    } else if i == 29 {
      MansionToStationRun29KeepsOrder();
    } else if i == 30 {
      MansionToStationRun30KeepsOrder();
    } else if i == 31 {
      MansionToStationRun31KeepsOrder();
    } else if i == 32 {
      MansionToStationRun32KeepsOrder();
    } else if i == 33 {
      MansionToStationRun33KeepsOrder();
    } else if i == 34 {
      MansionToStationRun34KeepsOrder();
    } else if i == 35 {
      MansionToStationRun35KeepsOrder();
    } else if i == 36 {
      MansionToStationRun36KeepsOrder();
    } else if i == 37 {
      MansionToStationRun37KeepsOrder();
    } else if i == 38 {
      MansionToStationRun38KeepsOrder();
    } else if i == 39 {
      MansionToStationRun39KeepsOrder();
    } else if i == 40 {
      MansionToStationRun40KeepsOrder();
    } else if i == 41 {
      MansionToStationRun41KeepsOrder();
    } else if i == 42 {
      MansionToStationRun42KeepsOrder();
    } else if i == 43 {
      MansionToStationRun43KeepsOrder();
    } else if i == 44 {
      MansionToStationRun44KeepsOrder();
    } else if i == 45 {
      MansionToStationRun45KeepsOrder();
    } else {
      MansionToStationRun46KeepsOrder();
    }
  }

  // One lemma per run of StationToMansion. The order of the runs is checked on the literal
  // times themselves, and each literal the solver reads is costly: a proof over
  // a symbolic run, or over several runs at once, would exceed the solver's budget,
  // whereas each proof below reads only the two lines holding run `i` and run
  // `i + 1`. The lemma after them picks the one for a given run.
  lemma StationToMansionRun0KeepsOrder() ensures RunKeepsOrder(StationToMansion, 0) {}
  lemma StationToMansionRun1KeepsOrder() ensures RunKeepsOrder(StationToMansion, 1) {}
  lemma StationToMansionRun2KeepsOrder() ensures RunKeepsOrder(StationToMansion, 2) {}
  lemma StationToMansionRun3KeepsOrder() ensures RunKeepsOrder(StationToMansion, 3) {}
  lemma StationToMansionRun4KeepsOrder() ensures RunKeepsOrder(StationToMansion, 4) {}
  lemma StationToMansionRun5KeepsOrder() ensures RunKeepsOrder(StationToMansion, 5) {}
  lemma StationToMansionRun6KeepsOrder() ensures RunKeepsOrder(StationToMansion, 6) {}
  lemma StationToMansionRun7KeepsOrder() ensures RunKeepsOrder(StationToMansion, 7) {}
  lemma StationToMansionRun8KeepsOrder() ensures RunKeepsOrder(StationToMansion, 8) {}
  lemma StationToMansionRun9KeepsOrder() ensures RunKeepsOrder(StationToMansion, 9) {}
  lemma StationToMansionRun10KeepsOrder() ensures RunKeepsOrder(StationToMansion, 10) {}
  lemma StationToMansionRun11KeepsOrder() ensures RunKeepsOrder(StationToMansion, 11) {}
  lemma StationToMansionRun12KeepsOrder() ensures RunKeepsOrder(StationToMansion, 12) {}
  lemma StationToMansionRun13KeepsOrder() ensures RunKeepsOrder(StationToMansion, 13) {}
  lemma StationToMansionRun14KeepsOrder() ensures RunKeepsOrder(StationToMansion, 14) {}
  lemma StationToMansionRun15KeepsOrder() ensures RunKeepsOrder(StationToMansion, 15) {}
  lemma StationToMansionRun16KeepsOrder() ensures RunKeepsOrder(StationToMansion, 16) {}
  lemma StationToMansionRun17KeepsOrder() ensures RunKeepsOrder(StationToMansion, 17) {}
  lemma StationToMansionRun18KeepsOrder() ensures RunKeepsOrder(StationToMansion, 18) {}
  lemma StationToMansionRun19KeepsOrder() ensures RunKeepsOrder(StationToMansion, 19) {}
  lemma StationToMansionRun20KeepsOrder() ensures RunKeepsOrder(StationToMansion, 20) {}
  lemma StationToMansionRun21KeepsOrder() ensures RunKeepsOrder(StationToMansion, 21) {}
  lemma StationToMansionRun22KeepsOrder() ensures RunKeepsOrder(StationToMansion, 22) {}
  lemma StationToMansionRun23KeepsOrder() ensures RunKeepsOrder(StationToMansion, 23) {}
  lemma StationToMansionRun24KeepsOrder() ensures RunKeepsOrder(StationToMansion, 24) {}
  lemma StationToMansionRun25KeepsOrder() ensures RunKeepsOrder(StationToMansion, 25) {}
  lemma StationToMansionRun26KeepsOrder() ensures RunKeepsOrder(StationToMansion, 26) {}
  lemma StationToMansionRun27KeepsOrder() ensures RunKeepsOrder(StationToMansion, 27) {}
  lemma StationToMansionRun28KeepsOrder() ensures RunKeepsOrder(StationToMansion, 28) {}
  lemma StationToMansionRun29KeepsOrder() ensures RunKeepsOrder(StationToMansion, 29) {}
  lemma StationToMansionRun30KeepsOrder() ensures RunKeepsOrder(StationToMansion, 30) {}
  lemma StationToMansionRun31KeepsOrder() ensures RunKeepsOrder(StationToMansion, 31) {}
  lemma StationToMansionRun32KeepsOrder() ensures RunKeepsOrder(StationToMansion, 32) {}
  lemma StationToMansionRun33KeepsOrder() ensures RunKeepsOrder(StationToMansion, 33) {}
  lemma StationToMansionRun34KeepsOrder() ensures RunKeepsOrder(StationToMansion, 34) {}
  lemma StationToMansionRun35KeepsOrder() ensures RunKeepsOrder(StationToMansion, 35) {}
  lemma StationToMansionRun36KeepsOrder() ensures RunKeepsOrder(StationToMansion, 36) {}
  lemma StationToMansionRun37KeepsOrder() ensures RunKeepsOrder(StationToMansion, 37) {}
  lemma StationToMansionRun38KeepsOrder() ensures RunKeepsOrder(StationToMansion, 38) {}
  lemma StationToMansionRun39KeepsOrder() ensures RunKeepsOrder(StationToMansion, 39) {}
  lemma StationToMansionRun40KeepsOrder() ensures RunKeepsOrder(StationToMansion, 40) {}
  lemma StationToMansionRun41KeepsOrder() ensures RunKeepsOrder(StationToMansion, 41) {}
  lemma StationToMansionRun42KeepsOrder() ensures RunKeepsOrder(StationToMansion, 42) {}
  lemma StationToMansionRun43KeepsOrder() ensures RunKeepsOrder(StationToMansion, 43) {}
  lemma StationToMansionRun44KeepsOrder() ensures RunKeepsOrder(StationToMansion, 44) {}
  lemma StationToMansionRun45KeepsOrder() ensures RunKeepsOrder(StationToMansion, 45) {}
  lemma StationToMansionRun46KeepsOrder() ensures RunKeepsOrder(StationToMansion, 46) {}

  /** Every run of StationToMansion is well formed and leaves before the next one. */
  lemma StationToMansionKeepsOrder(i: nat)
    requires i < RunsPerRoute
    ensures RunKeepsOrder(StationToMansion, i)
  {
    if i == 0 {
      StationToMansionRun0KeepsOrder();
    } else if i == 1 {
      StationToMansionRun1KeepsOrder();
    } else if i == 2 {
      StationToMansionRun2KeepsOrder();
    } else if i == 3 {
      StationToMansionRun3KeepsOrder();
    } else if i == 4 {
      StationToMansionRun4KeepsOrder();
    } else if i == 5 {
      StationToMansionRun5KeepsOrder();
    } else if i == 6 {
      StationToMansionRun6KeepsOrder();
    } else if i == 7 {
      StationToMansionRun7KeepsOrder();
    } else if i == 8 {
      StationToMansionRun8KeepsOrder();
    } else if i == 9 {
      StationToMansionRun9KeepsOrder();
    } else if i == 10 {
      StationToMansionRun10KeepsOrder();
    } else if i == 11 {
      StationToMansionRun11KeepsOrder();
    } else if i == 12 {
      StationToMansionRun12KeepsOrder();
    } else if i == 13 {
      StationToMansionRun13KeepsOrder();
    } else if i == 14 {
      StationToMansionRun14KeepsOrder();
    } else if i == 15 {
      StationToMansionRun15KeepsOrder();
    } else if i == 16 {
      StationToMansionRun16KeepsOrder();
    } else if i == 17 {
      StationToMansionRun17KeepsOrder();
    } else if i == 18 {
      StationToMansionRun18KeepsOrder();
    } else if i == 19 {
      StationToMansionRun19KeepsOrder();
    } else if i == 20 {
      StationToMansionRun20KeepsOrder();
    } else if i == 21 {
      StationToMansionRun21KeepsOrder();
    } else if i == 22 {
      StationToMansionRun22KeepsOrder();
    } else if i == 23 {
      StationToMansionRun23KeepsOrder();
    } else if i == 24 {
      StationToMansionRun24KeepsOrder();
    } else if i == 25 {
      StationToMansionRun25KeepsOrder();
    } else if i == 26 {
      StationToMansionRun26KeepsOrder();
    } else if i == 27 {
      StationToMansionRun27KeepsOrder();
    } else if i == 28 {
      StationToMansionRun28KeepsOrder();
    } else if i == 29 {
      StationToMansionRun29KeepsOrder();
    } else if i == 30 {
      StationToMansionRun30KeepsOrder();
    } else if i == 31 {
      StationToMansionRun31KeepsOrder();
    } else if i == 32 {
      StationToMansionRun32KeepsOrder();
    } else if i == 33 {
      StationToMansionRun33KeepsOrder();
    } else if i == 34 {
      StationToMansionRun34KeepsOrder();
    } else if i == 35 {
      StationToMansionRun35KeepsOrder();
    } else if i == 36 {
      StationToMansionRun36KeepsOrder();
    } else if i == 37 {
      StationToMansionRun37KeepsOrder();
    } else if i == 38 {
      StationToMansionRun38KeepsOrder();
    } else if i == 39 {
      StationToMansionRun39KeepsOrder();
    } else if i == 40 {
      StationToMansionRun40KeepsOrder();
    } else if i == 41 {
      StationToMansionRun41KeepsOrder();
    } else if i == 42 {
      StationToMansionRun42KeepsOrder();
    } else if i == 43 {
      StationToMansionRun43KeepsOrder();
    } else if i == 44 {
      StationToMansionRun44KeepsOrder();
    } else if i == 45 {
      StationToMansionRun45KeepsOrder();
    } else {
      StationToMansionRun46KeepsOrder();
    }
  }

  /** Every run of the list is well formed and leaves before the next one. */
  predicate RunsInOrder(tt: seq<Bus>)
  {
    && (forall k | 0 <= k < |tt| :: WellFormedRun(tt[k]))
    && (forall k | 0 <= k < |tt| - 1 :: DepartsBefore(tt[k], tt[k + 1]))
  }

  /** Each fixed list keeps its order from one run to the next, checked run by run. */
  lemma TimetableRunsInOrder(route: Route)
    ensures RunsInOrder(Timetable(route))
  {
    var tt := Timetable(route);
    forall k | 0 <= k < |tt|
      ensures RunKeepsOrder(route, k)
    {
      if route == MansionToStation {
        MansionToStationKeepsOrder(k);
      } else {
        StationToMansionKeepsOrder(k);
      }
    }
    forall k | 0 <= k < |tt|
      ensures WellFormedRun(tt[k])
    {
      assert RunKeepsOrder(route, k);
    }
    forall k | 0 <= k < |tt| - 1
      ensures DepartsBefore(tt[k], tt[k + 1])
    {
      assert RunKeepsOrder(route, k);
    }
  }

  /** Both times of the run read as times of day. */
  predicate Parses(b: Bus)
  {
    ParseTime(b.departure).Some? && ParseTime(b.arrival).Some?
  }

  /** When run `b` leaves, on the service day. */
  function LeavesAt(b: Bus): int
    requires ParseTime(b.departure).Some?
  {
    ServiceMinute(ParseTime(b.departure).value)
  }

  /** When run `b` arrives, on the service day. */
  function ArrivesAt(b: Bus): int
    requires ParseTime(b.arrival).Some?
  {
    ServiceMinute(ParseTime(b.arrival).value)
  }

  /**
   * The order a timetable is published in: all times parse, departures
   * strictly increase on the service day, and each run arrives after it leaves.
   */
  predicate Chronological(tt: seq<Bus>)
  {
    && (forall i | 0 <= i < |tt| :: Parses(tt[i]) && LeavesAt(tt[i]) < ArrivesAt(tt[i]))
    && (forall i, j | 0 <= i < j < |tt| :: LeavesAt(tt[i]) < LeavesAt(tt[j]))
  }

  /** Departures that increase from each run to the next increase across the whole list. */
  lemma {:induction false} DepartsInOrder(tt: seq<Bus>, i: nat, j: nat)
    requires RunsInOrder(tt)
    requires i < j < |tt|
    ensures DepartsBefore(tt[i], tt[j])
    decreases j - i
  {
    assert DepartsBefore(tt[i], tt[i + 1]);
    if i + 1 < j {
      DepartsInOrder(tt, i + 1, j);
    }
  }

  /** A list kept in order from run to run is chronological as a whole. */
  lemma {:induction false} RunsInOrderAreChronological(tt: seq<Bus>)
    requires RunsInOrder(tt)
    ensures Chronological(tt)
  {
    forall i | 0 <= i < |tt|
      ensures Parses(tt[i]) && LeavesAt(tt[i]) == ServiceMinute(TextMinute(tt[i].departure))
      ensures ArrivesAt(tt[i]) == ServiceMinute(TextMinute(tt[i].arrival))
    {
      ReadsTimetableTime(tt[i].departure);
      ReadsTimetableTime(tt[i].arrival);
    }
    forall i, j | 0 <= i < j < |tt|
      ensures LeavesAt(tt[i]) < LeavesAt(tt[j])
    {
      DepartsInOrder(tt, i, j);
    }
  }

  /** Both fixed timetables are published in chronological order. */
  lemma TimetablesAreChronological(route: Route)
    ensures Chronological(AllTimetables()[route])
  {
    TimetableRunsInOrder(route);
    RunsInOrderAreChronological(Timetable(route));
  }

  /** In a chronological timetable no two runs share a departure, so the ids are unique. */
  lemma ChronologicalIdsAreDistinct(tt: seq<Bus>)
    requires Chronological(tt)
    ensures forall i, j | 0 <= i < j < |tt| :: tt[i].Id() != tt[j].Id()
  {
  }

  /** No two runs of a fixed timetable share an id. */
  lemma TimetableIdsAreDistinct(route: Route)
    ensures var tt := AllTimetables()[route];
      forall i, j | 0 <= i < j < |tt| :: tt[i].Id() != tt[j].Id()
  {
    TimetablesAreChronological(route);
    ChronologicalIdsAreDistinct(AllTimetables()[route]);
  }
}
