/**
 * `updateCountdown`'s arithmetic: how long until a run next leaves, and the
 * message shown for it. Times are whole seconds of the day; the run leaves
 * at the start of its minute, today if that is not yet past, else tomorrow.
 */
module Countdown {
  import opened Wrappers
  import opened DataModels
  import opened TimeOfDay

  const SecondsPerMinute := 60
  const SecondsPerHour := 60 * SecondsPerMinute
  const SecondsPerDay := 24 * SecondsPerHour

  /** A moment of the day, in seconds after midnight. */
  type SecondOfDay = s: int | 0 <= s < SecondsPerDay

  /**
   * The message for one run: already departed, hours and minutes to go,
   * minutes to go, or departing now.
   */
  datatype Countdown =
    | Departed
    | HoursMinutes(hours: int, minutes: int)
    | Minutes(minutes: int)
    | DepartingNow

  /** Seconds from `now` until the run leaving at `busMinute` next leaves. */
  function SecondsUntil(busMinute: MinuteOfDay, now: SecondOfDay): (wait: int)
    ensures 0 <= wait < SecondsPerDay
    ensures (now + wait) % SecondsPerDay == busMinute * SecondsPerMinute
  {
    var target := busMinute * SecondsPerMinute;
    var next := if target < now then target + SecondsPerDay else target;
    next - now
  }

  /** No shorter wait reaches the run's minute: the run counted is the next one to leave. */
  lemma SecondsUntilIsNext(busMinute: MinuteOfDay, now: SecondOfDay, w: int)
    requires 0 <= w
    requires (now + w) % SecondsPerDay == busMinute * SecondsPerMinute
    ensures SecondsUntil(busMinute, now) <= w
  {
    var wait := SecondsUntil(busMinute, now);
    var q, q' := (now + w) / SecondsPerDay, (now + wait) / SecondsPerDay;
    assert now + w == q * SecondsPerDay + busMinute * SecondsPerMinute;
    assert now + wait == q' * SecondsPerDay + busMinute * SecondsPerMinute;
    assert w - wait == (q - q') * SecondsPerDay;
  }

  /** The message `updateCountdown` stores for a run leaving at `busMinute`, seen at `now`. */
  function CountdownFor(busMinute: MinuteOfDay, now: SecondOfDay): (c: Countdown)
    ensures c != Departed
    ensures c.HoursMinutes? ==> 1 <= c.hours < 24 && 0 <= c.minutes < 60
    ensures c.Minutes? ==> 1 <= c.minutes < 60
  {
    var diff := SecondsUntil(busMinute, now);
    var hours := diff / SecondsPerHour;
    var minutes := diff % SecondsPerHour / SecondsPerMinute;
    if hours < 0 || (hours == 0 && minutes < 0) then Departed
    else if hours > 0 then HoursMinutes(hours, minutes)
    else if minutes > 0 then Minutes(minutes)
    else DepartingNow
  }

  /**
   * The message reads the wait: hours and minutes together make its whole
   * minutes once it is an hour or more, the minutes alone below that, and
   * "departing now" in its last minute.
   */
  lemma CountdownReadsWait(busMinute: MinuteOfDay, now: SecondOfDay)
    ensures var w, c := SecondsUntil(busMinute, now), CountdownFor(busMinute, now);
      && (c.HoursMinutes? <==> w >= SecondsPerHour)
      && (c.HoursMinutes? ==> c.hours * 60 + c.minutes == w / SecondsPerMinute)
      && (c.Minutes? <==> SecondsPerMinute <= w < SecondsPerHour)
      && (c.Minutes? ==> c.minutes == w / SecondsPerMinute)
      && (c == DepartingNow <==> w < SecondsPerMinute)
  {
  }

  /** The last run of the night, at 0:04, seen at 23:50:00: fourteen minutes to go. */
  lemma FourteenMinutesBeforeLastRun()
    ensures CountdownFor(4, 23 * SecondsPerHour + 50 * SecondsPerMinute) == Minutes(14)
  {
  }

  /** A run seen at the instant its minute begins is departing now, not departed. */
  lemma RunLeavingNowIsDepartingNow(busMinute: MinuteOfDay)
    ensures CountdownFor(busMinute, busMinute * SecondsPerMinute) == DepartingNow
  {
  }

  /** A run whose minute began one second ago is a whole day away. */
  lemma RunJustGoneIsTomorrow(busMinute: MinuteOfDay)
    requires busMinute * SecondsPerMinute + 1 < SecondsPerDay
    ensures SecondsUntil(busMinute, busMinute * SecondsPerMinute + 1) == SecondsPerDay - 1
    ensures CountdownFor(busMinute, busMinute * SecondsPerMinute + 1) == HoursMinutes(23, 59)
  {
  }

  /**
   * The map `updateCountdown` builds from `buses`: one entry per run whose
   * departure parses, keyed by its id, later runs overwriting earlier ones.
   */
  function CountdownMessages(buses: seq<Bus>, now: SecondOfDay): (m: map<string, Countdown>)
    ensures m.Keys == set b | b in buses && ParseTime(b.departure).Some? :: b.Id()
    ensures forall b | b in buses && ParseTime(b.departure).Some? ::
      m[b.Id()] == CountdownFor(ParseTime(b.departure).value, now)
  {
    if |buses| == 0 then map[]
    else
      var earlier := CountdownMessages(buses[..|buses| - 1], now);
      var b := buses[|buses| - 1];
      assert buses == buses[..|buses| - 1] + [b];
      match ParseTime(b.departure)
      case None => earlier
      case Some(d) => earlier[b.Id() := CountdownFor(d, now)]
  }
}
