/**
 * Reading "H:MM" strings into minutes of the day, as the view model's
 * `timeStringToDate` followed by `timeToMinutes` does, and the clock
 * formatter that is its inverse.
 */
module TimeOfDay {
  import opened Wrappers

  const MinutesPerHour := 60
  const MinutesPerDay := 24 * MinutesPerHour

  /** The hour and minute of a time of day, as `timeToMinutes` reads them. */
  type MinuteOfDay = m: int | 0 <= m < MinutesPerDay

  const Separator := ':'

  /** Position of the first separator in `s`, or `|s|` when there is none. */
  function SeparatorIndex(s: string): (i: nat)
    ensures i <= |s|
    ensures i < |s| ==> s[i] == Separator
    ensures forall k :: 0 <= k < i ==> s[k] != Separator
  {
    if s == [] || s[0] == Separator then 0 else 1 + SeparatorIndex(s[1..])
  }

  /**
   * `split(separator: ":")` on a Swift string: the maximal separator-free
   * runs of `s`, in order; empty runs are omitted, so "7::10" gives
   * ["7", "10"] and ":" gives [].
   */
  function Split(s: string): (pieces: seq<string>)
    ensures forall k :: 0 <= k < |pieces| ==> pieces[k] != [] && Separator !in pieces[k]
    decreases |s|
  {
    var i := SeparatorIndex(s);
    var head := if i == 0 then [] else [s[..i]];
    if i == |s| then head else head + Split(s[i + 1..])
  }

  predicate IsDigit(c: char)
  {
    '0' <= c <= '9'
  }

  predicate AllDigits(s: string)
  {
    forall k :: 0 <= k < |s| ==> IsDigit(s[k])
  }

  function DigitValue(c: char): int
    requires IsDigit(c)
  {
    c as int - '0' as int
  }

  /** The value of a string of decimal digits, most significant first. */
  function DigitsValue(s: string): nat
    requires AllDigits(s)
  {
    if s == [] then 0 else DigitsValue(s[..|s| - 1]) * 10 + DigitValue(s[|s| - 1])
  }

  /** The range of Swift's `Int` (64 bits). */
  const IntMin := -0x8000_0000_0000_0000
  const IntMax := 0x7fff_ffff_ffff_ffff

  /** The length of the optional leading '+' or '-'. */
  function SignLength(s: string): nat
  {
    if |s| > 0 && (s[0] == '+' || s[0] == '-') then 1 else 0
  }

  /**
   * Swift's `Int(_: String)`: an optional '+' or '-', then one or more
   * ASCII digits; anything else, or a value outside `Int`, gives nil.
   */
  function ParseInt(s: string): (r: Option<int>)
    ensures r.Some? ==> IntMin <= r.value <= IntMax
    ensures s != [] && AllDigits(s) ==>
      r == if DigitsValue(s) <= IntMax then Some(DigitsValue(s)) else None
    ensures |s| > 1 && s[0] == '+' && AllDigits(s[1..]) ==>
      r == if DigitsValue(s[1..]) <= IntMax then Some(DigitsValue(s[1..]) as int) else None
    ensures |s| > 1 && s[0] == '-' && AllDigits(s[1..]) ==>
      r == if DigitsValue(s[1..]) <= -IntMin then Some(0 - DigitsValue(s[1..])) else None
    ensures |s| == SignLength(s) ==> r == None
    ensures (exists k | SignLength(s) <= k < |s| :: !IsDigit(s[k])) ==> r == None
  {
    var digits := s[SignLength(s)..];
    if digits == [] || !AllDigits(digits) then None
    else
      var v: int := if SignLength(s) == 1 && s[0] == '-' then 0 - DigitsValue(digits) else DigitsValue(digits);
      if IntMin <= v <= IntMax then Some(v) else None
  }

  /** `Int($0) ?? 0`: a piece that is not a number counts as 0. */
  function Component(piece: string): (v: int)
    ensures IntMin <= v <= IntMax
    ensures AllDigits(piece) && DigitsValue(piece) <= IntMax ==> v == DigitsValue(piece)
    ensures (exists k | SignLength(piece) <= k < |piece| :: !IsDigit(piece[k])) ==> v == 0
  {
    match ParseInt(piece)
    case Some(v) => v
    case None => 0
  }

  /**
   * The minute of the day of the time the calendar builds from an hour and a
   * minute component. In range it is `hour * 60 + minute`; other values are
   * carried over into the neighbouring hours and days.
   */
  function CalendarMinute(hour: int, minute: int): (m: MinuteOfDay)
    ensures 0 <= hour < 24 && 0 <= minute < MinutesPerHour ==> m == hour * MinutesPerHour + minute
    ensures (m - (hour * MinutesPerHour + minute)) % MinutesPerDay == 0
  {
    (hour * MinutesPerHour + minute) % MinutesPerDay
  }

  /**
   * `timeToMinutes(timeStringToDate(s))`: nil unless `s` splits into exactly
   * two pieces; each piece read by `Component`.
   */
  function ParseTime(s: string): (r: Option<MinuteOfDay>)
    ensures r.Some? <==> |Split(s)| == 2
    ensures var p := Split(s);
      |p| == 2 && 0 <= Component(p[0]) < 24 && 0 <= Component(p[1]) < MinutesPerHour ==>
      r == Some(Component(p[0]) * MinutesPerHour + Component(p[1]))
  {
    var pieces := Split(s);
    if |pieces| != 2 then None
    else Some(CalendarMinute(Component(pieces[0]), Component(pieces[1])))
  }

  function DigitChar(d: int): (c: char)
    requires 0 <= d < 10
    ensures IsDigit(c) && DigitValue(c) == d
  {
    ('0' as int + d) as char
  }

  function TwoDigits(n: int): string
    requires 0 <= n < 100
  {
    [DigitChar(n / 10), DigitChar(n % 10)]
  }

  /** The hour, with a leading zero below 10 only when `padHour` is set. */
  function HourText(h: int, padHour: bool): string
    requires 0 <= h < 24
  {
    if h < 10 && !padHour then [DigitChar(h)] else TwoDigits(h)
  }

  /**
   * A minute of the day written as a clock time: "H:MM" as in the
   * timetables, or "HH:mm" (the date formatter's pattern) when `padHour`.
   */
  function Clock(m: MinuteOfDay, padHour: bool): string
  {
    HourText(m / MinutesPerHour, padHour) + [Separator] + TwoDigits(m % MinutesPerHour)
  }

  /** A separator-free string is one piece, or none when it is empty. */
  lemma SplitPiece(a: string)
    requires Separator !in a
    ensures Split(a) == if a == [] then [] else [a]
  {
    assert forall k | 0 <= k < |a| :: a[k] in a;
    assert a[..|a|] == a;
  }

  /** A separator-free prefix ending at a separator is split off as the first piece, unless it is empty. */
  lemma SplitAfterPiece(a: string, rest: string)
    requires Separator !in a
    ensures Split(a + [Separator] + rest) == (if a == [] then [] else [a]) + Split(rest)
  {
    var s := a + [Separator] + rest;
    assert s[|a|] == Separator;
    assert forall k | 0 <= k < |a| :: s[k] == a[k] && a[k] in a;
    assert SeparatorIndex(s) == |a|;
    assert s[..|a|] == a;
    assert s[|a| + 1..] == rest;
  }

  /** Two separator-free, non-empty pieces joined by one separator split back into themselves. */
  lemma SplitAroundSeparator(a: string, b: string)
    requires a != [] && Separator !in a
    requires b != [] && Separator !in b
    ensures Split(a + [Separator] + b) == [a, b]
  {
    SplitAfterPiece(a, b);
    SplitPiece(b);
  }

  /** Without a separator there is no time: "7" reads as nil. */
  lemma NoSeparatorIsNoTime(s: string)
    requires Separator !in s
    ensures ParseTime(s) == None
  {
    SplitPiece(s);
  }

  /** Three pieces are one too many: "7:10:00" reads as nil, even though each piece is a number. */
  lemma ThreePiecesAreNoTime(a: string, b: string, c: string)
    requires a != [] && Separator !in a
    requires b != [] && Separator !in b
    requires c != [] && Separator !in c
    ensures ParseTime(a + [Separator] + b + [Separator] + c) == None
  {
    assert a + [Separator] + b + [Separator] + c == a + [Separator] + (b + [Separator] + c);
    SplitAfterPiece(a, b + [Separator] + c);
    SplitAroundSeparator(b, c);
  }

  /** Empty pieces vanish: "7::10" reads as 7:10, and ":10" as nil. */
  lemma EmptyPiecesVanish(a: string, b: string)
    requires a != [] && Separator !in a
    requires b != [] && Separator !in b
    ensures ParseTime(a + [Separator, Separator] + b) == ParseTime(a + [Separator] + b)
    ensures ParseTime([Separator] + b) == None
  {
    assert a + [Separator, Separator] + b == a + [Separator] + ([] + [Separator] + b);
    SplitAfterPiece(a, [] + [Separator] + b);
    SplitAfterPiece([], b);
    assert [] + [Separator] + b == [Separator] + b;
    SplitPiece(b);
    SplitAroundSeparator(a, b);
  }

  /** A piece that is not a number counts as 0: "7:xx" reads as 7:00. */
  lemma NonNumericPieceIsZero(a: string, b: string)
    requires a != [] && Separator !in a && AllDigits(a) && DigitsValue(a) < 24
    requires b != [] && Separator !in b && ParseInt(b) == None
    ensures ParseTime(a + [Separator] + b) == Some(DigitsValue(a) * MinutesPerHour)
  {
    SplitAroundSeparator(a, b);
  }

  lemma TwoDigitsValue(n: int)
    requires 0 <= n < 100
    ensures TwoDigits(n) != [] && Separator !in TwoDigits(n)
    ensures ParseInt(TwoDigits(n)) == Some(n)
  {
    var s := TwoDigits(n);
    assert s[..1][..0] == [];
    assert DigitsValue(s[..1]) == n / 10;
  }

  lemma HourTextValue(h: int, padHour: bool)
    requires 0 <= h < 24
    ensures HourText(h, padHour) != [] && Separator !in HourText(h, padHour)
    ensures ParseInt(HourText(h, padHour)) == Some(h)
  {
    if h < 10 && !padHour {
      var s := HourText(h, padHour);
      assert s[..0] == [];
      assert DigitsValue(s) == h;
    } else {
      TwoDigitsValue(h);
    }
  }

  /** Reading a formatted clock time gives back the minute it was made from. */
  lemma ParseClock(m: MinuteOfDay, padHour: bool)
    ensures ParseTime(Clock(m, padHour)) == Some(m)
  {
    var h := HourText(m / MinutesPerHour, padHour);
    var mm := TwoDigits(m % MinutesPerHour);
    HourTextValue(m / MinutesPerHour, padHour);
    TwoDigitsValue(m % MinutesPerHour);
    SplitAroundSeparator(h, mm);
  }

  /** "H:MM" or "HH:MM" written with ASCII digits, as in the timetables. */
  predicate IsClockText(s: string)
  {
    && (|s| == 4 || |s| == 5)
    && s[|s| - 3] == Separator
    && IsDigit(s[0]) && (|s| == 5 ==> IsDigit(s[1]))
    && IsDigit(s[|s| - 2]) && IsDigit(s[|s| - 1])
  }

  /** The hour and minute a clock text spells, read digit by digit. */
  function ClockTextHour(s: string): int
    requires IsClockText(s)
  {
    if |s| == 4 then DigitValue(s[0]) else 10 * DigitValue(s[0]) + DigitValue(s[1])
  }

  function ClockTextMinute(s: string): int
    requires IsClockText(s)
  {
    10 * DigitValue(s[|s| - 2]) + DigitValue(s[|s| - 1])
  }

  /** A clock text reads as the hour and minute its digits spell. */
  lemma ReadsClockText(s: string)
    requires IsClockText(s)
    ensures ParseTime(s) == Some(CalendarMinute(ClockTextHour(s), ClockTextMinute(s)))
  {
    var i := |s| - 3;
    var hour, minute := s[..i], s[i + 1..];
    assert s == hour + [Separator] + minute;
    assert hour[..|hour| - 1] == if i == 1 then [] else [s[0]];
    assert minute[..1] == [s[i + 1]] && minute[..1][..0] == [];
    SplitAroundSeparator(hour, minute);
    if i == 1 {
      assert hour == [s[0]] && hour[..0] == [];
      assert DigitsValue(hour) == DigitsValue([]) * 10 + DigitValue(s[0]);
    } else {
      assert hour == [s[0], s[1]] && hour[..1] == [s[0]] && hour[..1][..0] == [];
      assert DigitsValue(hour[..1]) == DigitValue(s[0]);
      assert DigitsValue(hour) == DigitsValue(hour[..1]) * 10 + DigitValue(s[1]);
    }
    assert AllDigits(hour) && DigitsValue(hour) == ClockTextHour(s);
    assert AllDigits(minute) && DigitsValue(minute) == ClockTextMinute(s);
    assert ParseInt(hour) == Some(ClockTextHour(s));
    assert ParseInt(minute) == Some(ClockTextMinute(s));
  }

  /** A time as the timetables write it: "H:MM" or "HH:MM", hour below 24, minute below 60. */
  predicate IsTimetableTime(s: string)
  {
    IsClockText(s) && ClockTextHour(s) < 24 && ClockTextMinute(s) < MinutesPerHour
  }

  function TextMinute(s: string): MinuteOfDay
    requires IsTimetableTime(s)
  {
    ClockTextHour(s) * MinutesPerHour + ClockTextMinute(s)
  }

  /** A timetable time parses to the minute its digits spell. */
  lemma ReadsTimetableTime(s: string)
    requires IsTimetableTime(s)
    ensures ParseTime(s) == Some(TextMinute(s))
  {
    ReadsClockText(s);
  }
}
