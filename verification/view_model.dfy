/**
 * `BusTimetableViewModel`: the state the screen shows and the operations
 * that change it. The clock and calendar are inputs: `now` is a minute or a
 * second of the day, and the holiday check is given the weekday and the date.
 *
 * Each operation is specified by a function on a snapshot of the fields
 * (`ViewState`); the lemmas about those functions state what the operations
 * promise, and each method is proved to leave the fields as its function says.
 */
module ViewModel {
  import opened Wrappers
  import opened DataModels
  import opened TimeOfDay
  import opened Timetables
  import opened Search
  import opened Holidays
  import opened Countdown

  /** What the user searches by: the time to leave, or the time to arrive by. */
  datatype SearchType = Departure | Arrival

  /** The search criteria line shown above the results. */
  datatype Description =
    | NotYetSearched
    | SuspendedToday
    | ArrivalTarget(clock: string)
    | DepartureGuide(clock: string)

  /** A snapshot of every field of the view model. */
  datatype ViewState = ViewState(
    selectedRoute: Route,
    searchType: SearchType,
    departureTime: MinuteOfDay,
    arrivalTime: MinuteOfDay,
    searchResults: seq<Bus>,
    searchCriteriaDescription: Description,
    holidayMessage: Option<Suspension>,
    countdownMessages: map<string, Countdown>,
    allTimetables: map<Route, seq<Bus>>)

  /** The state `init` leaves: timetables loaded, the holiday checked, nothing searched yet. */
  function Initial(now: MinuteOfDay, weekday: Weekday, today: string): ViewState
  {
    ViewState(MansionToStation, Departure, now, now, [], NotYetSearched,
              SuspensionFor(weekday, today), map[], AllTimetables())
  }

  /** `checkHoliday`: only the holiday message changes. */
  function HolidayChecked(s: ViewState, weekday: Weekday, today: string): ViewState
  {
    s.(holidayMessage := SuspensionFor(weekday, today))
  }

  /** The line naming the search: the arrival target or the departure guide, as "HH:mm". */
  function DescriptionFor(searchType: SearchType, departureTime: MinuteOfDay, arrivalTime: MinuteOfDay): Description
  {
    if searchType == Arrival then ArrivalTarget(Clock(arrivalTime, true)) else DepartureGuide(Clock(departureTime, true))
  }

  /** `updateSearchCriteriaDescription`: only the description changes. */
  function Described(s: ViewState): ViewState
  {
    s.(searchCriteriaDescription := DescriptionFor(s.searchType, s.departureTime, s.arrivalTime))
  }

  /** The search the current mode runs over timetable `tt`. */
  function ResultsFor(s: ViewState, tt: seq<Bus>): seq<Bus>
  {
    if s.searchType == Arrival then FindNextBusesByArrival(tt, s.arrivalTime)
    else FindNextBusesByDeparture(tt, s.departureTime)
  }

  /** `performSearch`: check the holiday, then clear the results or replace them and describe the search. */
  function Searched(s: ViewState, weekday: Weekday, today: string): ViewState
  {
    var checked := HolidayChecked(s, weekday, today);
    if checked.holidayMessage.Some? then
      checked.(searchResults := [], searchCriteriaDescription := SuspendedToday)
    else if checked.selectedRoute !in checked.allTimetables then
      checked
    else
      Described(checked.(searchResults := ResultsFor(checked, checked.allTimetables[checked.selectedRoute])))
  }

  /** `setSearchToCurrentTime`: search departures from now. */
  function SearchedFromNow(s: ViewState, now: MinuteOfDay, weekday: Weekday, today: string): ViewState
  {
    Searched(s.(searchType := Departure, departureTime := now), weekday, today)
  }

  /** `updateCountdown`: the countdown map is rebuilt from the results. */
  function CountedDown(s: ViewState, now: SecondOfDay): ViewState
  {
    s.(countdownMessages := if |s.searchResults| == 0 then map[] else CountdownMessages(s.searchResults, now))
  }

  /** `currentFullTimetable`: the selected route's list, or none. */
  function FullTimetable(s: ViewState): seq<Bus>
  {
    if s.selectedRoute in s.allTimetables then s.allTimetables[s.selectedRoute] else []
  }

  /** The description names the time searched for, and reads back as that very minute. */
  lemma DescriptionShowsSearchTime(searchType: SearchType, departureTime: MinuteOfDay, arrivalTime: MinuteOfDay)
    ensures var d := DescriptionFor(searchType, departureTime, arrivalTime);
      && (searchType == Arrival ==> d.ArrivalTarget? && ParseTime(d.clock) == Some(arrivalTime))
      && (searchType == Departure ==> d.DepartureGuide? && ParseTime(d.clock) == Some(departureTime))
  {
    ParseClock(arrivalTime, true);
    ParseClock(departureTime, true);
  }

  /** On a day without service the results are emptied and the description says so; nothing else moves. */
  lemma SuspendedSearchClearsResults(s: ViewState, weekday: Weekday, today: string)
    requires SuspensionFor(weekday, today).Some?
    ensures var t := Searched(s, weekday, today);
      && t.searchResults == []
      && t.searchCriteriaDescription == SuspendedToday
      && t.holidayMessage == SuspensionFor(weekday, today)
      && t.selectedRoute == s.selectedRoute && t.searchType == s.searchType
      && t.departureTime == s.departureTime && t.arrivalTime == s.arrivalTime
      && t.countdownMessages == s.countdownMessages && t.allTimetables == s.allTimetables
  {
  }

  /**
   * On a service day the results are wholly replaced by the search for the
   * current mode over the selected route's timetable, and the description
   * names that mode and its time; route, mode and times stay as they were.
   */
  lemma SearchReplacesResults(s: ViewState, weekday: Weekday, today: string)
    requires SuspensionFor(weekday, today).None?
    requires s.allTimetables == AllTimetables()
    ensures var t := Searched(s, weekday, today);
      var tt := Timetable(s.selectedRoute);
      && t.searchResults == (if s.searchType == Arrival then FindNextBusesByArrival(tt, s.arrivalTime)
                             else FindNextBusesByDeparture(tt, s.departureTime))
      && t.searchCriteriaDescription == DescriptionFor(s.searchType, s.departureTime, s.arrivalTime)
      && t.holidayMessage == None
      && t.selectedRoute == s.selectedRoute && t.searchType == s.searchType
      && t.departureTime == s.departureTime && t.arrivalTime == s.arrivalTime
      && t.countdownMessages == s.countdownMessages && t.allTimetables == s.allTimetables
  {
    assert s.selectedRoute in s.allTimetables && s.allTimetables[s.selectedRoute] == Timetable(s.selectedRoute) by {
      if s.selectedRoute == MansionToStation {
      } else {
      }
    }
  }

  /**
   * Searching from now always searches departures from the current minute:
   * on a service day the results are the next two departures from now.
   */
  lemma SearchFromNowLooksForDepartures(s: ViewState, now: MinuteOfDay, weekday: Weekday, today: string)
    requires s.allTimetables == AllTimetables()
    ensures var t := SearchedFromNow(s, now, weekday, today);
      && t.searchType == Departure && t.departureTime == now
      && t.arrivalTime == s.arrivalTime && t.selectedRoute == s.selectedRoute
      && (SuspensionFor(weekday, today).None? ==>
            && t.searchResults == FindNextBusesByDeparture(Timetable(s.selectedRoute), now)
            && t.searchCriteriaDescription == DepartureGuide(Clock(now, true)))
      && (SuspensionFor(weekday, today).Some? ==> t.searchResults == [] && t.searchCriteriaDescription == SuspendedToday)
  {
    var moved := s.(searchType := Departure, departureTime := now);
    if SuspensionFor(weekday, today).None? {
      SearchReplacesResults(moved, weekday, today);
    } else {
      SuspendedSearchClearsResults(moved, weekday, today);
    }
  }

  /**
   * The countdown map is rebuilt whole: its keys are exactly the ids of the
   * results whose departure parses, each holding that run's countdown, and
   * no entry of the earlier map survives unless a result renews it.
   */
  lemma CountdownCoversResults(s: ViewState, now: SecondOfDay)
    ensures var m := CountedDown(s, now).countdownMessages;
      && m.Keys == (set b | b in s.searchResults && ParseTime(b.departure).Some? :: b.Id())
      && (forall b | b in s.searchResults && ParseTime(b.departure).Some? ::
            m[b.Id()] == CountdownFor(ParseTime(b.departure).value, now) && m[b.Id()] != Departed)
      && (s.searchResults == [] ==> m == map[])
  {
  }

  /** The countdown touches nothing but the countdown map. */
  lemma CountdownChangesOnlyMessages(s: ViewState, now: SecondOfDay)
    ensures CountedDown(s, now).(countdownMessages := s.countdownMessages) == s
  {
  }

  /** The full timetable shown is the selected route's published list. */
  lemma FullTimetableIsSelectedRoute(s: ViewState)
    requires s.allTimetables == AllTimetables()
    ensures FullTimetable(s) == Timetable(s.selectedRoute)
    ensures |FullTimetable(s)| == RunsPerRoute
  {
    if s.selectedRoute == MansionToStation {
    } else {
    }
  }

  class BusTimetableViewModel {
    var selectedRoute: Route
    var searchType: SearchType
    var departureTime: MinuteOfDay
    var arrivalTime: MinuteOfDay
    var searchResults: seq<Bus>
    var searchCriteriaDescription: Description
    var holidayMessage: Option<Suspension>
    var countdownMessages: map<string, Countdown>
    var allTimetables: map<Route, seq<Bus>>

    /** The fields, as one value. */
    function State(): ViewState
      reads this
    {
      ViewState(selectedRoute, searchType, departureTime, arrivalTime, searchResults,
                searchCriteriaDescription, holidayMessage, countdownMessages, allTimetables)
    }

    /** `init`: load the timetables and check the holiday; both times start at now. */
    constructor(now: MinuteOfDay, weekday: Weekday, today: string)
      ensures State() == Initial(now, weekday, today)
    {
      selectedRoute := MansionToStation;
      searchType := Departure;
      departureTime := now;
      arrivalTime := now;
      searchResults := [];
      searchCriteriaDescription := NotYetSearched;
      holidayMessage := None;
      countdownMessages := map[];
      allTimetables := map[];
      new;
      SetupTimetables();
      CheckHoliday(weekday, today);
    }

    /** `setupTimetables`: both routes' lists. */
    method SetupTimetables()
      modifies this
      ensures State() == old(State()).(allTimetables := AllTimetables())
    {
      allTimetables := AllTimetables();
    }

    /** `checkHoliday`. */
    method CheckHoliday(weekday: Weekday, today: string)
      modifies this
      ensures State() == HolidayChecked(old(State()), weekday, today)
    {
      if weekday == Sunday || weekday == Saturday {
        holidayMessage := Some(Weekend);
      } else if today in PublicHolidays {
        holidayMessage := Some(PublicHoliday);
      } else {
        holidayMessage := None;
      }
    }

    /** `updateSearchCriteriaDescription`. */
    method UpdateSearchCriteriaDescription()
      modifies this
      ensures State() == Described(old(State()))
    {
      if searchType == Arrival {
        searchCriteriaDescription := ArrivalTarget(Clock(arrivalTime, true));
      } else {
        searchCriteriaDescription := DepartureGuide(Clock(departureTime, true));
      }
    }

    /** `performSearch`. */
    method PerformSearch(weekday: Weekday, today: string)
      modifies this
      ensures State() == Searched(old(State()), weekday, today)
    {
      CheckHoliday(weekday, today);
      if holidayMessage.Some? {
        searchResults := [];
        searchCriteriaDescription := SuspendedToday;
        return;
      }
      if selectedRoute !in allTimetables {
        return;
      }
      var currentTimetable := allTimetables[selectedRoute];
      if searchType == Arrival {
        searchResults := FindNextBusesByArrival(currentTimetable, arrivalTime);
      } else {
        searchResults := FindNextBusesByDeparture(currentTimetable, departureTime);
      }
      UpdateSearchCriteriaDescription();
    }

    /** `setSearchToCurrentTime`. */
    method SetSearchToCurrentTime(now: MinuteOfDay, weekday: Weekday, today: string)
      modifies this
      ensures State() == SearchedFromNow(old(State()), now, weekday, today)
    {
      searchType := Departure;
      departureTime := now;
      PerformSearch(weekday, today);
    }

    /** `updateCountdown`, at the moment `now` of one timer tick. */
    method UpdateCountdown(now: SecondOfDay)
      modifies this
      ensures State() == CountedDown(old(State()), now)
    {
      if |searchResults| == 0 {
        countdownMessages := map[];
        return;
      }
      var newMessages: map<string, Countdown> := map[];
      var i := 0;
      while i < |searchResults|
        invariant 0 <= i <= |searchResults|
        invariant newMessages == CountdownMessages(searchResults[..i], now)
      {
        var bus := searchResults[i];
        assert searchResults[..i + 1] == searchResults[..i] + [bus];
        var busDate := ParseTime(bus.departure);
        if busDate.Some? {
          newMessages := newMessages[bus.Id() := CountdownFor(busDate.value, now)];
        }
        i := i + 1;
      }
      assert searchResults[..i] == searchResults;
      countdownMessages := newMessages;
    }

    /** `currentFullTimetable`. */
    method CurrentFullTimetable() returns (tt: seq<Bus>)
      ensures tt == FullTimetable(State())
    {
      if selectedRoute in allTimetables {
        tt := allTimetables[selectedRoute];
      } else {
        tt := [];
      }
    }
  }
}
