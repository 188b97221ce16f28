# BusTime search core, in Dafny

BusTime is an iOS app for a shuttle bus. The bus runs between a residential building and a railway station, and the app answers two questions:

- which are the next two buses leaving at or after a given time;
- which are the last two buses arriving by a given time.

It also refuses to search on weekends and public holidays. For the results on screen it shows a live countdown, such as "14 minutes to go".

This project models the app's view model, `BusTimetableViewModel`, together with the `Bus` value it works on:

- the two fixed timetables, 47 runs each way;
- the reading of "H:MM" strings into minutes of the day;
- the two searches, including the midnight rollover of the departure search;
- the service-suspension check;
- the operations that update the view model's fields: search, search from now, describe the search, count down, and show the full timetable.

The clock and calendar are not part of the model; they come in as inputs. "Now" is a minute of the day for searches and a second of the day for the countdown. Today is given as a weekday number and a "yyyy-MM-dd" date string.

The modules:

- `DataModels` (data_models.dfy): the `Bus` value and its id.
- `TimeOfDay` (time_of_day.dfy):
  - Swift's `split(separator:)` and `Int(_:)`;
  - `timeStringToDate` followed by `timeToMinutes`, as `ParseTime`;
  - the clock formatter, whose output `ParseTime` reads back.
- `Timetables` (timetables.dfy):
  - the two literal timetables;
  - the proof that each is chronological on the service day that starts at 04:00, and that its departures (the ids) are distinct.
- `Ranking` (ranking.dfy): `sorted(by:)` followed by `prefix(2)`.
- `Search` (search.dfy): `findNextBusesByDeparture` and `findNextBusesByArrival`.
- `Holidays` (holidays.dfy): `checkHoliday`.
- `Countdown` (countdown.dfy): the arithmetic and messages of `updateCountdown`.
- `ViewModel` (view_model.dfy):
  - the class `BusTimetableViewModel`, with the Swift fields;
  - one specification function per operation, over a snapshot `ViewState` of the fields;
  - the lemmas stating what each operation promises.

The source comment on the rollover test (BusTimetableViewModel.swift:185) says "21:00 or later", but the code tests strictly later than 21:00. The model follows the code: `Search.NineOClockSkipsAfterMidnightRun` shows that at exactly 21:00 the 0:04 run is not offered.

## Model

| member | source | states |
|---|---|---|
| DataModels.IdIsDeparture | DataModels.swift:11 | The id of a bus is always its departure string. |
| DataModels.IdIgnoresArrival | DataModels.swift:11 | Changing the arrival of a bus never changes its id. |
| DataModels.SameIdentityIff | DataModels.swift:9-11 | Two buses have the same id exactly when their departure strings are equal. |
| TimeOfDay.Split | BusTimetableViewModel.swift:130 | Every piece that `split(separator: ":")` returns is non-empty and free of separators. |
| TimeOfDay.ParseInt | BusTimetableViewModel.swift:130 | `Int(_:)` reads a string of ASCII digits, with an optional '+' or '-' in front, as its value when that fits in 64 bits. It gives nil for the empty string, a lone sign, any non-digit after the sign, or a value out of range. |
| TimeOfDay.Component | BusTimetableViewModel.swift:130 | `Int($0) ?? 0`: a piece of digits reads as its value, and a piece holding a non-digit after the optional sign reads as 0. |
| TimeOfDay.CalendarMinute | BusTimetableViewModel.swift:132-139 | For an in-range hour and minute the minute of the day is hour*60+minute. Otherwise it agrees with hour*60+minute modulo one day. |
| TimeOfDay.SplitAroundSeparator | BusTimetableViewModel.swift:130 | Two non-empty, separator-free pieces joined by ':' split back into exactly those two pieces. |
| TimeOfDay.SplitAfterPiece | BusTimetableViewModel.swift:130 | A separator-free prefix ending in ':' is split off as the first piece, unless it is empty. |
| TimeOfDay.SplitPiece | BusTimetableViewModel.swift:130 | A string without ':' splits into itself alone, or into nothing when it is empty. |
| TimeOfDay.NoSeparatorIsNoTime | BusTimetableViewModel.swift:131 | A string without ':' (any string is a possible `Bus` field) reads as nil. |
| TimeOfDay.ThreePiecesAreNoTime | BusTimetableViewModel.swift:131 | Three pieces, such as "7:10:00", read as nil. |
| TimeOfDay.EmptyPiecesVanish | BusTimetableViewModel.swift:130-131 | "7::10" reads like "7:10", and ":10" reads as nil, because `split` drops empty pieces. |
| TimeOfDay.NonNumericPieceIsZero | BusTimetableViewModel.swift:130-132 | A piece that is not a number counts as 0, so "7:xx" reads as 7:00. |
| TimeOfDay.ParseTime | BusTimetableViewModel.swift:128-140 | A time is read exactly when the string splits into two pieces. When the pieces read as an hour below 24 and a minute below 60, the result is hour*60+minute. |
| TimeOfDay.ParseClock | BusTimetableViewModel.swift:128-140 | Reading a clock text ("H:MM" or "HH:mm") of any minute of the day gives back that minute. |
| TimeOfDay.ReadsClockText | BusTimetableViewModel.swift:128-140 | A string of the form "H:MM" or "HH:MM" reads as the hour and minute its digits spell. |
| Timetables.MansionToStationLine | BusTimetableViewModel.swift:57-82 | The building-to-station runs, two per source line, 47 in total. |
| Timetables.StationToMansionLine | BusTimetableViewModel.swift:84-109 | The station-to-building runs, two per source line, 47 in total. |
| Timetables.Timetable | BusTimetableViewModel.swift:57-109 | Each route's list has 47 runs, in published order. |
| Timetables.AllTimetables | BusTimetableViewModel.swift:56-110 | After `setupTimetables`, both routes and only those are present, each with its fixed list. |
| Timetables.ServiceMinute | BusTimetableViewModel.swift:57-109 | A run before 04:00 belongs to the end of the service day, one day later; every other run keeps its minute. |
| TimeOfDay.ReadsTimetableTime | BusTimetableViewModel.swift:128-140 | Every timetable time reads as the minute its digits spell. |
| Timetables.MansionToStationKeepsOrder | BusTimetableViewModel.swift:57-82 | Every building-to-station run has well-formed times, arrives after it leaves, and leaves before the next run. |
| Timetables.StationToMansionKeepsOrder | BusTimetableViewModel.swift:84-109 | The same holds for every station-to-building run. |
| Timetables.TimetableRunsInOrder | BusTimetableViewModel.swift:57-109 | Both lists are in order from each run to the next. |
| Timetables.DepartsInOrder | BusTimetableViewModel.swift:57-109 | In such a list, any earlier run leaves before any later one. |
| Timetables.RunsInOrderAreChronological | BusTimetableViewModel.swift:57-109 | A list that is in order run by run is chronological. Every time parses, departures strictly increase on the service day, and each run arrives after it leaves. |
| Timetables.TimetablesAreChronological | BusTimetableViewModel.swift:57-109 | Both fixed timetables are chronological. |
| Timetables.ChronologicalIdsAreDistinct | DataModels.swift:9-11 | In a chronological list no two runs share an id. |
| Timetables.TimetableIdsAreDistinct | BusTimetableViewModel.swift:57-109 | No two runs of a fixed timetable share an id, so the departures can serve as ids. |
| Ranking.Sort | BusTimetableViewModel.swift:196 | The candidates come out ranked by key (ascending or descending) and form a permutation of the input. |
| Ranking.TopTwo | BusTimetableViewModel.swift:196 | `prefix(2)` of the ranked list keeps min(2, n) candidates, drawn from the input and in ranked order; a short input is kept whole. |
| Ranking.TopTwoLeavesOutNoBetter | BusTimetableViewModel.swift:196 | No candidate left out by `prefix(2)` ranks ahead of a kept one. |
| Search.Candidates | BusTimetableViewModel.swift:181-194 | `compactMap` keeps exactly the timetable buses that the closure keys, each paired with its key. |
| Search.CandidatesCountRuns | BusTimetableViewModel.swift:181-194 | Each keyed bus is a candidate exactly as often as the timetable lists it, and no unkeyed bus is one. |
| Search.NextBuses | BusTimetableViewModel.swift:181-196 | The shared pipeline returns as many buses as there are keyed runs, up to two. It never returns a run more often than the timetable lists it, and when fewer than two come back, it returns every keyed run as often as it is listed. |
| Search.NextBusesAreRanked | BusTimetableViewModel.swift:181-196 | The shared pipeline returns at most two buses. Each comes from the timetable and has a key, and they are in ranked order. |
| Search.NextBusesSkipNothingAhead | BusTimetableViewModel.swift:181-196 | Any keyed bus that ranks strictly ahead of a returned bus is returned as often as the timetable lists it. |
| Search.NextBusesMissNothingWhenShort | BusTimetableViewModel.swift:181-196 | Nothing comes back exactly when no bus has a key. When fewer than two come back, every keyed bus is among them. |
| Search.DepartureKey | BusTimetableViewModel.swift:186-188 | 1440 is added exactly when the reference is after 21:00 and the bus leaves before 04:00. |
| Search.DepartureSortKey | BusTimetableViewModel.swift:181-194 | A bus is keyed exactly when its departure parses and its rolled-over minute is at or after the reference. The key is that minute, which lies within the day after the reference. |
| Search.FindNextBusesByDeparture | BusTimetableViewModel.swift:179-197 | At most two buses are returned, and none more often than the timetable lists it. When fewer than two come back, every qualifying bus is among them as often as listed. |
| Search.DeparturesQualifyInOrder | BusTimetableViewModel.swift:181-196 | Each returned bus comes from the timetable, parses, and has a rolled-over departure at or after the reference; they come in ascending order. |
| Search.DeparturesSkipNothingEarlier | BusTimetableViewModel.swift:181-196 | The result is empty iff no bus qualifies. Every qualifying bus is returned when fewer than two are, and a qualifying bus that leaves strictly earlier than a returned one is returned as often as the timetable lists it. |
| Search.TwoQualifyingRunsAreBothOffered | BusTimetableViewModel.swift:179-197 | For two distinct qualifying runs, the departure search returns both, the earlier first, each once. |
| Search.SevenOhFiveOffersBothRuns | BusTimetableViewModel.swift:179-197 | At 07:05, with runs leaving at 7:10 and 7:20, the departure search returns [7:10, 7:20]. |
| Search.RepeatedRunTakesBothPlaces | BusTimetableViewModel.swift:179-197 | A qualifying run listed twice ahead of a later qualifying run fills both places of the departure search. |
| Search.SevenOhFiveOffersRepeatedRunTwice | BusTimetableViewModel.swift:179-197 | At 07:05, with the 7:10 run listed twice and a 7:20 run, the departure search returns [7:10, 7:10]. |
| Search.ArrivalSortKey | BusTimetableViewModel.swift:203-213 | A bus is keyed exactly when its arrival parses and is at or before the target, and then the key is that arrival. |
| Search.FindNextBusesByArrival | BusTimetableViewModel.swift:200-217 | At most two buses are returned, and none more often than the timetable lists it. When fewer than two come back, every qualifying bus is among them as often as listed. The current time is not an input. |
| Search.ArrivalsQualifyInOrder | BusTimetableViewModel.swift:203-216 | Each returned bus comes from the timetable and arrives at or before the target; they come in descending order of arrival. |
| Search.ArrivalsSkipNothingLater | BusTimetableViewModel.swift:203-216 | The result is empty iff no bus qualifies. Every qualifying bus is returned when fewer than two are, and a qualifying bus that arrives strictly later than a returned one is returned as often as the timetable lists it. |
| Search.TwoQualifyingArrivalsAreBothOffered | BusTimetableViewModel.swift:200-217 | For two distinct runs that arrive in time, the arrival search returns both, the later arrival first, each once. |
| Search.AfterMidnightRunReadsEarly | BusTimetableViewModel.swift:81 | The last run of the night leaves at minute 4 and arrives at minute 13. |
| Search.NineOClockSkipsAfterMidnightRun | BusTimetableViewModel.swift:186 | At a reference of exactly 21:00, a bus leaving at 0:04 is never returned, whatever the timetable. |
| Search.LateReferenceKeepsAfterMidnightRun | BusTimetableViewModel.swift:186-191 | After 21:00, a bus leaving at 0:04 is ranked as 24:04 and qualifies. |
| Search.ArrivalAfterMidnightCountsAsEarly | BusTimetableViewModel.swift:204-209 | The arrival search has no rollover: arrival "0:13" counts as minute 13. |
| Search.UnsplittableDepartureIsSkipped | BusTimetableViewModel.swift:131 | A bus whose departure does not split into two pieces is never returned by the departure search. |
| Search.UnsplittableArrivalIsSkipped | BusTimetableViewModel.swift:131 | A bus whose arrival does not split into two pieces is never returned by the arrival search. |
| Holidays.SuspensionFor | BusTimetableViewModel.swift:231-245 | The weekend message is given iff the weekday is 1 or 7. The holiday message is given iff it is another weekday and the date is listed. The message is nil exactly otherwise. |
| Holidays.WeekendTakesPrecedence | BusTimetableViewModel.swift:238-241 | A listed date that falls at a weekend gets the weekend message. |
| Holidays.RunsOnWorkingDays | BusTimetableViewModel.swift:238-244 | On weekdays 2 to 6 the service runs iff the date is not in the list. |
| Holidays.HolidaysAreDatesOf2025 | BusTimetableViewModel.swift:24-29 | Every listed holiday is a real day of 2025 written "yyyy-MM-dd": digits in every place, a month from 1 to 12, and a day within that month's length. |
| Holidays.ComingOfAgeDaySuspends | BusTimetableViewModel.swift:24-29 | Monday 13 January 2025 gets the holiday message. |
| Countdown.SecondsUntil | BusTimetableViewModel.swift:262-275 | The wait lies in [0, one day) and ends exactly at the start of the bus's minute. |
| Countdown.SecondsUntilIsNext | BusTimetableViewModel.swift:269-272 | No shorter non-negative wait reaches the bus's minute, so the wait is to the next departure. |
| Countdown.CountdownFor | BusTimetableViewModel.swift:275-286 | The "departed" message never occurs. Hours are 1 to 23 and minutes 0 to 59 in the hours form; minutes are 1 to 59 in the minutes-only form. |
| Countdown.CountdownReadsWait | BusTimetableViewModel.swift:275-286 | The hours form occurs iff the wait is an hour or more, and its hours and minutes make the wait's whole minutes. The minutes-only form occurs iff the wait is between a minute and an hour. "Departing now" occurs iff the wait is under a minute. |
| Countdown.FourteenMinutesBeforeLastRun | BusTimetableViewModel.swift:282-283 | The 0:04 bus seen at 23:50:00 shows 14 minutes to go. |
| Countdown.RunLeavingNowIsDepartingNow | BusTimetableViewModel.swift:284-285 | Seen at the instant its minute begins, a bus shows "departing now". |
| Countdown.RunJustGoneIsTomorrow | BusTimetableViewModel.swift:270-272 | One second after a bus's minute begins, its countdown is 23 hours 59 minutes, counted to the next day. |
| Countdown.CountdownMessages | BusTimetableViewModel.swift:254-288 | The keys of the rebuilt map are exactly the ids of the buses whose departure parses, and each holds that bus's countdown. |
| ViewModel.DescriptionShowsSearchTime | BusTimetableViewModel.swift:220-228 | The description names the arrival target in arrival mode and the departure guide otherwise. Its "HH:mm" text reads back as that minute. |
| ViewModel.SuspendedSearchClearsResults | BusTimetableViewModel.swift:155-162 | On a suspended day the results become empty and the description says the service is suspended. Route, mode, times and countdown are unchanged. |
| ViewModel.SearchReplacesResults | BusTimetableViewModel.swift:155-176 | On a service day the results are wholly replaced by the search for the current mode over the selected route. The description names that mode and its time, and route, mode and times are unchanged. |
| ViewModel.SearchFromNowLooksForDepartures | BusTimetableViewModel.swift:143-152 | Searching from now forces the departure mode with now as the departure time. On a service day the results are the next two departures from now; on a suspended day they are empty. |
| ViewModel.CountdownCoversResults | BusTimetableViewModel.swift:248-292 | The countdown map is rebuilt whole: its keys are exactly the ids of the results whose departure parses, none is "departed", and it is empty when the results are. |
| ViewModel.CountdownChangesOnlyMessages | BusTimetableViewModel.swift:248-292 | The countdown changes no field other than the countdown map. |
| ViewModel.FullTimetableIsSelectedRoute | BusTimetableViewModel.swift:295-297 | The full timetable shown is the selected route's 47-run list. |
| ViewModel.BusTimetableViewModel.constructor | BusTimetableViewModel.swift:49-53 | `init` loads both timetables and checks the holiday. Nothing is searched yet, and both times start at now. |
| ViewModel.BusTimetableViewModel.SetupTimetables | BusTimetableViewModel.swift:56-110 | Only the timetable map changes, and it becomes both fixed lists. |
| ViewModel.BusTimetableViewModel.CheckHoliday | BusTimetableViewModel.swift:231-245 | Only the holiday message changes, and it becomes `SuspensionFor` of today. |
| ViewModel.BusTimetableViewModel.UpdateSearchCriteriaDescription | BusTimetableViewModel.swift:220-228 | Only the description changes. |
| ViewModel.BusTimetableViewModel.PerformSearch | BusTimetableViewModel.swift:155-176 | The fields become what `Searched` gives for the old fields. |
| ViewModel.BusTimetableViewModel.SetSearchToCurrentTime | BusTimetableViewModel.swift:143-152 | The fields become what `SearchedFromNow` gives. |
| ViewModel.BusTimetableViewModel.UpdateCountdown | BusTimetableViewModel.swift:248-292 | The loop rebuilds the map so that it equals `CountdownMessages` of the results; no other field changes. |
| ViewModel.BusTimetableViewModel.CurrentFullTimetable | BusTimetableViewModel.swift:295-297 | Returns the selected route's list, or the empty list when the route is missing. |

## Left out

- The periodic timer (`startTimer`, Combine's `Timer.publish`) is not modelled. `UpdateCountdown` is the body of one tick, called with that tick's moment.
- `Date()`, `Calendar.current` and `DateFormatter` are not modelled. Their results become inputs: a minute of the day for the search times, a second of the day for the countdown, and a weekday number and a "yyyy-MM-dd" string for the holiday check. Time zones and daylight-saving changes are not modelled.
- TimeOfDay.CalendarMinute: out-of-range hours and minutes (for example "25:00" or "7:75") are wrapped into the day. This approximates the calendar's normalisation, which is not modelled. Hour values large enough to overflow a 64-bit `hour * 60` are wrapped too; the calendar's result for such values is not modelled.
- TimeOfDay.Split: it splits a string of Unicode scalars, whereas Swift's `split(separator:)` compares grapheme clusters (`Character`s). A ':' followed by a combining mark, as in "7:\u{301}10", is one `Character` in Swift and no separator, so Swift reads one piece and returns nil, while the model reads 7:10. Grapheme segmentation is not modelled.
- Countdown.CountdownFor: "now" is a whole second of the day, whereas `Date()` has a fractional part. This differs from the source in two places. During the bus's own first second, the source already finds the bus's moment past (`targetDate < now`) and shows 23 hours 59 minutes, while the model shows "departing now". And when the model's wait is an exact number of minutes, the source's wait at any instant within that second is a fraction of a second shorter, so its truncation shows one minute less. Sub-second time is not modelled.
- Countdown.CountdownMessages: the source reads the clock again for every result. The model uses one moment for the whole tick, so the rare case of the second changing in mid-loop is not modelled.
- The Japanese message texts (`String(format:)`) and the Japanese raw values of `Route` and `SearchType` are not modelled. Messages are tagged values (`Suspension`, `Countdown`, `Description`) that carry the numbers or the clock text the messages show.
- Ranking.Sort: it orders tied keys in one admissible way (stable). No lemma speaks of the order of ties, because Swift's `sorted` does not promise one.
- `@Published` / `ObservableObject` change notification, and the user interface (ContentView.swift), which only reads the fields, are not modelled. The UI sets `selectedRoute`, `searchType` and the two times directly. They are plain fields here, so no operation models those assignments.
