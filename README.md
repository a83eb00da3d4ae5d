# Classroom and floor kiosk displays, modelled in Dafny

The system drives wall screens outside university classrooms and on each floor of
a building. It has two parts:

- **Browser views.** Each view reads its classroom, building, floor, period and
  date from the page URL. It asks the backend for the day's lessons and shows them
  in a table. Every lesson gets a status: upcoming, ongoing or ended. The view
  switches between Italian and English every 15 seconds and scrolls a table that
  is too tall back and forth, like a boomerang.
  - The `ui/` views run a one-second loop. The loop re-reads the lessons and
    re-syncs the clock with the server every five minutes.
  - The `web/` views are a simpler variant.
- **Python backends.** Three variants exist: `app/services.py`, the
  `app/services/` package and `src/`. Each validates the lesson request and asks
  an upstream timetable service for one classroom's bookings. It turns each
  booking into a clean lesson record (start, end, name, instructor, room) and
  caches the result in a process-wide dictionary with a lifetime. It then filters
  by morning or afternoon and sorts. A floor request gathers the lessons of every
  classroom on that floor.

The model follows the shape of the code:

- **Pure logic** is datatypes and functions: parsing, filtering, sorting, status,
  rendering rows and labels, the scroll motion.
- **State changed in place** is classes:
  - `TtlStore.TtlCache` is the cache dictionary.
  - `SrcServices.LessonLooper` is the `src/` looper object.
  - The view classes hold each page's state: `UiClassroom.ClassroomView`,
    `UiFloor.FloorView`, `WebClassroom.ClassroomPage` and `WebFloor.FloorPage`.
  - `UiTicker.Ticker`, `UiScroll.Boomerang` and `WebScroll.Boomerang` are the
    loop counter and the scrollers.
- **Loops** are methods. `LessonLooper.SplitClasses` and
  `WebClassroom.ParseQuery` carry loop invariants tying them to their
  specification functions.

Some things are parameters rather than modelled:

- the upstream service, the server's clock, the Flask configuration and the
  timestamp parser (`Env` records, `now` arguments, a `parse` function);
- the browser's clock and time zone (an `Instant` carries the hour and minute the
  display shows);
- the DOM (each table is a sequence of `Row` values).

Python times are integer microseconds and JavaScript times integer milliseconds.

## Model

| member | source | states |
|---|---|---|
| LessonStatus.ClassifyDates | ui/static/js/classroom_script.js:150-156 | upcoming exactly when `now` is before a valid start, ended exactly when not upcoming and after a valid end, ongoing otherwise; comparisons with an Invalid Date are false |
| LessonStatus.Classify | web/static/js/classroom_script.js:98-110 | on valid timestamps: upcoming iff now < start, ended iff start <= now and end < now, ongoing iff start <= now <= end |
| LessonStatus.BoundariesAreLive | ui/static/js/classroom_script.js:150-156 | the start instant and the end instant of a lesson both classify as ongoing |
| LessonStatus.StatusMonotone | ui/static/js/classroom_script.js:150-156 | as time advances a lesson's status only moves forward (upcoming, ongoing, ended) |
| Language.Flip | ui/static/js/classroom_script.js:130-135 | the toggle always changes the language |
| Language.FlipTwice | web/static/js/classroom_script.js:237-246 | two toggles restore the language |
| ClockFormat.Pad2 | web/static/js/classroom_script.js:65-67 | below 100 the result is exactly two digits, tens then units; from 10 up it is the plain decimal |
| ClockFormat.HourMinute | web/static/js/classroom_script.js:125-128 | `HH:MM` is five characters, digits around a colon |
| ClockFormat.HourMinuteRoundTrip | web/static/js/classroom_script.js:125-128 | reading the rendered `HH:MM` back gives the hour and minute it was made from |
| ClockFormat.PaddedTime | web/static/js/classroom_script.js:125-128 | a valid time renders as `HH:MM`, an Invalid Date as "NaN:NaN" |
| ClockFormat.LocaleTime | ui/static/js/classroom_script.js:188-219 | a valid time renders as `HH:MM`, an Invalid Date as "Invalid Date" |
| ClientData.OrElse | web/static/js/classroom_script.js:140 | `x \|\| fallback`: the field when it is present and non-empty, the fallback otherwise |
| ClientData.Spliced | ui/static/js/classroom_script.js:188-219 | an absent field spliced into HTML reads "undefined" |
| ClientData.AsText | ui/static/js/classroom_script.js:120-122 | a field assigned to `textContent` is its value when present; an absent one (the first lesson's `classroom_name` here and at line 191) leaves the text empty |
| ClientData.EpochOf | ui/static/js/classroom_script.js:150-156 | the epoch milliseconds of a parsed time, none for an absent or unparseable one |
| ClientData.MessageFor | ui/static/js/classroom_script.js:188-219 | a failed load selects the loading-error message, anything else the no-lessons message |
| TimeSync.OffsetAsWritten | ui/static/js/classroom_script.js:82-99 | the offset as the code computes it: 0 after a failure, server minus client time after a good answer, NaN after a body whose time does not parse |
| TimeSync.UnparseableTimeGivesNaN | ui/static/js/classroom_script.js:88-91 | an answer without a usable time leaves the offset NaN rather than the fallback 0 |
| TimeSync.Offset | ui/static/js/floor_script.js:82-99 | server minus client time after a good answer, exactly 0 after any failure |
| TimeSync.CorrectedNowMatchesServer | ui/static/js/classroom_script.js:82-99 | right after a good sync the corrected clock reads the server's time |
| TimeSync.FailedSyncUsesLocalClock | ui/static/js/classroom_script.js:93-97 | after a failed sync the corrected clock is the local clock |
| TimeSync.OffsetAgreesWhenDefined | ui/static/js/classroom_script.js:82-99 | the corrected offset equals the code's wherever the code yields a number |
| UiTicker.ClassroomTickActions | ui/static/js/classroom_script.js:337-349 | every tick updates the clock, then the statuses; the toggle follows iff the count is a multiple of 15, and the refetch and resync iff it is a multiple of 300; the whole list is given for each of the three cases, with nothing else in it |
| UiTicker.FloorTickActions | ui/static/js/floor_script.js:289-299 | the same list without the status pass, again given whole for each case |
| UiTicker.RefreshIsToggle | ui/static/js/classroom_script.js:53-54 | every refresh tick (a multiple of 300) is also a toggle tick (a multiple of 15) |
| UiTicker.TogglesCount | ui/static/js/classroom_script.js:342-344 | over ticks 1..n there are exactly n / 15 toggles |
| UiTicker.LanguageAfterParity | ui/static/js/classroom_script.js:337-349 | after n ticks the language is the initial one iff an even number of 15-second periods has passed |
| UiTicker.Ticker.ClassroomTick | ui/static/js/classroom_script.js:337-349 | the counter goes up by one and the actions due at the new count are reported |
| UiTicker.Ticker.FloorTick | ui/static/js/floor_script.js:289-299 | the counter goes up by one and the floor actions due at the new count are reported |
| UiScroll.Bottom | ui/static/js/classroom_script.js:270-289 | the bottom bound is negative iff the table is taller than its wrapper |
| UiScroll.Advance | ui/static/js/classroom_script.js:286-308 | a paused table stays; otherwise it moves one half pixel, and reaching a bound clamps, reverses and pauses; the bounds are kept |
| UiScroll.Resume | ui/static/js/classroom_script.js:284 | the pause timer unpauses and keeps position and direction |
| UiScroll.RunInBounds | ui/static/js/classroom_script.js:286-308 | any number of frames keeps the table between the bottom bound and the top |
| UiScroll.Ascend | ui/static/js/classroom_script.js:286-297 | heading up from p, the table reaches the bottom, turned and paused, after exactly p - bottom frames |
| UiScroll.Descend | ui/static/js/classroom_script.js:298-304 | heading down from p, the table reaches the top, turned and paused, after exactly -p frames |
| UiScroll.FullCycle | ui/static/js/classroom_script.js:279-308 | one sweep down and one sweep back return the scroller to its starting state |
| UiScroll.Boomerang.Setup | ui/static/js/classroom_script.js:264-284 | no wrapper changes nothing; with a wrapper the pending frame is cancelled, then a missing table stops there (reading its height throws), a fitting table is pinned at the top with no frame requested, and a taller one starts a new paused animation at the top |
| UiScroll.Boomerang.Frame | ui/static/js/classroom_script.js:286-308 | a frame applies one `Advance` and writes the new position |
| UiScroll.Boomerang.PauseElapsed | ui/static/js/classroom_script.js:284-303 | a timer of the current animation unpauses it; a stale timer changes nothing |
| WebScroll.StepScroll | web/static/js/classroom_script.js:178-194 | a fitting table ends the chain unchanged; otherwise the table moves one pixel, turns with a 3 s pause at or past a bound, or continues after 30 ms |
| WebScroll.StepKeepsMoving | web/static/js/classroom_script.js:178-194 | with fixed heights a step keeps the table within the bounds |
| WebScroll.Ascend | web/static/js/classroom_script.js:182-187 | heading up from p, the table turns at the bottom after exactly p - bottom steps |
| WebScroll.Descend | web/static/js/classroom_script.js:188-190 | heading down from p, the table turns at the top after exactly -p steps |
| WebScroll.FullCycle | web/static/js/floor_script.js:131-147 | with fixed heights one sweep up and back returns the table to its start |
| WebScroll.Boomerang.SetupClassroom | web/static/js/classroom_script.js:167-197 | only the first call with a wrapper sets the guard; with a table it resets the table and schedules the first step after the pause, a step that moves the table for any taller-than-wrapper bottom; a wrapper without a table sets the guard and starts nothing, since the code then throws on `tbl.style` |
| WebScroll.Boomerang.SetupFloor | web/static/js/floor_script.js:117-150 | the guard is set before the lookup, so a first call without wrapper or table disables scrolling for good; a started table's first step moves it for any taller-than-wrapper bottom |
| WebScroll.Boomerang.StepFired | web/static/js/classroom_script.js:178-194 | a firing step applies `StepScroll`; a step is pending iff another was scheduled |
| UiClassroom.Rows | ui/static/js/classroom_script.js:188-219 | a failed load, an empty list or a message entry shows one message row; otherwise one row per lesson, with its status at `now` |
| UiClassroom.ClassroomLabel | ui/static/js/classroom_script.js:121-122 | the room label is the first entry's room name, else "Classroom"; the same label is written on the message path at line 191 and through `updateStaticUI` from line 216 |
| UiClassroom.NoMissingParamsRow | ui/static/js/classroom_script.js:141-144 | a rendered table never shows the missing-parameter message |
| UiClassroom.RefreshRow | ui/static/js/classroom_script.js:162-184 | only a lesson row whose lesson has a start time gets a new status |
| UiClassroom.RefreshStatuses | ui/static/js/classroom_script.js:162-184 | every row is refreshed against the lesson at its index, and the row count is kept |
| UiClassroom.RefreshKeepsConsistent | ui/static/js/classroom_script.js:162-184 | refreshing keeps the table consistent with the lessons and the language |
| UiClassroom.RefreshAfterRender | ui/static/js/classroom_script.js:162-219 | a refresh at the instant of a render changes nothing |
| UiClassroom.RefreshEqualsRender | ui/static/js/classroom_script.js:162-219 | a refresh at `now` of a table rendered earlier equals a render at `now` |
| UiClassroom.ClassroomView.constructor | ui/static/js/classroom_script.js:36-58 | a fresh view: Italian, loading, no lessons, offset 0, empty table |
| UiClassroom.ClassroomView.Render | ui/static/js/classroom_script.js:188-219 | the table becomes `Rows` of the state, and a lesson table requests a scroll setup |
| UiClassroom.ClassroomView.StartFetch | ui/static/js/classroom_script.js:225-257 | without both parameters the load fails, the missing-parameter message is rendered and the room label is recomputed from the lessons; otherwise the request carries classroom, building, period and date and the page is left as it was; the clock, its colour and the scroll setups are kept |
| UiClassroom.ClassroomView.FetchDone | ui/static/js/classroom_script.js:225-257 | an answer stores the lessons as loaded, a failure stores none; then the table is re-rendered, the room label becomes `ClassroomLabel` of the lessons, and one scroll setup is counted iff a lesson table is shown; the clock and its colour are kept |
| UiClassroom.ClassroomView.TimeSynced | ui/static/js/classroom_script.js:82-99 | the offset becomes `Offset(outcome)`; a failure turns the clock red; the clock, table, room label, scroll setups, lessons and language are kept |
| UiClassroom.ClassroomView.ToggleLanguage | ui/static/js/classroom_script.js:130-135 | the language flips and the table is re-rendered, the room label recomputed and one scroll setup counted iff a lesson table is shown; lessons, fetch status, clock and its colour are kept |
| UiClassroom.ClassroomView.UpdateClock | ui/static/js/classroom_script.js:105-109 | the clock shows the offset-corrected time; the table, label, scroll setups and clock colour are kept |
| UiClassroom.ClassroomView.UpdateLessonStatus | ui/static/js/classroom_script.js:162-184 | the rows become `RefreshStatuses` at the offset-corrected time; label, scroll setups and clock colour are kept |
| UiClassroom.ClassroomView.Tick | ui/static/js/classroom_script.js:337-349 | one loop tick: the counter goes up by one and the clock shows the offset-corrected time; on toggle ticks the language flips, the table is re-rendered whole, the room label is recomputed and a scroll setup is counted iff a lesson table is shown; otherwise only the status cells of the old rows are refreshed and label and scroll setups are kept; on refresh ticks a query for classroom, building, date and `period \|\| "all"` goes out iff both parameters are present, the time sync is requested, and a missing parameter marks the fetch failed; lessons, the time offset and the clock colour are kept |
| UiFloor.BuildingName | ui/static/js/floor_script.js:115-128 | the three known buildings are named in the current language, any other key is shown as is |
| UiFloor.FloorLabelCaseInsensitive | ui/static/js/floor_script.js:122-126 | the building parameter is upper-cased, so "sba" labels as the SBA building in either language |
| UiFloor.FloorLabel | ui/static/js/floor_script.js:122-126 | the label starts with the name of the upper-cased building key in the current language and ends with the floor number, with a separator between |
| UiFloor.Rows | ui/static/js/floor_script.js:157-181 | a failed load or an empty list shows one message row; otherwise one row per lesson in the order received |
| UiFloor.LessonRowsIgnoreLanguage | ui/static/js/floor_script.js:157-181 | lesson rows do not depend on the language |
| UiFloor.Retranslated | ui/static/js/floor_script.js:134-142 | a message row is replaced by the message for the fetch status in the new language; lesson rows are kept |
| UiFloor.RetranslatedIsRender | ui/static/js/floor_script.js:134-142 | retranslating a rendered table equals rendering in the new language |
| UiFloor.MissingParamsBecomesLoadingError | ui/static/js/floor_script.js:134-151 | after the missing-parameter message, the first toggle shows the loading-error message |
| UiFloor.FloorView.constructor | ui/static/js/floor_script.js:115-128 | a fresh view: parameters and date stored, Italian, loading, empty table, no clock and not red; the floor label is `FloorLabel` in Italian when both parameters are present, else empty |
| UiFloor.FloorView.StartFetch | ui/static/js/floor_script.js:187-214 | a request is sent iff both parameters are present, with building, floor and date, leaving the table and status; otherwise the missing-parameter message is shown; the label, scroll setups and clock colour are kept |
| UiFloor.FloorView.FetchDone | ui/static/js/floor_script.js:187-214 | the lessons are stored on success, none on failure; the table is rendered; a scroll setup follows only a lesson table; the clock, its colour and the floor label are kept |
| UiFloor.FloorView.TimeSynced | ui/static/js/floor_script.js:82-99 | the offset becomes `Offset(outcome)`; a failure turns the clock red; the clock, table, floor label, scroll setups, lessons and language are kept |
| UiFloor.FloorView.ToggleLanguage | ui/static/js/floor_script.js:134-142 | the language flips, the label is rewritten as `FloorLabel` and the table retranslated; scroll setups and clock colour are kept |
| UiFloor.FloorView.UpdateClock | ui/static/js/floor_script.js:105-109 | the clock shows the offset-corrected time; table, label, scroll setups and clock colour are kept |
| UiFloor.FloorView.Tick | ui/static/js/floor_script.js:289-299 | one loop tick: the counter goes up by one and the clock shows the offset-corrected time; on toggle ticks the language flips, the floor label is rewritten when both parameters are present and a message row is retranslated, lesson rows kept; on refresh ticks a query for building, floor and date goes out iff both parameters are present, otherwise the fetch is marked failed and the missing-parameters message is the only row; lessons, the offset, scroll setups and the clock colour are kept |
| WebClassroom.PairOf | web/static/js/classroom_script.js:45 | a query pair splits at '=' into a key and a value, neither containing '=' |
| WebClassroom.CollectKeys | web/static/js/classroom_script.js:42-47 | a key is collected iff it is non-empty and is the key of some pair |
| WebClassroom.CollectLastWins | web/static/js/classroom_script.js:44-47 | the last pair with a given key decides its value; a missing value is "" |
| WebClassroom.ParseQuery | web/static/js/classroom_script.js:42-47 | the loop builds exactly `Collect` of the query pairs |
| WebClassroom.Alias | web/static/js/classroom_script.js:49-50 | the first name's non-empty value, else the second name's non-empty value; none iff both are missing or empty |
| WebClassroom.Resolve | web/static/js/classroom_script.js:49-57 | no query iff classroom or building is missing; classroom is `classroom \|\| aula`, building is `building \|\| edificio`, period defaults to "all" and date to today |
| WebClassroom.ComputeStatus | web/static/js/classroom_script.js:98-103 | the label reads back, in its language, as the status the lesson has at `now` |
| WebClassroom.GetStatusClass | web/static/js/classroom_script.js:105-110 | the dot class names the status the lesson has at `now` |
| WebClassroom.DotMatchesLabel | web/static/js/classroom_script.js:98-110 | the dot's class and the label's text name the same status |
| WebClassroom.LessonRows | web/static/js/classroom_script.js:124-160 | one row per entry, in order |
| WebClassroom.RenderAsWritten | web/static/js/classroom_script.js:115-122 | the code's test: the no-classes row iff the list is empty or its first message is "No classes available", else the lesson rows |
| WebClassroom.NoLessonsReplyRenderedAsLesson | web/static/js/classroom_script.js:117 | the backend's "No lessons available" reply is drawn as a lesson row with "NaN:NaN – NaN:NaN", "N/A" and an ongoing status |
| WebClassroom.Render | web/static/js/classroom_script.js:115-161 | the no-classes row iff the list is empty or starts with any message entry; otherwise exactly `LessonRows` of the entries, one lesson row per entry |
| WebClassroom.RenderAgreesWithoutMessage | web/static/js/classroom_script.js:115-161 | without a message entry the corrected render equals the code's |
| WebClassroom.RoomName | web/static/js/classroom_script.js:212-214 | the first entry's room name if truthy, else "Aula "/"Classroom " plus the id |
| WebClassroom.ClassroomPage.constructor | web/static/js/classroom_script.js:42-61 | the page resolves its query; without one it shows the missing-parameter row |
| WebClassroom.ClassroomPage.FetchDone | web/static/js/classroom_script.js:202-232 | a 200 JSON answer is stored, names the room and is rendered with a scroll setup; another status shows "Error: status" |
| WebClassroom.ClassroomPage.ToggleLanguage | web/static/js/classroom_script.js:237-246 | the language flips and the last data is re-rendered unchanged |
| WebFloor.BuildingLabel | web/static/js/floor_script.js:34-38 | the three known building keys are named per language; any other key is shown as is |
| WebFloor.Label | web/static/js/floor_script.js:77-84 | `updateLabel`: the label starts with the building's name in the current language and goes on past it |
| WebFloor.LabelEndsWithFloor | web/static/js/floor_script.js:77-84 | the floor label ends with the floor parameter |
| WebFloor.ToggleChangesLabel | web/static/js/floor_script.js:173-186 | the two languages give different labels |
| WebFloor.LessonRows | web/static/js/floor_script.js:102-113 | one row per entry, in order |
| WebFloor.Render | web/static/js/floor_script.js:87-114 | the no-lessons row iff the list is empty or starts with a message entry; otherwise one row per entry |
| WebFloor.NoBlankCells | web/static/js/floor_script.js:102-113 | no cell of a lesson row is blank |
| WebFloor.MessageReplyShowsNoLessons | web/static/js/floor_script.js:91-100 | a backend message reply renders as the no-lessons row |
| WebFloor.FloorPage.constructor | web/static/js/floor_script.js:13-21 | parameters present iff building and floor are truthy; date defaults to today; otherwise the missing-parameter row |
| WebFloor.FloorPage.FetchDone | web/static/js/floor_script.js:153-170 | a body is stored, labelled and rendered with a scroll setup; an error shows its text and keeps the data |
| WebFloor.FloorPage.ToggleLang | web/static/js/floor_script.js:173-186 | the language flips, the label is rewritten, the rows re-rendered from the same data |
| LessonData.InstructorName | app/services.py:43-47 | the instructor is never empty and has no surrounding whitespace |
| LessonData.InstructorNameCases | app/services.py:45-47 | first and last name joined by one space, either alone when the other is blank, "N/A" when both are |
| LessonData.ParseLesson | app/services.py:32-64 | none iff a timestamp key is missing; otherwise the timestamps copied, the name defaulting to "N/A", the instructor `InstructorName` of the first teacher (never empty, stripped), and the room from the description, the id table or "Unknown Room" |
| LessonData.ParseAll | app/services.py:85 | the parsed lessons are at most as many as the bookings; every booking that parses is represented and every lesson comes from a booking that parses to it |
| LessonData.ParseAllAppend | app/services.py:85 | the comprehension keeps the bookings' order and repeats: a concatenation parses part by part, and one booking gives its lesson or nothing |
| LessonData.GatheredMembers | app/services.py:111-114 | a lesson is gathered iff it belongs to some classroom's lesson list |
| LessonData.GatheredAppend | app/services/services.py:91-94 | one more classroom appends its lessons, or nothing for a message reply |
| LessonOrder.SortBy | app/services.py:103 | the result is sorted by the key and is a permutation of the input |
| LessonOrder.SortByStable | app/services.py:116 | lessons with equal keys keep their input order |
| LessonOrder.KeyLeTotal | app/services.py:116 | any two lessons compare under the (start, room) key |
| LessonOrder.KeyLeTransitive | app/services.py:116 | the key ordering is transitive |
| LessonOrder.InsertSorted | app/services/services.py:81 | inserting into a sorted list keeps it sorted |
| LessonOrder.InsertPermutes | app/services/services.py:81 | inserting adds exactly the one element |
| TtlStore.Lookup | app/services/models.py:27-36 | a read returns the data iff the key is present and its expiry is after `now` |
| TtlStore.AfterLookup | app/services/models.py:29-35 | a read deletes the key's entry iff it has expired; other keys are untouched |
| TtlStore.Stored | app/services/models.py:38-42 | a write sets the key's data and expiry and leaves every other key as it was |
| TtlStore.ReadAfterWrite | src/models.py:20-36 | a read after a write returns the data exactly until the lifetime has passed |
| TtlStore.EntrySurvives | app/models.py:34-55 | an entry survives every read made before its expiry and every write to another key |
| TtlStore.WriteThenRead | app/models.py:34-55 | data written at t0 is read back at any t before its expiry, across earlier reads and writes to other keys |
| TtlStore.TtlCache.Get | app/services/models.py:27-36 | the method returns `Lookup` and leaves `AfterLookup` |
| TtlStore.TtlCache.Set | app/services/models.py:38-42 | the dictionary becomes `Stored` |
| PkgModels.Validate | app/services/models.py:9-14 | accepted iff classroom and building are present and the period is absent, "morning", "afternoon" or "all"; errors name exactly the failing fields |
| PkgModels.GetFromCache | app/services/models.py:27-36 | the shared cache read |
| PkgModels.SetInCache | app/services/models.py:38-42 | a write with the configured lifetime, 15 minutes by default |
| AppModels.Validate | app/models.py:10-18 | accepted iff classroom and building are present; period defaults to "all" |
| AppModels.CacheKeyCollides | app/models.py:34-35 | different classroom and building pairs can share a cache key |
| AppModels.GetFromCache | app/models.py:34-46 | a cache read under the three-part key |
| AppModels.SetInCache | app/models.py:48-55 | a cache write under the three-part key, 15 minutes by default |
| SrcModels.CheckField | src/models.py:5-7 | no error iff the field is present, at most 35 characters and alphanumeric |
| SrcModels.Validate | src/models.py:5-7 | accepted iff both fields pass, otherwise one or two errors |
| SrcModels.CacheKeyInjective | src/models.py:20-22 | for valid fields the cache key determines classroom and building |
| SrcModels.GetFromCache | src/models.py:20-31 | a cache read under the `aula_edificio` key |
| SrcModels.SetInCache | src/models.py:33-36 | a cache write of both halves, 15 minutes by default |
| AppServices.ClassroomReply | app/services.py:88-103 | an empty list gives the no-lessons message with the room's name; otherwise the kept lessons sorted by start: each lesson of the period appears as often as in the input, any other lesson not at all |
| AppServices.MorningAfternoonPartition | app/services.py:92-101 | morning and afternoon split the parseable lessons between them |
| AppServices.OtherPeriodsKeepAll | app/services.py:99 | any other period keeps every parseable lesson |
| AppServices.AllKeepsEveryParseableLesson | app/services.py:92-101 | "all" keeps exactly the lessons whose start parses |
| AppServices.FetchClassroomLessons | app/services.py:66-103 | the reply and the new cache are those `ClassroomFetch` gives from the old cache: a hit answers from the cache, an expired entry dropped by the read; no base URL gives an empty list and writes nothing; otherwise the parsed upstream lessons are stored for 15 minutes and answered |
| AppServices.ClassroomFetchEffect | app/services.py:66-103 | one classroom fetch changes only its own `lessons_<id>_<date>` key; that key is present afterwards iff a live entry was read or a base URL is configured, a present entry is live and the reply is drawn from it, a live entry is kept as it was, and without the key the reply is the empty list |
| AppServices.RefetchIsCached | app/services.py:71-86 | fetching the same classroom again at the same moment gives the same reply and leaves the cache as the first fetch left it |
| AppServices.FetchFloorLessons | app/services.py:106-116 | one fetch per classroom of the floor, in map order, for the whole day: fetch i starts from the cache fetch i-1 left and gives reply i, and the cache ends as the last fetch left it; the result is the lessons of those replies, message replies skipped, sorted by start and room |
| PkgServices.PeriodFilter | app/services/services.py:75-79 | fails with ValueError iff some start does not parse; otherwise each lesson of the named period is kept as often as the input holds it, and no other lesson |
| PkgServices.AgreesWithAppFilter | app/services/services.py:75-79 | for "morning", "afternoon" and "all", on parseable starts, it keeps what the `app/services.py` filter keeps |
| PkgServices.OtherPeriodsKeepNothing | app/services/services.py:77-79 | any other period keeps nothing |
| PkgServices.ClassroomReply | app/services/services.py:71-81 | the no-lessons message with "ID " plus the id as fallback name, a ValueError iff some start does not parse, or the lessons of the period sorted by start, each as often as in the input |
| PkgServices.FetchClassroomLessons | app/services/services.py:57-81 | the outcome and the new cache are those `ClassroomFetch` gives from the old cache: a hit answers from the cache; a miss fetches, stores with the configured lifetime (15 minutes by default) and then filters, so a filter error leaves the lessons cached; the only error is ValueError |
| PkgServices.ClassroomFetchEffect | app/services/services.py:57-81 | one classroom fetch changes only its own key, always leaves an entry under it, keeps a live entry as it was, and its outcome is drawn from the entry left there |
| PkgServices.RefetchIsCached | app/services/services.py:62-69 | fetching the same classroom again at the same moment gives the same outcome and leaves the cache as the first fetch left it, even with a lifetime of zero or less |
| PkgServices.FetchFloorLessons | app/services/services.py:83-95 | floors are keyed by their decimal text; the classrooms are fetched in order, each from the cache the previous fetch left; on success every classroom was fetched, the cache is the last one left and the result is their lessons sorted by start and room; on failure the error is the ValueError of the first classroom whose fetch failed, the cache is what that fetch left, and the classrooms before it succeeded |
| SrcServices.Split | src/services.py:55-73 | none iff some start does not parse; otherwise the lessons split into before noon and from noon, a partition of the input |
| SrcServices.SplitPrefixFilters | src/services.py:55-73 | the loop's running split equals the two filters of the prefix read so far |
| SrcServices.LessonLooper.constructor | src/services.py:8-15 | morning display, empty halves, toggle time now, name "N/A" |
| SrcServices.LessonLooper.SplitClasses | src/services.py:55-73 | the loop returns exactly `Split` of the items |
| SrcServices.LessonLooper.FetchAndSplit | src/services.py:17-36 | a cache hit restores both halves; after a miss, an error reply, or a first booking whose `aule` list is present but empty (the IndexError), leaves the halves and the name; otherwise the name is taken from the first booking when it has an `aule` key, and when every start parses the halves are stored and cached for 15 minutes (two empty halves for an empty reply) |
| SrcServices.NameFrom | src/services.py:26-27 | the name is kept when the reply is empty or its first booking has no `aule` key; it is the first room's `descrizione` or "N/A" when that list is non-empty; a present but empty list is the IndexError, reported as none |
| SrcServices.Other | src/services.py:81 | the displayed half always changes |
| SrcServices.LessonLooper.Toggle | src/services.py:75-81 | the half switches and the toggle time resets iff 15 seconds have passed |
| SrcServices.LessonLooper.GetCurrentClasses | src/services.py:83-85 | after the toggle check, the morning or afternoon list of the displayed half |
| Seqs.FilterMembers | app/services.py:103 | a list comprehension keeps exactly the elements that are in the list and pass |
| Seqs.FilterSubMultiset | app/services.py:103 | the kept elements are a sub-multiset of the list |
| Seqs.FilterCount | app/services.py:103 | a passing element is kept as often as the list holds it, a failing one never |
| Seqs.RunSteps | app/services.py:111-114 | a loop that threads a state through its inputs is, step by step, each step relating input j, state j, output j and state j+1 |
| Seqs.RunExtend | app/services.py:111-114 | one more step extends such a loop |
| Seqs.FilterMap | app/services.py:85 | every parsed element comes from an input element, and every parseable input is represented |
| Seqs.FilterMapAppend | app/services.py:85 | mapping a concatenation is the concatenation of the mapped parts |
| Strings.StripLeftDropsSpace | app/services.py:45-47 | what the leading half of `strip` removes is whitespace only |
| Strings.StripRightDropsSpace | app/services.py:45-47 | what the trailing half of `strip` removes is whitespace only |
| Strings.StripJoined | app/services.py:47 | stripping two stripped words joined by a space gives the words, either alone, or nothing |
| Strings.IntToStringInjective | app/services/services.py:89 | distinct floors give distinct keys |
| Strings.SplitAroundSeparator | src/models.py:21 | two separator-free pieces joined by the separator split back into those pieces |

## Left out

- The DOM is left out: markup, CSS classes other than the status dot, table headers, the page loader and `window.onload`. Each table is a sequence of rows.
- Timers, `setInterval` and `requestAnimationFrame` are left out as schedulers. Each callback is a method the caller invokes, and the 4-hour page reload is not modelled.
- The date header (`toLocaleDateString` and capitalisation) and the `web/` views' seconds clock are left out. They depend on the browser's locale, and an `Instant` carries no seconds.
- The browser's time-zone conversion is left out. An instant carries the hour and minute the display shows.
- `decodeURIComponent`, `URLSearchParams` and `encodeURIComponent` are treated as the identity. Percent-decoding is not modelled.
- `toUpperCase` is modelled on ASCII letters only. The building keys are ASCII.
- In the `web/` classroom view, `computeStatus` and `getStatusClass` each read `Date.now()`. They are modelled at one instant.
- JSON bodies that are `null` or neither a list nor an object are left out. In `src/`, a dict body without "error" is left out. These are type errors in the source.
- HTTP and upstream requests are left out. `_make_api_request` is reduced to the three outcomes of `LessonData.ApiResponse`, and exceptions and logging are not modelled.
- Flask's `current_app.config` is left out. The base URL, the room-name table, the floor map and the cache lifetime are fields of an `Env` parameter.
- The `print` calls and logger output of the backends are left out.
- The routes, constants files and data extractor are not part of this model.
- app/services.py calls a one-key `get_from_cache`/`set_in_cache`, but app/models.py defines a three-part key. `AppServices` uses the one-key cache with app/models.py's 15-minute default. The three-part functions are modelled separately in `AppModels`.
- SrcModels.CheckField follows the code's 35-character limit. A test in the repository expects 30.
- Pydantic type coercion is left out. Every present field is taken to be a string.
- StartFetch (`UiClassroom.ClassroomView.StartFetch`, `UiFloor.FloorView.StartFetch`) puts the `date` parameter into the request as given. The code sends `displayDate.toISOString().split('T')[0]`, which normalises the date and throws a RangeError for an unparseable one before the parameters are tested; that throw, which stops the page's first load and its loop, is not modelled.
- ParseLesson (`LessonData.ParseLesson`) treats a JSON `null` field like an absent one. In the code a `null` teacher name raises an AttributeError and drops the booking (app/services.py:62), a `null` start keeps the lesson and makes the period filter raise (app/services.py:94 and 100), and a `null` lesson name gives `None` where the model gives "N/A".
- TimeSynced (`UiClassroom.ClassroomView.TimeSynced`, `UiFloor.FloorView.TimeSynced`) sets the corrected `TimeSync.Offset`, 0 for a JSON answer without a usable `time`. The code as written sets NaN there, and the clock then reads "Invalid Date". `TimeSync.OffsetAsWritten` models that, as listed under Findings.
- FetchDone (`WebClassroom.ClassroomPage.FetchDone`) renders with the corrected `WebClassroom.Render`. The code as written, `WebClassroom.RenderAsWritten`, draws the backend's "No lessons available" reply as a lesson row, as listed under Findings.
- ToggleLanguage (`WebClassroom.ClassroomPage.ToggleLanguage`) re-renders the last data with the corrected `WebClassroom.Render` rather than the code's message test, for the same reason.

## Findings

| source | as written | input that shows it | evidently intended | confidence | as-written member | corrected member |
|---|---|---|---|---|---|---|
| web/static/js/classroom_script.js:117 | the page shows "no classes" only for the message text 'No classes available' | the backend's reply for an empty classroom, `[{"classroom_name": n, "message": "No lessons available"}]`, is drawn as a lesson row "NaN:NaN – NaN:NaN", "N/A", ongoing | any message entry, including the backend's "No lessons available", shows the no-classes row | not executed | WebClassroom.RenderAsWritten, WebClassroom.NoLessonsReplyRenderedAsLesson | WebClassroom.Render |
| ui/static/js/classroom_script.js:88-91 (also ui/static/js/floor_script.js:88-91) | the offset is `new Date(data.time) - new Date()`, with a fallback of 0 only in `catch` | a JSON answer whose `time` is missing or unparseable sets the offset to NaN, and the clock then shows "Invalid Date" | every failed sync, a malformed answer included, falls back to offset 0 | not executed | TimeSync.OffsetAsWritten, TimeSync.UnparseableTimeGivesNaN | TimeSync.Offset |
