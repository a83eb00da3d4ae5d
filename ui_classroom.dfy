/**
 * The `ui/` classroom view: one room's lessons of one day, with a clock corrected
 * by the time service, a status per lesson kept current every second, and the
 * language switching between Italian and English every 15 seconds.
 */
module UiClassroom {
  import opened Wrappers
  import opened Language
  import opened ClockFormat
  import opened LessonStatus
  import opened TimeSync
  import opened ClientData
  import UiTicker

  function MessageText(k: MessageKey, l: Lang): string {
    match (k, l)
    case (NoLessons, It) => "Nessuna lezione disponibile al momento"
    case (NoLessons, En) => "No lessons available at the moment"
    case (MissingParams, It) => "Parametri 'classroom' o 'building' mancanti"
    case (MissingParams, En) => "Missing 'classroom' or 'building' parameters"
    case (LoadingError, It) => "Errore nel caricamento delle lezioni"
    case (LoadingError, En) => "Error loading lessons"
  }

  /** A row of the lesson table: a message spanning the table, or one lesson. */
  datatype Row =
    | MessageRow(text: string)
    | LessonRow(timeRange: string, lessonName: string, status: Status, statusText: string, instructor: string)

  /** The table shows a message on a failed load, an empty list, or a message entry first. */
  predicate ShowsMessage(fs: FetchStatus, lessons: seq<Entry>) {
    fs == Failed || |lessons| == 0 || Truthy(lessons[0].message)
  }

  function TimeRange(e: Entry): string {
    LocaleTime(DateOf(e.start)) + " - " + LocaleTime(DateOf(e.end))
  }

  /** `getStatus(lesson.start_time, lesson.end_time, now)` */
  function StatusAt(e: Entry, now: int): Status {
    ClassifyDates(now, EpochOf(e.start), EpochOf(e.end))
  }

  /** The row of one lesson as `renderLessons` writes it. */
  function LessonRowOf(e: Entry, now: int, l: Lang): Row {
    var s := StatusAt(e, now);
    LessonRow(TimeRange(e), Spliced(e.lessonName), s, StatusText(s, l), Spliced(e.instructor))
  }

  /** A row that shows lesson `e`, with a status text matching its status in language `l`. */
  predicate ShowsLesson(row: Row, e: Entry, l: Lang) {
    row.LessonRow? && row.timeRange == TimeRange(e) && row.lessonName == Spliced(e.lessonName)
    && row.instructor == Spliced(e.instructor) && row.statusText == StatusText(row.status, l)
  }

  /**
   * What the table may hold once rendered: the message that the fetch status
   * selects, or one row per lesson in the received order.
   */
  predicate Consistent(rows: seq<Row>, fs: FetchStatus, lessons: seq<Entry>, l: Lang) {
    if ShowsMessage(fs, lessons) then rows == [MessageRow(MessageText(MessageFor(fs), l))]
    else |rows| == |lessons| && forall i :: 0 <= i < |rows| ==> ShowsLesson(rows[i], lessons[i], l)
  }

  /** `renderLessons`: the message row, or one row per lesson with its status at `now`. */
  function Rows(fs: FetchStatus, lessons: seq<Entry>, now: int, l: Lang): (rows: seq<Row>)
    ensures Consistent(rows, fs, lessons, l)
    ensures !ShowsMessage(fs, lessons) ==> forall i :: 0 <= i < |rows| ==> rows[i].status == StatusAt(lessons[i], now)
  {
    if ShowsMessage(fs, lessons) then [MessageRow(MessageText(MessageFor(fs), l))]
    else seq(|lessons|, i requires 0 <= i < |lessons| => LessonRowOf(lessons[i], now, l))
  }

  /** `renderLessons` sets the room label from the first entry, else "Classroom". */
  function ClassroomLabel(lessons: seq<Entry>): (text: string)
    ensures |lessons| > 0 ==> text == AsText(lessons[0].classroomName)
    ensures |lessons| == 0 ==> text == "Classroom"
  {
    if |lessons| > 0 then AsText(lessons[0].classroomName) else "Classroom"
  }

  /** The message key "missingParams" is never what the table shows. */
  lemma NoMissingParamsRow(rows: seq<Row>, fs: FetchStatus, lessons: seq<Entry>, l: Lang, l': Lang)
    requires Consistent(rows, fs, lessons, l)
    ensures MessageRow(MessageText(MissingParams, l')) !in rows
  {
    if ShowsMessage(fs, lessons) {
      assert MessageText(MessageFor(fs), l) != MessageText(MissingParams, l');
    } else {
      forall i | 0 <= i < |rows|
        ensures rows[i] != MessageRow(MessageText(MissingParams, l'))
      {
        assert ShowsLesson(rows[i], lessons[i], l);
      }
    }
  }

  function LessonAt(lessons: seq<Entry>, i: nat): Option<Entry> {
    if i < |lessons| then Some(lessons[i]) else None
  }

  /** One row of `updateLessonStatus`: only a lesson row whose lesson has a start time changes. */
  function RefreshRow(row: Row, lesson: Option<Entry>, now: int, l: Lang): (r: Row)
    ensures r.MessageRow? <==> row.MessageRow?
    ensures r.LessonRow? ==>
      r.timeRange == row.timeRange && r.lessonName == row.lessonName && r.instructor == row.instructor
  {
    if row.LessonRow? && lesson.Some? && TimeTruthy(lesson.value.start) then
      var s := StatusAt(lesson.value, now);
      row.(status := s, statusText := StatusText(s, l))
    else row
  }

  predicate NothingToRefresh(rows: seq<Row>) {
    |rows| == 0 || (|rows| == 1 && rows[0].MessageRow?)
  }

  /** `updateLessonStatus`: every row's status recomputed against its lesson at `now`. */
  function RefreshStatuses(rows: seq<Row>, lessons: seq<Entry>, now: int, l: Lang): (r: seq<Row>)
    ensures |r| == |rows|
    ensures forall i :: 0 <= i < |rows| ==> r[i] == RefreshRow(rows[i], LessonAt(lessons, i), now, l)
  {
    if NothingToRefresh(rows) then rows
    else seq(|rows|, i requires 0 <= i < |rows| => RefreshRow(rows[i], LessonAt(lessons, i), now, l))
  }

  /** Refreshing the statuses keeps a rendered table consistent with the lessons. */
  lemma RefreshKeepsConsistent(rows: seq<Row>, fs: FetchStatus, lessons: seq<Entry>, now: int, l: Lang)
    requires Consistent(rows, fs, lessons, l)
    ensures Consistent(RefreshStatuses(rows, lessons, now, l), fs, lessons, l)
  {
    var r := RefreshStatuses(rows, lessons, now, l);
    if ShowsMessage(fs, lessons) {
      assert r[0] == rows[0];
      assert r == rows;
    } else {
      forall i | 0 <= i < |r|
        ensures ShowsLesson(r[i], lessons[i], l)
      {
        assert ShowsLesson(rows[i], lessons[i], l);
      }
    }
  }

  /** Refreshing right after a render at the same instant changes nothing. */
  lemma RefreshAfterRender(fs: FetchStatus, lessons: seq<Entry>, now: int, l: Lang)
    ensures RefreshStatuses(Rows(fs, lessons, now, l), lessons, now, l) == Rows(fs, lessons, now, l)
  {
    var rows := Rows(fs, lessons, now, l);
    var r := RefreshStatuses(rows, lessons, now, l);
    if !ShowsMessage(fs, lessons) {
      forall i | 0 <= i < |r|
        ensures r[i] == rows[i]
      {
        assert rows[i] == LessonRowOf(lessons[i], now, l);
      }
    }
  }

  /**
   * When every lesson has a start time, refreshing a table rendered at `earlier` gives
   * at `now` exactly the table a full render at `now` would give.
   */
  lemma RefreshEqualsRender(fs: FetchStatus, lessons: seq<Entry>, earlier: int, now: int, l: Lang)
    requires forall i :: 0 <= i < |lessons| ==> TimeTruthy(lessons[i].start)
    ensures RefreshStatuses(Rows(fs, lessons, earlier, l), lessons, now, l) == Rows(fs, lessons, now, l)
  {
    var r := RefreshStatuses(Rows(fs, lessons, earlier, l), lessons, now, l);
    var want := Rows(fs, lessons, now, l);
    if !ShowsMessage(fs, lessons) {
      forall i | 0 <= i < |r|
        ensures r[i] == want[i]
      {
        assert Rows(fs, lessons, earlier, l)[i] == LessonRowOf(lessons[i], earlier, l);
        assert want[i] == LessonRowOf(lessons[i], now, l);
      }
    }
  }

  /** The body of the lesson request `fetchLessons` posts. */
  datatype LessonQuery = LessonQuery(classroom: string, building: string, date: string, period: string)

  class ClassroomView {
    const classroom: Option<string>
    const building: Option<string>
    const period: Option<string>
    /** The `date` parameter, else today's date as the browser gives it. */
    const date: string

    var lang: Lang
    var lessons: seq<Entry>
    var fetchStatus: FetchStatus
    var timeDifference: int
    var clockRed: bool
    /** The instant the clock shows, once a tick has drawn it. */
    var clock: Option<int>
    var roomLabel: string
    var rows: seq<Row>
    /** Scroller setups requested by lesson renders (each fires 100 ms later). */
    var scrollSetups: nat
    var seconds: nat

    predicate ParamsPresent()
      reads this
    {
      Truthy(classroom) && Truthy(building)
    }

    /** Lessons are held only after a load succeeded, and only a view with both parameters loads. */
    ghost predicate Coherent()
      reads this
    {
      && (fetchStatus != Loaded ==> lessons == [])
      && (!ParamsPresent() ==> fetchStatus != Loaded)
    }

    /** Before its first render the table is empty; afterwards it is consistent with the state. */
    ghost predicate Valid()
      reads this
    {
      Coherent() && ((rows == [] && fetchStatus == Loading) || Consistent(rows, fetchStatus, lessons, lang))
    }

    constructor(classroom: Option<string>, building: Option<string>, period: Option<string>, date: string)
      ensures Valid()
      ensures this.classroom == classroom && this.building == building && this.period == period && this.date == date
      ensures lang == It && lessons == [] && fetchStatus == Loading && timeDifference == 0
      ensures !clockRed && clock.None? && rows == [] && scrollSetups == 0 && seconds == 0
    {
      this.classroom := classroom;
      this.building := building;
      this.period := period;
      this.date := date;
      lang := It;
      lessons := [];
      fetchStatus := Loading;
      timeDifference := 0;
      clockRed := false;
      clock := None;
      roomLabel := "";
      rows := [];
      scrollSetups := 0;
      seconds := 0;
    }

    function Now(localNow: int): int
      reads this
    {
      CorrectedNow(localNow, timeDifference)
    }

    /** `renderLessons` at local time `localNow`. */
    method Render(localNow: int)
      requires Coherent()
      modifies this
      ensures Valid()
      ensures rows == Rows(fetchStatus, lessons, Now(localNow), lang)
      ensures roomLabel == ClassroomLabel(lessons)
      ensures scrollSetups == old(scrollSetups) + (if ShowsMessage(fetchStatus, lessons) then 0 else 1)
      ensures lang == old(lang) && lessons == old(lessons) && fetchStatus == old(fetchStatus)
      ensures timeDifference == old(timeDifference) && clockRed == old(clockRed) && clock == old(clock)
      ensures seconds == old(seconds)
    {
      rows := Rows(fetchStatus, lessons, Now(localNow), lang);
      roomLabel := ClassroomLabel(lessons);
      if !ShowsMessage(fetchStatus, lessons) {
        scrollSetups := scrollSetups + 1;
      }
    }

    /**
     * `fetchLessons`: without both parameters the load fails on the spot and the
     * table is re-rendered; otherwise the request is returned for the caller to send.
     */
    method StartFetch(localNow: int) returns (request: Option<LessonQuery>)
      requires Valid()
      modifies this
      ensures Valid()
      ensures request.Some? <==> ParamsPresent()
      ensures request.Some? ==>
        request.value == LessonQuery(classroom.value, building.value, date, OrElse(period, "all"))
      ensures request.Some? ==> rows == old(rows) && fetchStatus == old(fetchStatus) && roomLabel == old(roomLabel)
      ensures request.None? ==> fetchStatus == Failed && rows == Rows(Failed, lessons, Now(localNow), lang)
      ensures request.None? ==> roomLabel == ClassroomLabel(lessons)
      ensures lang == old(lang) && lessons == old(lessons) && timeDifference == old(timeDifference)
      ensures clockRed == old(clockRed) && clock == old(clock) && seconds == old(seconds)
      ensures scrollSetups == old(scrollSetups)
    {
      if !ParamsPresent() {
        fetchStatus := Failed;
        Render(localNow);
        return None;
      }
      request := Some(LessonQuery(classroom.value, building.value, date, OrElse(period, "all")));
    }

    /** The lesson request answering: Some(data) on a 2xx JSON array, None on any failure. */
    method FetchDone(response: Option<seq<Entry>>, localNow: int)
      requires Valid() && ParamsPresent()
      modifies this
      ensures Valid()
      ensures response.Some? ==> fetchStatus == Loaded && lessons == response.value
      ensures response.None? ==> fetchStatus == Failed && lessons == []
      ensures rows == Rows(fetchStatus, lessons, Now(localNow), lang)
      ensures roomLabel == ClassroomLabel(lessons)
      ensures scrollSetups == old(scrollSetups) + (if ShowsMessage(fetchStatus, lessons) then 0 else 1)
      ensures lang == old(lang) && timeDifference == old(timeDifference) && seconds == old(seconds)
      ensures clockRed == old(clockRed) && clock == old(clock)
    {
      if response.Some? {
        fetchStatus := Loaded;
        lessons := response.value;
      } else {
        fetchStatus := Failed;
        lessons := [];
      }
      Render(localNow);
    }

    /** The time request answering: the offset is set, and a failure turns the clock red. */
    method TimeSynced(outcome: SyncOutcome)
      requires Valid()
      modifies this
      ensures Valid()
      ensures timeDifference == Offset(outcome)
      ensures clockRed == (old(clockRed) || outcome.SyncFailed?)
      ensures rows == old(rows) && lessons == old(lessons) && lang == old(lang)
      ensures fetchStatus == old(fetchStatus) && seconds == old(seconds)
      ensures clock == old(clock) && roomLabel == old(roomLabel) && scrollSetups == old(scrollSetups)
    {
      timeDifference := Offset(outcome);
      if outcome.SyncFailed? {
        clockRed := true;
      }
    }

    /** `toggleLanguage`: flip the language and re-render; nothing is fetched. */
    method ToggleLanguage(localNow: int)
      requires Valid()
      modifies this
      ensures Valid()
      ensures lang == Flip(old(lang))
      ensures rows == Rows(fetchStatus, lessons, Now(localNow), lang)
      ensures roomLabel == ClassroomLabel(lessons)
      ensures scrollSetups == old(scrollSetups) + (if ShowsMessage(fetchStatus, lessons) then 0 else 1)
      ensures lessons == old(lessons) && fetchStatus == old(fetchStatus) && clock == old(clock)
      ensures timeDifference == old(timeDifference) && seconds == old(seconds) && clockRed == old(clockRed)
    {
      lang := Flip(lang);
      Render(localNow);
    }

    method UpdateClock(localNow: int)
      requires Valid()
      modifies this
      ensures Valid()
      ensures clock == Some(Now(localNow))
      ensures rows == old(rows) && lessons == old(lessons) && lang == old(lang)
      ensures fetchStatus == old(fetchStatus) && timeDifference == old(timeDifference)
      ensures seconds == old(seconds) && roomLabel == old(roomLabel) && scrollSetups == old(scrollSetups)
      ensures clockRed == old(clockRed)
    {
      clock := Some(Now(localNow));
    }

    /** `updateLessonStatus`: walk the rows and refresh each lesson's status. */
    method UpdateLessonStatus(localNow: int)
      requires Valid()
      modifies this
      ensures Valid()
      ensures rows == RefreshStatuses(old(rows), lessons, Now(localNow), lang)
      ensures lessons == old(lessons) && lang == old(lang) && fetchStatus == old(fetchStatus)
      ensures timeDifference == old(timeDifference) && clock == old(clock) && seconds == old(seconds)
      ensures roomLabel == old(roomLabel) && scrollSetups == old(scrollSetups) && clockRed == old(clockRed)
    {
      if NothingToRefresh(rows) {
        return;
      }
      var now := Now(localNow);
      var updated := rows;
      var i := 0;
      while i < |updated|
        invariant 0 <= i <= |updated| == |rows|
        invariant forall j :: 0 <= j < i ==> updated[j] == RefreshRow(rows[j], LessonAt(lessons, j), now, lang)
        invariant forall j :: i <= j < |updated| ==> updated[j] == rows[j]
      {
        updated := updated[i := RefreshRow(updated[i], LessonAt(lessons, i), now, lang)];
        i := i + 1;
      }
      RefreshKeepsConsistent(rows, fetchStatus, lessons, now, lang);
      rows := updated;
    }

    /**
     * One second of the main loop: clock, statuses, the toggle every 15 ticks, and
     * every 300 ticks the lesson refetch and the time sync (returned for the caller
     * to send).
     */
    method Tick(localNow: int) returns (fetch: Option<LessonQuery>, sync: bool)
      requires Valid()
      modifies this
      ensures Valid()
      ensures seconds == old(seconds) + 1
      ensures lang == if UiTicker.TogglesOn(seconds) then Flip(old(lang)) else old(lang)
      ensures clock == Some(Now(localNow))
      ensures sync <==> UiTicker.RefreshesOn(seconds)
      ensures fetch.Some? <==> UiTicker.RefreshesOn(seconds) && ParamsPresent()
      ensures timeDifference == old(timeDifference) && lessons == old(lessons)
      ensures fetchStatus == if UiTicker.RefreshesOn(seconds) && !ParamsPresent() then Failed else old(fetchStatus)
      ensures fetch.Some? ==> fetch.value == LessonQuery(classroom.value, building.value, date, OrElse(period, "all"))
      ensures UiTicker.TogglesOn(seconds) ==> rows == Rows(fetchStatus, lessons, Now(localNow), lang)
      ensures !UiTicker.TogglesOn(seconds) ==> rows == RefreshStatuses(old(rows), lessons, Now(localNow), lang)
      ensures roomLabel == if UiTicker.TogglesOn(seconds) then ClassroomLabel(lessons) else old(roomLabel)
      ensures scrollSetups == old(scrollSetups) +
        (if UiTicker.TogglesOn(seconds) && !ShowsMessage(fetchStatus, lessons) then 1 else 0)
      ensures clockRed == old(clockRed)
    {
      seconds := seconds + 1;
      if UiTicker.RefreshesOn(seconds) {
        UiTicker.RefreshIsToggle(seconds);
      }
      UpdateClock(localNow);
      UpdateLessonStatus(localNow);
      if UiTicker.TogglesOn(seconds) {
        ToggleLanguage(localNow);
      }
      fetch, sync := None, false;
      if UiTicker.RefreshesOn(seconds) {
        fetch := StartFetch(localNow);
        sync := true;
      }
    }
  }
}
