/**
 * The `ui/` floor view: every lesson of one floor of a building, in the order the
 * backend sends them, under a label naming the building and the floor.
 */
module UiFloor {
  import opened Wrappers
  import opened Strings
  import opened Language
  import opened ClockFormat
  import opened TimeSync
  import opened ClientData
  import UiTicker

  function MessageText(k: MessageKey, l: Lang): string {
    match (k, l)
    case (NoLessons, It) => "Nessuna lezione trovata per questo piano al momento"
    case (NoLessons, En) => "No lessons found for this floor at the moment"
    case (MissingParams, It) => "Parametri 'building' o 'floor' mancanti"
    case (MissingParams, En) => "Missing 'building' or 'floor' parameters"
    case (LoadingError, It) => "Errore nel caricamento delle lezioni"
    case (LoadingError, En) => "Error loading lessons"
  }

  function FloorWord(l: Lang): string {
    if l == It then "Piano" else "Floor"
  }

  /** `lang.building[key] || key`: the three known buildings are named, any other key is shown as is. */
  function BuildingName(key: string, l: Lang): (name: string)
    ensures key in {"A", "B", "SBA"} ==> name == (if l == It then "Edificio " else "Building ") + key
    ensures key !in {"A", "B", "SBA"} ==> name == key
  {
    if key == "A" || key == "B" || key == "SBA" then
      (if l == It then "Edificio " else "Building ") + key
    else key
  }

  /** The label `updateStaticUI` writes: building name, " - ", the floor word and the floor. */
  function FloorLabel(building: string, floor: string, l: Lang): (r: string)
    ensures var b := BuildingName(AsciiUpper(building), l);
      |r| > |b| + |floor| && r[..|b|] == b && r[|r| - |floor|..] == floor
  {
    BuildingName(AsciiUpper(building), l) + " - " + FloorWord(l) + " " + floor
  }

  /**
   * The building parameter is matched without regard to case: "sba" and "SBA" give
   * the same label, which names the building in the current language.
   */
  lemma FloorLabelCaseInsensitive(building: string, floor: string, l: Lang)
    requires AsciiUpper(building) == "SBA"
    ensures FloorLabel(building, floor, l) == FloorLabel("SBA", floor, l)
    ensures FloorLabel(building, floor, It) == "Edificio SBA - Piano " + floor
    ensures FloorLabel(building, floor, En) == "Building SBA - Floor " + floor
  {
    SBALabel(floor, It);
    SBALabel(floor, En);
  }

  /** The label of the building key "SBA", spelled out in each language. */
  lemma SBALabel(floor: string, l: Lang)
    ensures FloorLabel("SBA", floor, l) ==
      (if l == It then "Edificio SBA - Piano " else "Building SBA - Floor ") + floor
  {
    var u := AsciiUpper("SBA");
    assert |u| == 3 && u[0] == 'S' && u[1] == 'B' && u[2] == 'A';
    var name, word := BuildingName("SBA", l), FloorWord(l);
    assert FloorLabel("SBA", floor, l) == ((name + " - ") + word + " ") + floor;
    if l == It {
      assert name == "Edificio SBA" && word == "Piano";
      assert (name + " - ") + word + " " == "Edificio SBA - Piano ";
    } else {
      assert name == "Building SBA" && word == "Floor";
      assert (name + " - ") + word + " " == "Building SBA - Floor ";
    }
  }

  datatype Row =
    | MessageRow(text: string)
    | LessonRow(classroom: string, timeRange: string, lessonName: string, instructor: string)

  function LessonRowOf(e: Entry): Row {
    LessonRow(Spliced(e.classroomName),
      LocaleTime(DateOf(e.start)) + " - " + LocaleTime(DateOf(e.end)),
      Spliced(e.lessonName), Spliced(e.instructor))
  }

  predicate ShowsMessage(fs: FetchStatus, lessons: seq<Entry>) {
    fs == Failed || |lessons| == 0
  }

  /**
   * `renderLessons`: a message on a failed load or an empty list, otherwise one row
   * per lesson in the order received.
   */
  function Rows(fs: FetchStatus, lessons: seq<Entry>, l: Lang): (rows: seq<Row>)
    ensures ShowsMessage(fs, lessons) ==> rows == [MessageRow(MessageText(MessageFor(fs), l))]
    ensures !ShowsMessage(fs, lessons) ==>
      |rows| == |lessons| && forall i :: 0 <= i < |rows| ==> rows[i] == LessonRowOf(lessons[i])
  {
    if ShowsMessage(fs, lessons) then [MessageRow(MessageText(MessageFor(fs), l))]
    else LessonRows(lessons)
  }

  /** One row per lesson, in the order received. */
  function LessonRows(lessons: seq<Entry>): (rows: seq<Row>)
    ensures |rows| == |lessons| && forall i :: 0 <= i < |rows| ==> rows[i] == LessonRowOf(lessons[i])
    decreases |lessons|
  {
    if lessons == [] then [] else [LessonRowOf(lessons[0])] + LessonRows(lessons[1..])
  }

  /** Lesson rows carry no translated text, so the toggle need not rebuild them. */
  lemma LessonRowsIgnoreLanguage(fs: FetchStatus, lessons: seq<Entry>, l1: Lang, l2: Lang)
    requires !ShowsMessage(fs, lessons)
    ensures Rows(fs, lessons, l1) == Rows(fs, lessons, l2)
  {
  }

  predicate HasMessageRow(rows: seq<Row>) {
    exists i :: 0 <= i < |rows| && rows[i].MessageRow?
  }

  /** `toggleLanguage` on the table: a message is re-selected from the fetch status; lesson rows stay. */
  function Retranslated(rows: seq<Row>, fs: FetchStatus, l: Lang): (r: seq<Row>)
    ensures HasMessageRow(rows) ==> r == [MessageRow(MessageText(MessageFor(fs), l))]
    ensures !HasMessageRow(rows) ==> r == rows
  {
    if HasMessageRow(rows) then [MessageRow(MessageText(MessageFor(fs), l))] else rows
  }

  /** A rendered table, retranslated, is exactly the table a render in the new language gives. */
  lemma RetranslatedIsRender(fs: FetchStatus, lessons: seq<Entry>, l1: Lang, l2: Lang)
    ensures Retranslated(Rows(fs, lessons, l1), fs, l2) == Rows(fs, lessons, l2)
  {
    var rows := Rows(fs, lessons, l1);
    if !ShowsMessage(fs, lessons) {
      assert !HasMessageRow(rows) by {
        forall i | 0 <= i < |rows| ensures !rows[i].MessageRow? {
          assert rows[i] == LessonRowOf(lessons[i]);
        }
      }
    } else {
      assert rows[0].MessageRow?;
    }
  }

  /** After a missing-parameter message, the first toggle turns it into the loading-error message. */
  lemma MissingParamsBecomesLoadingError(l: Lang)
    ensures Retranslated([MessageRow(MessageText(MissingParams, l))], Failed, Flip(l))
      == [MessageRow(MessageText(LoadingError, Flip(l)))]
  {
    assert [MessageRow(MessageText(MissingParams, l))][0].MessageRow?;
  }

  /**
   * What the table can show: nothing before the first load, a missing-parameter message
   * (or, after a toggle, the loading-error message) without both parameters, and the
   * rendered lessons otherwise.
   */
  predicate TableShown(present: bool, fs: FetchStatus, lessons: seq<Entry>, rows: seq<Row>, l: Lang) {
    || (rows == [] && fs == Loading)
    || (!present && fs == Failed && rows == [MessageRow(MessageText(MissingParams, l))])
    || (!present && fs == Failed && rows == [MessageRow(MessageText(LoadingError, l))])
    || (present && rows == Rows(fs, lessons, l))
  }

  /** The toggle keeps the table one of the shapes above, in the new language. */
  lemma RetranslatedShown(present: bool, fs: FetchStatus, lessons: seq<Entry>, rows: seq<Row>, l: Lang)
    requires TableShown(present, fs, lessons, rows, l)
    ensures TableShown(present, fs, lessons, Retranslated(rows, fs, Flip(l)), Flip(l))
  {
    if present && rows == Rows(fs, lessons, l) {
      RetranslatedIsRender(fs, lessons, l, Flip(l));
    } else if rows != [] {
      assert rows[0].MessageRow?;
    }
  }

  class FloorView {
    const building: Option<string>
    const floor: Option<string>
    const date: string

    var lang: Lang
    var lessons: seq<Entry>
    var fetchStatus: FetchStatus
    var timeDifference: int
    var clockRed: bool
    var clock: Option<int>
    var floorLabel: string
    var rows: seq<Row>
    var scrollSetups: nat
    var seconds: nat

    predicate ParamsPresent()
      reads this
    {
      Truthy(building) && Truthy(floor)
    }

    /** The label of the current language, once both parameters are present. */
    function ExpectedLabel(): string
      reads this
      requires ParamsPresent()
    {
      FloorLabel(building.value, floor.value, lang)
    }

    ghost predicate Valid()
      reads this
    {
      && (fetchStatus != Loaded ==> lessons == [])
      && (ParamsPresent() ==> floorLabel == ExpectedLabel())
      && (!ParamsPresent() ==> fetchStatus != Loaded && floorLabel == "")
      && TableShown(ParamsPresent(), fetchStatus, lessons, rows, lang)
    }

    /** The page as `init` leaves it before any request is sent: the label written, the table empty. */
    constructor(building: Option<string>, floor: Option<string>, date: string)
      ensures Valid()
      ensures this.building == building && this.floor == floor && this.date == date
      ensures lang == It && lessons == [] && fetchStatus == Loading && timeDifference == 0
      ensures rows == [] && clock.None? && seconds == 0 && scrollSetups == 0 && !clockRed
      ensures floorLabel == if Truthy(building) && Truthy(floor) then FloorLabel(building.value, floor.value, It) else ""
    {
      this.building := building;
      this.floor := floor;
      this.date := date;
      lang := It;
      lessons := [];
      fetchStatus := Loading;
      timeDifference := 0;
      clockRed := false;
      clock := None;
      rows := [];
      scrollSetups := 0;
      seconds := 0;
      new;
      if Truthy(building) && Truthy(floor) {
        floorLabel := FloorLabel(building.value, floor.value, It);
      } else {
        floorLabel := "";
      }
    }

    /**
     * `fetchLessons`: without both parameters the load fails and the missing-parameter
     * message is shown (no render); otherwise the floor request is returned:
     * building, floor and date.
     */
    method StartFetch() returns (request: Option<(string, string, string)>)
      requires Valid()
      modifies this
      ensures Valid()
      ensures request.Some? <==> ParamsPresent()
      ensures request.Some? ==> request.value == (building.value, floor.value, date)
      ensures request.Some? ==> rows == old(rows) && fetchStatus == old(fetchStatus)
      ensures request.None? ==> fetchStatus == Failed && rows == [MessageRow(MessageText(MissingParams, lang))]
      ensures lang == old(lang) && lessons == old(lessons) && timeDifference == old(timeDifference)
      ensures clock == old(clock) && seconds == old(seconds) && floorLabel == old(floorLabel)
      ensures scrollSetups == old(scrollSetups) && clockRed == old(clockRed)
    {
      if !ParamsPresent() {
        fetchStatus := Failed;
        rows := [MessageRow(MessageText(MissingParams, lang))];
        return None;
      }
      request := Some((building.value, floor.value, date));
    }

    /** The floor request answering, then `renderLessons`. */
    method FetchDone(response: Option<seq<Entry>>)
      requires Valid() && ParamsPresent()
      modifies this
      ensures Valid()
      ensures response.Some? ==> fetchStatus == Loaded && lessons == response.value
      ensures response.None? ==> fetchStatus == Failed && lessons == []
      ensures rows == Rows(fetchStatus, lessons, lang)
      ensures scrollSetups == old(scrollSetups) + (if ShowsMessage(fetchStatus, lessons) then 0 else 1)
      ensures lang == old(lang) && timeDifference == old(timeDifference) && seconds == old(seconds)
      ensures clock == old(clock) && clockRed == old(clockRed) && floorLabel == old(floorLabel)
    {
      if response.Some? {
        fetchStatus := Loaded;
        lessons := response.value;
      } else {
        fetchStatus := Failed;
        lessons := [];
      }
      rows := Rows(fetchStatus, lessons, lang);
      if !ShowsMessage(fetchStatus, lessons) {
        scrollSetups := scrollSetups + 1;
      }
    }

    method TimeSynced(outcome: SyncOutcome)
      requires Valid()
      modifies this
      ensures Valid()
      ensures timeDifference == Offset(outcome)
      ensures clockRed == (old(clockRed) || outcome.SyncFailed?)
      ensures rows == old(rows) && lessons == old(lessons) && lang == old(lang)
      ensures fetchStatus == old(fetchStatus) && seconds == old(seconds)
      ensures clock == old(clock) && floorLabel == old(floorLabel) && scrollSetups == old(scrollSetups)
    {
      timeDifference := Offset(outcome);
      if outcome.SyncFailed? {
        clockRed := true;
      }
    }

    /**
     * `toggleLanguage`: flip the language, rewrite the label, and re-select a shown
     * message from the fetch status; lesson rows are left as they are.
     */
    method ToggleLanguage()
      requires Valid()
      modifies this
      ensures Valid()
      ensures lang == Flip(old(lang))
      ensures rows == Retranslated(old(rows), fetchStatus, lang)
      ensures ParamsPresent() ==> floorLabel == FloorLabel(building.value, floor.value, lang)
      ensures lessons == old(lessons) && fetchStatus == old(fetchStatus) && clock == old(clock)
      ensures timeDifference == old(timeDifference) && seconds == old(seconds)
      ensures scrollSetups == old(scrollSetups) && clockRed == old(clockRed)
    {
      RetranslatedShown(ParamsPresent(), fetchStatus, lessons, rows, lang);
      var next := Flip(lang);
      var newLabel := if ParamsPresent() then FloorLabel(building.value, floor.value, next) else floorLabel;
      lang, floorLabel, rows := next, newLabel, Retranslated(rows, fetchStatus, next);
    }

    method UpdateClock(localNow: int)
      modifies this
      ensures clock == Some(CorrectedNow(localNow, timeDifference))
      ensures rows == old(rows) && lessons == old(lessons) && lang == old(lang)
      ensures fetchStatus == old(fetchStatus) && timeDifference == old(timeDifference)
      ensures floorLabel == old(floorLabel) && seconds == old(seconds)
      ensures scrollSetups == old(scrollSetups) && clockRed == old(clockRed)
    {
      clock := Some(CorrectedNow(localNow, timeDifference));
    }

    /** One second of the main loop: clock, the toggle every 15 ticks, the refresh every 300. */
    method Tick(localNow: int) returns (fetch: Option<(string, string, string)>, sync: bool)
      requires Valid()
      modifies this
      ensures Valid()
      ensures seconds == old(seconds) + 1
      ensures lang == if UiTicker.TogglesOn(seconds) then Flip(old(lang)) else old(lang)
      ensures clock == Some(CorrectedNow(localNow, timeDifference))
      ensures sync <==> UiTicker.RefreshesOn(seconds)
      ensures fetch.Some? <==> UiTicker.RefreshesOn(seconds) && ParamsPresent()
      ensures timeDifference == old(timeDifference) && lessons == old(lessons)
      ensures fetchStatus == if UiTicker.RefreshesOn(seconds) && !ParamsPresent() then Failed else old(fetchStatus)
      ensures fetch.Some? ==> fetch.value == (building.value, floor.value, date)
      ensures floorLabel ==
        if UiTicker.TogglesOn(seconds) && ParamsPresent() then FloorLabel(building.value, floor.value, lang)
        else old(floorLabel)
      ensures scrollSetups == old(scrollSetups) && clockRed == old(clockRed)
      ensures rows == if UiTicker.RefreshesOn(seconds) && !ParamsPresent() then [MessageRow(MessageText(MissingParams, lang))]
        else if UiTicker.TogglesOn(seconds) then Retranslated(old(rows), fetchStatus, lang)
        else old(rows)
    {
      seconds := seconds + 1;
      UpdateClock(localNow);
      if UiTicker.TogglesOn(seconds) {
        ToggleLanguage();
      }
      fetch, sync := None, false;
      if UiTicker.RefreshesOn(seconds) {
        fetch := StartFetch();
        sync := true;
      }
    }
  }
}
