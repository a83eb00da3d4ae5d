/**
 * web/static/js/classroom_script.js: the classroom page of the second front-end.
 * It reads its parameters from the query string, posts them to `/lessons` every
 * minute, renders the reply as one row per lesson with a coloured status dot, and
 * switches language every 15 seconds by re-rendering the last reply.
 */
module WebClassroom {
  import opened Wrappers
  import opened Strings
  import opened Language
  import opened ClockFormat
  import opened LessonStatus
  import opened ClientData
  import LessonData

  // ---------------------------------------------------------------------------
  // Query string
  // ---------------------------------------------------------------------------

  /** `pair.split('=')` destructured as `[k, v]`: the text before the first '=', and the part after it if any. */
  function PairOf(pair: string): (r: (string, Option<string>))
    ensures '=' !in r.0
    ensures r.1.Some? ==> '=' !in r.1.value
    ensures '=' !in pair ==> r == (pair, None)
  {
    var parts := Split(pair, '=');
    (parts[0], if |parts| > 1 then Some(parts[1]) else None)
  }

  /**
   * `if (k) params[k] = v || ''` over the pairs in order, as a fold from the left
   * (decoding is not modelled): a later pair overwrites an earlier one with the same key.
   */
  function Collect(pairs: seq<string>): map<string, string>
    decreases |pairs|
  {
    if pairs == [] then map[] else Assign(Collect(pairs[..|pairs| - 1]), pairs[|pairs| - 1])
  }

  /** One pair of the query applied to the parameters gathered so far. */
  function Assign(params: map<string, string>, pair: string): map<string, string> {
    var (k, v) := PairOf(pair);
    if k != "" then params[k := v.GetOr("")] else params
  }

  /** A key is defined exactly when some pair names it. */
  lemma {:induction false} CollectKeys(pairs: seq<string>, k: string)
    ensures k in Collect(pairs) <==> k != "" && exists i :: 0 <= i < |pairs| && PairOf(pairs[i]).0 == k
    decreases |pairs|
  {
    if pairs != [] {
      var init := pairs[..|pairs| - 1];
      CollectKeys(init, k);
      if exists i :: 0 <= i < |init| && PairOf(init[i]).0 == k {
        var i :| 0 <= i < |init| && PairOf(init[i]).0 == k;
        assert pairs[i] == init[i];
      }
      if exists i :: 0 <= i < |pairs| && PairOf(pairs[i]).0 == k {
        var i :| 0 <= i < |pairs| && PairOf(pairs[i]).0 == k;
        if i < |init| { assert init[i] == pairs[i]; }
      }
    }
  }

  /** The last pair naming a key decides its value. */
  lemma {:induction false} CollectLastWins(pairs: seq<string>, i: nat)
    requires i < |pairs| && PairOf(pairs[i]).0 != ""
    requires forall j :: i < j < |pairs| ==> PairOf(pairs[j]).0 != PairOf(pairs[i]).0
    ensures PairOf(pairs[i]).0 in Collect(pairs)
    ensures Collect(pairs)[PairOf(pairs[i]).0] == PairOf(pairs[i]).1.GetOr("")
    decreases |pairs|
  {
    if i < |pairs| - 1 {
      var init := pairs[..|pairs| - 1];
      assert init[i] == pairs[i];
      CollectLastWins(init, i);
    }
  }

  /** `(window.location.search || '').substr(1).split('&')` */
  function QueryPairs(search: string): seq<string> {
    Split(if search == "" then "" else search[1..], '&')
  }

  /** The page's `qp.forEach(...)` over the pairs of the query string. */
  method ParseQuery(search: string) returns (params: map<string, string>)
    ensures params == Collect(QueryPairs(search))
  {
    var pairs := QueryPairs(search);
    params := map[];
    for i := 0 to |pairs|
      invariant params == Collect(pairs[..i])
    {
      assert pairs[..i + 1][..i] == pairs[..i] && pairs[..i + 1][i] == pairs[i];
      ghost var next := Assign(params, pairs[i]);
      var (k, v) := PairOf(pairs[i]);
      if k != "" {
        params := params[k := v.GetOr("")];
      }
      assert params == next;
    }
    assert pairs[..|pairs|] == pairs;
  }

  /** The first of two aliases whose value is truthy (`params.a || params.b`, then used as a condition). */
  function Alias(params: map<string, string>, first: string, second: string): (r: Option<string>)
    ensures r.Some? ==> r.value != ""
    ensures r.None? <==> (first !in params || params[first] == "") && (second !in params || params[second] == "")
    ensures first in params && params[first] != "" ==> r == Some(params[first])
    ensures !(first in params && params[first] != "") && second in params && params[second] != "" ==>
      r == Some(params[second])
  {
    if first in params && params[first] != "" then Some(params[first])
    else if second in params && params[second] != "" then Some(params[second])
    else None
  }

  /** The page's parameters once both identifiers are present. */
  datatype Query = Query(classroom: string, building: string, period: string, date: string)

  /**
   * `classroom || aula`, `building || edificio`, `period || 'all'` and
   * `date || today`: None when the classroom or the building is missing.
   */
  function Resolve(params: map<string, string>, today: string): (r: Option<Query>)
    ensures r.None? <==> Alias(params, "classroom", "aula").None? || Alias(params, "building", "edificio").None?
    ensures r.Some? ==> r.value.classroom != "" && r.value.building != ""
    ensures r.Some? ==> r.value.classroom == Alias(params, "classroom", "aula").value
    ensures r.Some? ==> r.value.building == Alias(params, "building", "edificio").value
    ensures r.Some? ==> r.value.period == (if "period" in params && params["period"] != "" then params["period"] else "all")
    ensures r.Some? ==> r.value.date == (if "date" in params && params["date"] != "" then params["date"] else today)
  {
    var classroom := Alias(params, "classroom", "aula");
    var building := Alias(params, "building", "edificio");
    if classroom.None? || building.None? then None
    else
      var period := if "period" in params && params["period"] != "" then params["period"] else "all";
      var date := if "date" in params && params["date"] != "" then params["date"] else today;
      Some(Query(classroom.value, building.value, period, date))
  }

  const MissingParamsText: string := "Missing \"classroom\" or \"building\" parameter"

  // ---------------------------------------------------------------------------
  // Status
  // ---------------------------------------------------------------------------

  /** `getStatusClass`'s three CSS classes. */
  function StatusClass(s: Status): string {
    match s
    case Soon => "status-soon"
    case Live => "status-live"
    case Ended => "status-ended"
  }

  /** `computeStatus(start, end)` at `now`: the label reads back as the lesson's status. */
  function ComputeStatus(now: int, start: TimeField, end: TimeField, l: Lang): (r: string)
    ensures LabelStatus(r, l) == Some(ClassifyDates(now, EpochOf(start), EpochOf(end)))
  {
    LabelsDistinct(l);
    StatusText(ClassifyDates(now, EpochOf(start), EpochOf(end)), l)
  }

  /** The three labels of a language differ, so a label names one status. */
  lemma LabelsDistinct(l: Lang)
    ensures StatusText(Soon, l) != StatusText(Live, l)
    ensures StatusText(Soon, l) != StatusText(Ended, l)
    ensures StatusText(Live, l) != StatusText(Ended, l)
  {
    assert StatusText(Soon, l)[0] != StatusText(Live, l)[0];
    assert StatusText(Soon, l)[0] != StatusText(Ended, l)[0];
    assert StatusText(Live, l)[0] != StatusText(Ended, l)[0];
  }

  /** `getStatusClass(start, end)` at `now`. */
  function GetStatusClass(now: int, start: TimeField, end: TimeField): (r: string)
    ensures ClassStatus(r) == Some(ClassifyDates(now, EpochOf(start), EpochOf(end)))
  {
    StatusClass(ClassifyDates(now, EpochOf(start), EpochOf(end)))
  }

  /** The status a dot's CSS class stands for. */
  function ClassStatus(c: string): Option<Status> {
    if c == "status-soon" then Some(Soon)
    else if c == "status-live" then Some(Live)
    else if c == "status-ended" then Some(Ended)
    else None
  }

  /** The status a label stands for in a language. */
  function LabelStatus(t: string, l: Lang): Option<Status> {
    if t == StatusText(Soon, l) then Some(Soon)
    else if t == StatusText(Live, l) then Some(Live)
    else if t == StatusText(Ended, l) then Some(Ended)
    else None
  }

  /**
   * The dot and the label never disagree: read back, both name the status the
   * lesson has at `now` (the two functions each read the clock; here at one instant).
   */
  lemma DotMatchesLabel(now: int, start: TimeField, end: TimeField, l: Lang)
    ensures ClassStatus(GetStatusClass(now, start, end)) == LabelStatus(ComputeStatus(now, start, end, l), l)
  {
  }

  // ---------------------------------------------------------------------------
  // Rendering
  // ---------------------------------------------------------------------------

  /** `translations[lang].noClasses` */
  function NoClassesText(l: Lang): string {
    if l == It then "Nessuna lezione disponibile" else "No lessons available"
  }

  /** The parsed JSON reply: an array of entries, or any other JSON value. */
  datatype Payload = Items(items: seq<Entry>) | NotAList

  datatype Row =
    | MessageRow(text: string)
    | LessonRow(time: string, lessonName: string, dotClass: string, statusLabel: string, instructor: string)

  /** One lesson row: `HH:MM – HH:MM`, the name, the dot and its label, the professor. */
  function LessonRowOf(e: Entry, now: int, l: Lang): Row {
    LessonRow(
      PaddedTime(DateOf(e.start)) + " – " + PaddedTime(DateOf(e.end)),
      OrElse(e.lessonName, "N/A"),
      "status-dot " + GetStatusClass(now, e.start, e.end),
      " " + ComputeStatus(now, e.start, e.end, l),
      OrElse(e.instructor, "N/A"))
  }

  function LessonRows(items: seq<Entry>, now: int, l: Lang): (r: seq<Row>)
    ensures |r| == |items|
    ensures forall i :: 0 <= i < |items| ==> r[i] == LessonRowOf(items[i], now, l)
    decreases |items|
  {
    if items == [] then [] else [LessonRowOf(items[0], now, l)] + LessonRows(items[1..], now, l)
  }

  /** The text the page compares the first entry's message with. */
  const ExpectedMessage: string := "No classes available"

  /** `renderLessons` as written: the no-lessons row only for an empty reply or the expected text. */
  predicate ShowsMessageAsWritten(p: Payload) {
    p.NotAList? || |p.items| == 0 || p.items[0].message == Some(ExpectedMessage)
  }

  function RenderAsWritten(p: Payload, now: int, l: Lang): (r: seq<Row>)
    ensures ShowsMessageAsWritten(p) ==> r == [MessageRow(NoClassesText(l))]
    ensures !ShowsMessageAsWritten(p) ==> r == LessonRows(p.items, now, l)
  {
    if ShowsMessageAsWritten(p) then [MessageRow(NoClassesText(l))] else LessonRows(p.items, now, l)
  }

  /** A reply whose first entry carries a message, whatever its text, is a message. */
  predicate ShowsMessage(p: Payload) {
    p.NotAList? || |p.items| == 0 || Truthy(p.items[0].message)
  }

  /** `renderLessons` with the message test the backend's reply needs. */
  function Render(p: Payload, now: int, l: Lang): (r: seq<Row>)
    ensures ShowsMessage(p) <==> r == [MessageRow(NoClassesText(l))]
    ensures !ShowsMessage(p) ==> |r| == |p.items| && forall i :: 0 <= i < |r| ==> r[i].LessonRow?
    ensures !ShowsMessage(p) ==> r == LessonRows(p.items, now, l)
  {
    if ShowsMessage(p) then [MessageRow(NoClassesText(l))]
    else
      var r := LessonRows(p.items, now, l);
      assert r[0].LessonRow?;
      r
  }

  /** Wherever the first entry carries no message the two tests agree. */
  lemma RenderAgreesWithoutMessage(p: Payload, now: int, l: Lang)
    requires p.Items? && |p.items| > 0 && !Truthy(p.items[0].message)
    ensures Render(p, now, l) == RenderAsWritten(p, now, l)
  {
  }

  /**
   * The backend's reply for a classroom without lessons: as written the page draws
   * it as a lesson without times, name or professor that is ongoing; with the
   * message test it draws the no-lessons row.
   */
  lemma NoLessonsReplyRenderedAsLesson(name: string, now: int, l: Lang)
    ensures var p := Items([MessageEntry(name, LessonData.NoLessonsMessage)]);
      RenderAsWritten(p, now, l) ==
        [LessonRow("NaN:NaN – NaN:NaN", "N/A", "status-dot status-live", " " + StatusText(Live, l), "N/A")]
      && Render(p, now, l) == [MessageRow(NoClassesText(l))]
  {
    var e := MessageEntry(name, LessonData.NoLessonsMessage);
    assert LessonData.NoLessonsMessage != ExpectedMessage by {
      assert LessonData.NoLessonsMessage[3] != ExpectedMessage[3];
    }
    assert Truthy(e.message);
    MessageEntryRow(name, LessonData.NoLessonsMessage, now, l);
    assert LessonRows([e], now, l) == [LessonRowOf(e, now, l)];
  }

  /** A message entry has no times, name or instructor: its row is all placeholders, shown as ongoing. */
  lemma MessageEntryRow(name: string, message: string, now: int, l: Lang)
    ensures LessonRowOf(MessageEntry(name, message), now, l) ==
      LessonRow("NaN:NaN – NaN:NaN", "N/A", "status-dot status-live", " " + StatusText(Live, l), "N/A")
  {
    var e := MessageEntry(name, message);
    assert EpochOf(e.start) == None && EpochOf(e.end) == None;
    assert PaddedTime(DateOf(e.start)) == "NaN:NaN" && PaddedTime(DateOf(e.end)) == "NaN:NaN";
    assert ClassifyDates(now, None, None) == Live;
  }

  /** `data[0] && data[0].classroom_name ? ... : ('Aula ' | 'Classroom ') + id` */
  function RoomName(p: Payload, classroomId: string, l: Lang): (r: string)
    ensures p.Items? && |p.items| > 0 && Truthy(p.items[0].classroomName) ==> r == p.items[0].classroomName.value
    ensures !(p.Items? && |p.items| > 0 && Truthy(p.items[0].classroomName)) ==>
      r == (if l == It then "Aula " else "Classroom ") + classroomId
  {
    if p.Items? && |p.items| > 0 && Truthy(p.items[0].classroomName) then p.items[0].classroomName.value
    else (if l == It then "Aula " else "Classroom ") + classroomId
  }

  // ---------------------------------------------------------------------------
  // The page
  // ---------------------------------------------------------------------------

  class ClassroomPage {
    /** None when a parameter was missing: the script stopped after drawing that message. */
    const query: Option<Query>
    var lang: Lang
    var lastData: Payload
    var rows: seq<Row>
    var roomName: string

    constructor (search: string, today: string)
      ensures query == Resolve(Collect(QueryPairs(search)), today)
      ensures query.None? ==> rows == [MessageRow(MissingParamsText)]
      ensures query.Some? ==> rows == []
      ensures lang == It && lastData == Items([]) && roomName == ""
    {
      var params := ParseQuery(search);
      query := Resolve(params, today);
      lang := It;
      lastData := Items([]);
      roomName := "";
      rows := if Resolve(params, today).None? then [MessageRow(MissingParamsText)] else [];
    }

    /**
     * The XHR's completion: a 200 whose body parses stores it, names the room and
     * renders it, and asks for the scroller to be set up; any other status shows
     * the error row (a body that does not parse stops the handler before any change).
     */
    method FetchDone(status: nat, body: Option<Payload>, now: int) returns (setupScroll: bool)
      requires query.Some?
      modifies this
      ensures lang == old(lang)
      ensures setupScroll <==> status == 200 && body.Some?
      ensures status == 200 && body.Some? ==>
        lastData == body.value && roomName == RoomName(body.value, query.value.classroom, lang)
        && rows == Render(body.value, now, lang)
      ensures status == 200 && body.None? ==>
        lastData == old(lastData) && roomName == old(roomName) && rows == old(rows)
      ensures status != 200 ==>
        rows == [MessageRow("Error: " + NatToString(status))] && lastData == old(lastData) && roomName == old(roomName)
    {
      setupScroll := false;
      if status == 200 {
        if body.None? {
          return;
        }
        lastData := body.value;
        roomName := RoomName(body.value, query.value.classroom, lang);
        rows := Render(body.value, now, lang);
        setupScroll := true;
      } else {
        rows := [MessageRow("Error: " + NatToString(status))];
      }
    }

    /** `toggleLanguage`: the other language, and the last reply drawn again (an error row is replaced). */
    method ToggleLanguage(now: int)
      requires query.Some?
      modifies this
      ensures lang == Flip(old(lang))
      ensures rows == Render(lastData, now, lang)
      ensures lastData == old(lastData) && roomName == old(roomName)
    {
      lang := Flip(lang);
      rows := Render(lastData, now, lang);
    }
  }
}
