/**
 * The lesson records of the backends: what the upstream timetable service sends
 * for one booking, the clean lesson the backends make of it, and the reply a
 * classroom request gets.
 */
module LessonData {
  import opened Wrappers
  import opened Strings
  import ClockFormat
  import Seqs

  /** The message every backend sends for a classroom without lessons. */
  const NoLessonsMessage: string := "No lessons available"

  /** A time of day, as `.time()` of a parsed timestamp gives it (seconds do not matter here). */
  datatype TimeOfDay = TimeOfDay(hour: ClockFormat.Hour, minute: ClockFormat.Minute)

  /** `t < time(h, 0)` */
  predicate Before(t: TimeOfDay, h: nat) {
    t.hour < h
  }

  // The upstream booking record. A field that is absent is None; every value
  // present is taken to have the type the backends expect.

  datatype Detail = Detail(nome: Option<string>)
  datatype Event = Event(dettagliDidattici: Option<seq<Detail>>)
  datatype Teacher = Teacher(nome: Option<string>, cognome: Option<string>)
  datatype Room = Room(descrizione: Option<string>, id: Option<string>)

  datatype RawLesson = RawLesson(
    dataInizio: Option<string>,
    dataFine: Option<string>,
    evento: Option<Event>,
    docenti: Option<seq<Teacher>>,
    aule: Option<seq<Room>>)

  /** The clean lesson record both `app/` backends return. */
  datatype Lesson = Lesson(startTime: string, endTime: string, lessonName: string, instructor: string, classroomName: string)

  /** A classroom reply: the one-entry message list, or the lessons. */
  datatype Reply = Message(classroomName: string, message: string) | Lessons(lessons: seq<Lesson>)

  /** `(event.get("dettagliDidattici") or [{}])[0]` of `lesson_data.get("evento", {}) or {}` */
  function FirstDetail(raw: RawLesson): Detail {
    if raw.evento.Some? && raw.evento.value.dettagliDidattici.Some? && |raw.evento.value.dettagliDidattici.value| > 0
    then raw.evento.value.dettagliDidattici.value[0]
    else Detail(None)
  }

  /** `instructors[0] if instructors else {}` */
  function FirstTeacher(raw: RawLesson): Teacher {
    if raw.docenti.Some? && |raw.docenti.value| > 0 then raw.docenti.value[0] else Teacher(None, None)
  }

  /** `classrooms[0] if classrooms else {}` */
  function FirstRoom(raw: RawLesson): Room {
    if raw.aule.Some? && |raw.aule.value| > 0 then raw.aule.value[0] else Room(None, None)
  }

  /** `f"{first.strip()} {last.strip()}".strip() or "N/A"` */
  function InstructorName(t: Teacher): (name: string)
    ensures name != "" && IsStripped(name)
  {
    var full := Strip(JoinedName(t));
    if full == [] then
      assert NotAvailable[0] == 'N' && NotAvailable[|NotAvailable| - 1] == 'A';
      NotAvailable
    else full
  }

  /** The placeholder for a missing value. */
  const NotAvailable: string := "N/A"

  /** `f"{first.strip()} {last.strip()}"` */
  function JoinedName(t: Teacher): string {
    Strip(t.nome.GetOr("")) + " " + Strip(t.cognome.GetOr(""))
  }

  /**
   * The instructor is the stripped first and last name joined by one space, either
   * alone when the other is blank, and "N/A" when both are.
   */
  lemma InstructorNameCases(t: Teacher)
    ensures var first := Strip(t.nome.GetOr("")); var last := Strip(t.cognome.GetOr(""));
      InstructorName(t) ==
        if first == [] && last == [] then "N/A"
        else if first == [] then last
        else if last == [] then first
        else first + " " + last
  {
    StripJoined(Strip(t.nome.GetOr("")), Strip(t.cognome.GetOr("")));
  }

  /** `api_name or names.get(id, "Unknown Room")` */
  function RoomName(r: Room, roomNames: map<string, string>): string {
    if r.descrizione.Some? && r.descrizione.value != "" then r.descrizione.value
    else if r.id.Some? && r.id.value in roomNames then roomNames[r.id.value]
    else "Unknown Room"
  }

  /**
   * `_parse_lesson` of app/services.py: None when either timestamp key is missing,
   * otherwise the lesson with its fallbacks.
   */
  function ParseLesson(raw: RawLesson, roomNames: map<string, string>): (r: Option<Lesson>)
    ensures r.None? <==> raw.dataInizio.None? || raw.dataFine.None?
    ensures r.Some? ==> r.value.startTime == raw.dataInizio.value && r.value.endTime == raw.dataFine.value
    ensures r.Some? ==> r.value.lessonName == FirstDetail(raw).nome.GetOr("N/A")
    ensures r.Some? ==> r.value.instructor == InstructorName(FirstTeacher(raw))
    ensures r.Some? ==> r.value.instructor != "" && IsStripped(r.value.instructor)
    ensures r.Some? ==> r.value.classroomName == RoomName(FirstRoom(raw), roomNames)
  {
    if raw.dataInizio.None? || raw.dataFine.None? then None
    else
      var name := FirstDetail(raw).nome.GetOr("N/A");
      var instructor := InstructorName(FirstTeacher(raw));
      var room := RoomName(FirstRoom(raw), roomNames);
      Some(Lesson(raw.dataInizio.value, raw.dataFine.value, name, instructor, room))
  }

  /** `[p for l in raws if (p := _parse_lesson(l))]`: the parseable bookings, in order. */
  function ParseAll(raws: seq<RawLesson>, roomNames: map<string, string>): (r: seq<Lesson>)
    ensures |r| <= |raws|
    ensures forall raw :: raw in raws && ParseLesson(raw, roomNames).Some? ==> ParseLesson(raw, roomNames).value in r
    ensures forall l :: l in r ==> exists raw :: raw in raws && ParseLesson(raw, roomNames) == Some(l)
  {
    Seqs.FilterMap(raws, raw => ParseLesson(raw, roomNames))
  }

  /**
   * The comprehension keeps the bookings' order and their repeats: the bookings
   * parse part by part, and one booking gives its lesson or nothing.
   */
  lemma ParseAllAppend(a: seq<RawLesson>, b: seq<RawLesson>, raw: RawLesson, roomNames: map<string, string>)
    ensures ParseAll(a + b, roomNames) == ParseAll(a, roomNames) + ParseAll(b, roomNames)
    ensures ParseAll([raw], roomNames) == if ParseLesson(raw, roomNames).Some? then [ParseLesson(raw, roomNames).value] else []
  {
    Seqs.FilterMapAppend(a, b, raw => ParseLesson(raw, roomNames));
  }

  /** What the upstream timetable request came back with. */
  datatype ApiResponse = RequestFailed | NotJson | Json(items: seq<RawLesson>)

  /**
   * `_make_api_request` of both `app/` backends: the decoded list, and the empty
   * list for a failed request, a reply that is not JSON or a body that does not decode.
   */
  function ApiLessons(resp: ApiResponse): seq<RawLesson> {
    if resp.Json? then resp.items else []
  }

  /** `date_str or datetime.now().strftime('%Y-%m-%d')` */
  function RequestDate(dateStr: Option<string>, today: string): string {
    if dateStr.Some? && dateStr.value != "" then dateStr.value else today
  }

  /** `f"lessons_{classroom_id}_{date}"` */
  function LessonsKey(classroomId: string, date: string): string {
    "lessons_" + classroomId + "_" + date
  }

  /** The upstream query for one classroom and one whole day. */
  function ImpegniUrl(baseUrl: string, classroomId: string, buildingId: string, date: string): string {
    baseUrl + "/api/Impegni/getImpegniPublic?aula=" + classroomId + "&edificio=" + buildingId
    + "&dataInizio=" + date + "T00:00:00&dataFine=" + date + "T23:59:59"
  }

  /** The lessons a floor collects from its classroom replies: those of every non-empty lesson list. */
  function Gathered(replies: seq<Reply>): seq<Lesson>
    decreases |replies|
  {
    if replies == [] then [] else Contribution(replies[0]) + Gathered(replies[1..])
  }

  /** What one reply adds: its lessons, or nothing for a message. */
  function Contribution(reply: Reply): seq<Lesson> {
    if reply.Lessons? && reply.lessons != [] then reply.lessons else []
  }

  /** A lesson is gathered exactly when some reply lists it. */
  lemma {:induction false} GatheredMembers(replies: seq<Reply>)
    ensures forall l :: l in Gathered(replies) <==>
      exists i :: 0 <= i < |replies| && replies[i].Lessons? && l in replies[i].lessons
    decreases |replies|
  {
    if replies != [] {
      GatheredMembers(replies[1..]);
      var rest := Gathered(replies[1..]);
      assert forall i :: 0 < i < |replies| ==> replies[i] == replies[1..][i - 1];
      forall l | l in rest ensures exists i :: 0 <= i < |replies| && replies[i].Lessons? && l in replies[i].lessons {
        var j :| 0 <= j < |replies[1..]| && replies[1..][j].Lessons? && l in replies[1..][j].lessons;
        assert replies[j + 1] == replies[1..][j];
      }
    }
  }

  lemma {:induction false} GatheredAppend(replies: seq<Reply>, last: Reply)
    ensures Gathered(replies + [last]) == Gathered(replies) + Contribution(last)
    decreases |replies|
  {
    if replies == [] {
      assert ([] + [last])[1..] == [];
    } else {
      GatheredAppend(replies[1..], last);
      var all := replies + [last];
      assert all[0] == replies[0] && all[1..] == replies[1..] + [last];
      var head, rest := Contribution(replies[0]), Gathered(replies[1..]);
      assert head + (rest + Contribution(last)) == (head + rest) + Contribution(last);
    }
  }
}
