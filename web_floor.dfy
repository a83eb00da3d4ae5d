/**
 * web/static/js/floor_script.js: the floor page of the second front-end. It
 * fetches the floor's lessons once, renders them without any per-language text
 * (the no-lessons row carries both languages), and switches the header label's
 * language every 15 seconds.
 */
module WebFloor {
  import opened Wrappers
  import opened Strings
  import opened Language
  import opened ClockFormat
  import opened ClientData
  import LessonData
  import WebClassroom

  const MissingParamsText: string := "Missing \"building\" or \"floor\" parameter"

  /** `buildingNames[building][lang] || building`: the raw parameter is looked up as it is. */
  function BuildingLabel(building: string, l: Lang): (r: string)
    ensures building in {"EdificioA", "EdificioB", "EdificioSBA"} ==>
      r == (if l == It then "Edificio " else "Building ") + building[8..]
    ensures building !in {"EdificioA", "EdificioB", "EdificioSBA"} ==> r == building
  {
    match (building, l)
    case ("EdificioA", It) => "Edificio A"
    case ("EdificioA", En) => "Building A"
    case ("EdificioB", It) => "Edificio B"
    case ("EdificioB", En) => "Building B"
    case ("EdificioSBA", It) => "Edificio SBA"
    case ("EdificioSBA", En) => "Building SBA"
    case _ => building
  }

  /** `updateLabel`: the building, a line break and a dash, then the floor. */
  function Label(building: string, floor: string, l: Lang): (r: string)
    ensures var b := BuildingLabel(building, l); |r| > |b| && r[..|b|] == b
  {
    BuildingLabel(building, l) + "\n— " + (if l == It then "Piano " else "Floor ") + floor
  }

  /** The label names the floor as its last characters, in both languages. */
  lemma LabelEndsWithFloor(building: string, floor: string, l: Lang)
    ensures var r := Label(building, floor, l); |r| >= |floor| && r[|r| - |floor|..] == floor
  {
    var r := Label(building, floor, l);
    var prefix := BuildingLabel(building, l) + "\n— " + (if l == It then "Piano " else "Floor ");
    assert r == prefix + floor;
    assert r[|prefix|..] == floor;
  }

  /** Every toggle changes the label: the two languages never give the same text. */
  lemma ToggleChangesLabel(building: string, floor: string)
    ensures Label(building, floor, It) != Label(building, floor, En)
  {
    var it := Label(building, floor, It);
    var en := Label(building, floor, En);
    if building in {"EdificioA", "EdificioB", "EdificioSBA"} {
      assert it[0] != en[0];
    } else {
      assert it == building + "\n— " + "Piano " + floor;
      assert en == building + "\n— " + "Floor " + floor;
      assert it[|building| + 3] != en[|building| + 3];
    }
  }

  datatype Row =
    | NoLessonsRow(it: string, en: string)
    | MessageRow(text: string)
    | LessonRow(classroom: string, time: string, lessonName: string, instructor: string)

  /** The row for an empty floor, in both languages at once. */
  const NoLessons: Row := NoLessonsRow("Nessuna lezione disponibile", "No lessons available")

  /** `!Array.isArray(data) || data.length === 0 || (data[0] && data[0].message)` */
  predicate ShowsNoLessons(p: WebClassroom.Payload) {
    p.NotAList? || |p.items| == 0 || Truthy(p.items[0].message)
  }

  /** One row: classroom, `HH:MM – HH:MM`, lesson and professor, each 'N/A' when missing or empty. */
  function LessonRowOf(e: Entry): Row {
    LessonRow(
      OrElse(e.classroomName, "N/A"),
      PaddedTime(DateOf(e.start)) + " – " + PaddedTime(DateOf(e.end)),
      OrElse(e.lessonName, "N/A"),
      OrElse(e.instructor, "N/A"))
  }

  function LessonRows(items: seq<Entry>): (r: seq<Row>)
    ensures |r| == |items|
    ensures forall i :: 0 <= i < |items| ==> r[i] == LessonRowOf(items[i])
    decreases |items|
  {
    if items == [] then [] else [LessonRowOf(items[0])] + LessonRows(items[1..])
  }

  /** `render(data)`; it does not read the current language. */
  function Render(p: WebClassroom.Payload): (r: seq<Row>)
    ensures ShowsNoLessons(p) <==> r == [NoLessons]
    ensures !ShowsNoLessons(p) ==> |r| == |p.items| && forall i :: 0 <= i < |r| ==> r[i] == LessonRowOf(p.items[i])
  {
    if ShowsNoLessons(p) then [NoLessons] else LessonRows(p.items)
  }

  /** No cell of a lesson row is ever blank. */
  lemma NoBlankCells(p: WebClassroom.Payload, i: nat)
    requires !ShowsNoLessons(p) && i < |p.items|
    ensures var row := Render(p)[i];
      row.LessonRow? && row.classroom != "" && row.time != "" && row.lessonName != "" && row.instructor != ""
  {
  }

  /** The backend's message for a classroom without lessons shows the no-lessons row here. */
  lemma MessageReplyShowsNoLessons(name: string)
    ensures Render(WebClassroom.Items([MessageEntry(name, LessonData.NoLessonsMessage)])) == [NoLessons]
  {
    assert LessonData.NoLessonsMessage != "";
  }

  /** How the fetch ended: a parsed body, an HTTP status that is not ok, or a thrown error's text. */
  datatype Outcome = Body(payload: WebClassroom.Payload) | HttpError(status: nat) | Thrown(text: string)

  /** `` `Error: ${err}` `` */
  function ErrorText(o: Outcome): string
    requires !o.Body?
  {
    "Error: " + if o.HttpError? then NatToString(o.status) else o.text
  }

  class FloorPage {
    /** None when `building` or `floor` was missing or empty: the script stopped after its message. */
    const params: Option<(string, string)>
    const date: string
    var lang: Lang
    var lastData: WebClassroom.Payload
    var rows: seq<Row>
    var floorLabel: string

    constructor (building: Option<string>, floor: Option<string>, dateParam: Option<string>, today: string)
      ensures params.None? <==> !Truthy(building) || !Truthy(floor)
      ensures params.Some? ==> params.value == (building.value, floor.value)
      ensures date == OrElse(dateParam, today)
      ensures params.None? ==> rows == [MessageRow(MissingParamsText)]
      ensures params.Some? ==> rows == []
      ensures lang == It && lastData == WebClassroom.Items([]) && floorLabel == ""
    {
      params := if Truthy(building) && Truthy(floor) then Some((building.value, floor.value)) else None;
      date := OrElse(dateParam, today);
      lang := It;
      lastData := WebClassroom.Items([]);
      floorLabel := "";
      rows := if Truthy(building) && Truthy(floor) then [] else [MessageRow(MissingParamsText)];
    }

    /** The one request the page makes, relative to its origin (the parts are taken as already encoded). */
    function RequestPath(): string
      requires params.Some?
      reads this
    {
      "/floor/" + params.value.0 + "/" + params.value.1 + "?date=" + date
    }

    /** `fetchAndRender`'s completion: a body is stored, labelled and rendered; an error shows its row. */
    method FetchDone(o: Outcome) returns (setupScroll: bool)
      requires params.Some?
      modifies this
      ensures lang == old(lang)
      ensures setupScroll <==> o.Body?
      ensures o.Body? ==>
        lastData == o.payload && rows == Render(o.payload) && floorLabel == Label(params.value.0, params.value.1, lang)
      ensures !o.Body? ==> rows == [MessageRow(ErrorText(o))] && lastData == old(lastData) && floorLabel == old(floorLabel)
    {
      if o.Body? {
        lastData := o.payload;
        floorLabel := Label(params.value.0, params.value.1, lang);
        rows := Render(o.payload);
        return true;
      }
      rows := [MessageRow(ErrorText(o))];
      return false;
    }

    /**
     * `toggleLang`: the other language for the label, and the last data drawn again;
     * after a failed first fetch that replaces the error row by the no-lessons row.
     */
    method ToggleLang()
      requires params.Some?
      modifies this
      ensures lang == Flip(old(lang))
      ensures floorLabel == Label(params.value.0, params.value.1, lang)
      ensures rows == Render(lastData) && lastData == old(lastData)
    {
      lang := Flip(lang);
      floorLabel := Label(params.value.0, params.value.1, lang);
      rows := Render(lastData);
    }
  }
}
