/**
 * The lesson list as the browser scripts receive it from the backend: a JSON
 * array whose elements are lesson objects or a `{classroom_name, message}` object.
 */
module ClientData {
  import opened Wrappers
  import opened ClockFormat

  /**
   * A `start_time`/`end_time` field: absent, or a string together with what
   * `new Date(...)` makes of it (None: an Invalid Date). Date parsing belongs to
   * the browser and is taken as given.
   */
  datatype TimeField = Absent | Text(raw: string, parsed: Option<Instant>)

  /** `new Date(field)`: an absent field is an Invalid Date too. */
  function DateOf(f: TimeField): (r: Option<Instant>)
    ensures r.Some? ==> f.Text?
  {
    if f.Text? then f.parsed else None
  }

  /** JavaScript truthiness of the field itself (`lesson.start_time`). */
  predicate TimeTruthy(f: TimeField) {
    f.Text? && f.raw != ""
  }

  /** One element of the received array; a field that is absent is None. */
  datatype Entry = Entry(
    start: TimeField,
    end: TimeField,
    lessonName: Option<string>,
    instructor: Option<string>,
    classroomName: Option<string>,
    message: Option<string>)

  /** The entry the backend sends instead of lessons when a classroom has none. */
  function MessageEntry(classroomName: string, message: string): (e: Entry)
    ensures e.message == Some(message) && e.start.Absent? && e.end.Absent?
  {
    Entry(Absent, Absent, None, None, Some(classroomName), Some(message))
  }

  /** JavaScript truthiness of an optional string: present and not empty. */
  predicate Truthy(o: Option<string>) {
    o.Some? && o.value != ""
  }

  /** `x || fallback` */
  function OrElse(o: Option<string>, fallback: string): (r: string)
    ensures Truthy(o) ==> r == o.value
    ensures !Truthy(o) ==> r == fallback
  {
    if Truthy(o) then o.value else fallback
  }

  /** A field spliced into an HTML string with `+`: an absent one reads "undefined". */
  function Spliced(o: Option<string>): (r: string)
    ensures o.Some? ==> r == o.value
    ensures o.None? ==> r == "undefined"
  {
    o.GetOr("undefined")
  }

  /** A field assigned to `textContent`: an absent one clears the text. */
  function AsText(o: Option<string>): (r: string)
    ensures o.Some? ==> r == o.value
    ensures o.None? ==> r == ""
  {
    o.GetOr("")
  }

  /** The epoch milliseconds of a field, None for an Invalid Date. */
  function EpochOf(f: TimeField): (r: Option<int>)
    ensures r.Some? <==> DateOf(f).Some?
    ensures r.Some? ==> r.value == DateOf(f).value.epochMs
  {
    var d := DateOf(f);
    if d.Some? then Some(d.value.epochMs) else None
  }

  /** The `ui/` views' `fetchStatus`: 'loading', 'success' or 'error'. */
  datatype FetchStatus = Loading | Loaded | Failed

  /** The keys of the `ui/` views' table messages. */
  datatype MessageKey = NoLessons | MissingParams | LoadingError

  /** `fetchStatus === 'error' ? 'loadingError' : 'noLessons'` */
  function MessageFor(fs: FetchStatus): (k: MessageKey)
    ensures k == LoadingError <==> fs == Failed
    ensures k != MissingParams
  {
    if fs == Failed then LoadingError else NoLessons
  }
}
