/**
 * src/services.py: the first backend's `LessonLooper`, which keeps one
 * classroom's bookings of the day split into morning and afternoon, and shows one
 * half or the other, switching at most every 15 seconds.
 *
 * The clock, the upstream reply and the timestamp parser are parameters.
 */
module SrcServices {
  import opened Wrappers
  import opened Seqs
  import opened LessonData
  import opened TtlStore
  import SrcModels

  /** Morning ends at `time(12, 0)`. */
  const NoonHour: nat := 12

  /** The display switches once 15 seconds have elapsed, in microseconds. */
  const ToggleMicros: int := 15_000_000

  datatype Half = Morning | Afternoon

  function Other(h: Half): (r: Half)
    ensures r != h
  {
    if h == Morning then Afternoon else Morning
  }

  /**
   * `datetime.strptime(lesson.get("dataInizio", "N/A"), "%Y-%m-%dT%H:%M:%S.%fZ").time()`,
   * None where strptime raises; "N/A" never matches the format.
   */
  function StartOf(raw: RawLesson, parse: string -> Option<TimeOfDay>): Option<TimeOfDay> {
    if raw.dataInizio.None? then None else parse(raw.dataInizio.value)
  }

  predicate IsMorning(raw: RawLesson, parse: string -> Option<TimeOfDay>) {
    StartOf(raw, parse).Some? && Before(StartOf(raw, parse).value, NoonHour)
  }

  predicate IsAfternoon(raw: RawLesson, parse: string -> Option<TimeOfDay>) {
    StartOf(raw, parse).Some? && !Before(StartOf(raw, parse).value, NoonHour)
  }

  function MorningTest(parse: string -> Option<TimeOfDay>): RawLesson -> bool {
    raw => IsMorning(raw, parse)
  }

  function AfternoonTest(parse: string -> Option<TimeOfDay>): RawLesson -> bool {
    raw => IsAfternoon(raw, parse)
  }

  /** The halves a pass over `s` builds, booking by booking; a booking whose start does not parse goes nowhere. */
  function SplitPrefix(s: seq<RawLesson>, parse: string -> Option<TimeOfDay>): SrcModels.Halves
    decreases |s|
  {
    if s == [] then ([], [])
    else
      var halves := SplitPrefix(s[..|s| - 1], parse);
      var x := s[|s| - 1];
      if IsMorning(x, parse) then (halves.0 + [x], halves.1)
      else if IsAfternoon(x, parse) then (halves.0, halves.1 + [x])
      else halves
  }

  /** The pass keeps the morning and the afternoon bookings, each in input order. */
  lemma {:induction false} SplitPrefixFilters(s: seq<RawLesson>, parse: string -> Option<TimeOfDay>)
    ensures SplitPrefix(s, parse) == (Filter(s, MorningTest(parse)), Filter(s, AfternoonTest(parse)))
    decreases |s|
  {
    if s != [] {
      var init := s[..|s| - 1];
      SplitPrefixFilters(init, parse);
      assert s == init + [s[|s| - 1]];
      FilterAppend(init, s[|s| - 1], MorningTest(parse));
      FilterAppend(init, s[|s| - 1], AfternoonTest(parse));
      var x := s[|s| - 1];
      assert MorningTest(parse)(x) == IsMorning(x, parse);
      assert AfternoonTest(parse)(x) == IsAfternoon(x, parse);
    }
  }

  /**
   * What `split_classes` computes: None when some start does not parse (the
   * ValueError it does not catch), otherwise the morning and the afternoon bookings,
   * each in input order, together exactly the input.
   */
  function Split(items: seq<RawLesson>, parse: string -> Option<TimeOfDay>): (r: Option<SrcModels.Halves>)
    ensures r.None? <==> exists raw :: raw in items && StartOf(raw, parse).None?
    ensures r.Some? ==> multiset(r.value.0) + multiset(r.value.1) == multiset(items)
    ensures r.Some? ==> forall raw :: raw in r.value.0 <==> raw in items && Before(StartOf(raw, parse).value, NoonHour)
    ensures r.Some? ==> forall raw :: raw in r.value.1 <==> raw in items && !Before(StartOf(raw, parse).value, NoonHour)
  {
    if exists raw :: raw in items && StartOf(raw, parse).None? then None
    else
      SplitPrefixFilters(items, parse);
      FilterSplit(items, MorningTest(parse), AfternoonTest(parse), raw => true);
      FilterKeepsAll(items, raw => true);
      FilterMembers(items, MorningTest(parse));
      FilterMembers(items, AfternoonTest(parse));
      Some(SplitPrefix(items, parse))
  }

  /**
   * The classroom name the fetch takes from the first booking when that booking
   * has an `aule` key: None when the list under it is empty (the IndexError that
   * aborts the fetch), otherwise its first room's description or "N/A".
   */
  function NameFrom(items: seq<RawLesson>, current: string): (r: Option<string>)
    ensures r.None? <==> items != [] && items[0].aule == Some([])
    ensures items == [] || items[0].aule.None? ==> r == Some(current)
    ensures r.Some? && items != [] && items[0].aule.Some? ==>
      r.value == items[0].aule.value[0].descrizione.GetOr("N/A")
  {
    if items != [] && items[0].aule.Some? then
      if items[0].aule.value == [] then None
      else Some(items[0].aule.value[0].descrizione.GetOr("N/A"))
    else Some(current)
  }

  class LessonLooper {
    const aula: string
    const edificio: string
    var currentDisplay: Half
    var morningClasses: seq<RawLesson>
    var afternoonClasses: seq<RawLesson>
    var toggleTime: int
    var classroomName: string

    constructor (aula: string, edificio: string, now: int)
      ensures this.aula == aula && this.edificio == edificio
      ensures currentDisplay == Morning && morningClasses == [] && afternoonClasses == []
      ensures toggleTime == now && classroomName == "N/A"
    {
      this.aula := aula;
      this.edificio := edificio;
      currentDisplay := Morning;
      morningClasses := [];
      afternoonClasses := [];
      toggleTime := now;
      classroomName := "N/A";
    }

    /** `split_classes`: one pass over the bookings, stopping at the first start that does not parse. */
    method SplitClasses(items: seq<RawLesson>, parse: string -> Option<TimeOfDay>) returns (r: Option<SrcModels.Halves>)
      ensures r == Split(items, parse)
    {
      var morning: seq<RawLesson> := [];
      var afternoon: seq<RawLesson> := [];
      for i := 0 to |items|
        invariant forall j :: 0 <= j < i ==> StartOf(items[j], parse).Some?
        invariant (morning, afternoon) == SplitPrefix(items[..i], parse)
      {
        var start := StartOf(items[i], parse);
        if start.None? {
          assert items[i] in items;
          return None;
        }
        assert items[..i + 1][..i] == items[..i];
        if Before(start.value, NoonHour) {
          morning := morning + [items[i]];
        } else {
          afternoon := afternoon + [items[i]];
        }
      }
      assert items[..|items|] == items;
      forall raw | raw in items ensures StartOf(raw, parse).Some? {
        var j :| 0 <= j < |items| && items[j] == raw;
      }
      r := Some((morning, afternoon));
    }

    /**
     * `fetch_and_split`: a cache hit (a cached pair is always truthy) sets both lists;
     * on a miss an upstream error changes nothing; otherwise the classroom name is
     * taken from the first booking, then the bookings are split and cached. An
     * exception on the way ends the call with what was already assigned kept.
     */
    method FetchAndSplit(cache: TtlCache<SrcModels.Halves>, resp: ApiResponse, now: int,
                         parse: string -> Option<TimeOfDay>)
      modifies this, cache
      ensures currentDisplay == old(currentDisplay) && toggleTime == old(toggleTime)
      ensures var key := SrcModels.CacheKey(aula, edificio);
        var hit := Lookup(old(cache.entries), key, now);
        var seen := AfterLookup(old(cache.entries), key, now);
        if hit.Some? then
          (morningClasses, afternoonClasses) == hit.value && classroomName == old(classroomName)
          && cache.entries == seen
        else if !resp.Json? || NameFrom(resp.items, old(classroomName)).None? then
          morningClasses == old(morningClasses) && afternoonClasses == old(afternoonClasses)
          && classroomName == old(classroomName) && cache.entries == seen
        else
          classroomName == NameFrom(resp.items, old(classroomName)).value
          && match Split(resp.items, parse)
             case None =>
               morningClasses == old(morningClasses) && afternoonClasses == old(afternoonClasses)
               && cache.entries == seen
             case Some(halves) =>
               (morningClasses, afternoonClasses) == halves
               && cache.entries == Stored(seen, key, halves, now, SrcModels.DefaultTtlMinutes)
    {
      var cached := SrcModels.GetFromCache(cache, aula, edificio, now);
      if cached.Some? {
        morningClasses, afternoonClasses := cached.value.0, cached.value.1;
        return;
      }
      if !resp.Json? {
        return;
      }
      var items := resp.items;
      var name := NameFrom(items, classroomName);
      if name.None? {
        return;
      }
      classroomName := name.value;
      var split := SplitClasses(items, parse);
      if split.None? {
        return;
      }
      morningClasses, afternoonClasses := split.value.0, split.value.1;
      SrcModels.SetInCache(cache, aula, edificio, split.value, now, SrcModels.DefaultTtlMinutes);
    }

    /** `toggle`: switch halves and restart the interval once 15 seconds have elapsed. */
    method Toggle(now: int)
      modifies this
      ensures now - old(toggleTime) >= ToggleMicros ==> currentDisplay == Other(old(currentDisplay)) && toggleTime == now
      ensures now - old(toggleTime) < ToggleMicros ==> currentDisplay == old(currentDisplay) && toggleTime == old(toggleTime)
      ensures morningClasses == old(morningClasses) && afternoonClasses == old(afternoonClasses)
      ensures classroomName == old(classroomName)
    {
      if now - toggleTime >= ToggleMicros {
        toggleTime := now;
        currentDisplay := Other(currentDisplay);
      }
    }

    /** `get_current_classes`: toggle if due, then the list of the half now shown. */
    method GetCurrentClasses(now: int) returns (r: seq<RawLesson>)
      modifies this
      ensures now - old(toggleTime) >= ToggleMicros ==> currentDisplay == Other(old(currentDisplay)) && toggleTime == now
      ensures now - old(toggleTime) < ToggleMicros ==> currentDisplay == old(currentDisplay) && toggleTime == old(toggleTime)
      ensures morningClasses == old(morningClasses) && afternoonClasses == old(afternoonClasses)
      ensures classroomName == old(classroomName)
      ensures r == if currentDisplay == Morning then morningClasses else afternoonClasses
    {
      Toggle(now);
      r := if currentDisplay == Morning then morningClasses else afternoonClasses;
    }
  }
}
