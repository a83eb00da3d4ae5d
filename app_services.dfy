/**
 * app/services.py: the lessons of one classroom for one day (read through the
 * lesson cache, fetched upstream on a miss, filtered by period and sorted by
 * start), and the lessons of a whole floor gathered from its classrooms.
 *
 * The clock, the configuration and the upstream service are parameters: `Env`.
 */
module AppServices {
  import opened Wrappers
  import opened Seqs
  import opened LessonData
  import opened LessonOrder
  import opened TtlStore
  import AppModels

  /** The hour from which a lesson counts as afternoon: `time(13, 0)`. */
  const AfternoonHour: nat := 13

  datatype Env = Env(
    now: int,                                   // datetime.now(), in microseconds
    today: string,                              // datetime.now().strftime('%Y-%m-%d')
    baseUrl: Option<string>,                    // config LESSON_API_BASE_URL
    roomNames: map<string, string>,             // CLASSROOM_ID_TO_NAME
    upstream: string -> ApiResponse,            // the timetable service, by URL
    parseStart: string -> Option<TimeOfDay>)    // fromisoformat(... 'Z' as '+00:00').time()

  /** `filter_by_period`: an unparseable start drops the lesson; a period other than the two halves keeps it. */
  predicate InPeriod(l: Lesson, period: string, parseStart: string -> Option<TimeOfDay>) {
    match parseStart(l.startTime)
    case None => false
    case Some(t) =>
      if period == "morning" then Before(t, AfternoonHour)
      else if period == "afternoon" then !Before(t, AfternoonHour)
      else true
  }

  function PeriodFilter(s: seq<Lesson>, period: string, parseStart: string -> Option<TimeOfDay>): seq<Lesson> {
    Filter(s, l => InPeriod(l, period, parseStart))
  }

  /** `CLASSROOM_ID_TO_NAME.get(classroom_id, f"Room ID {classroom_id}")` */
  function FriendlyName(classroomId: string, roomNames: map<string, string>): string {
    if classroomId in roomNames then roomNames[classroomId] else "Room ID " + classroomId
  }

  /**
   * The reply made from the day's lessons: the message entry when there are none,
   * otherwise those in the period sorted by start time.
   */
  function ClassroomReply(all: seq<Lesson>, classroomId: string, period: string, env: Env): (r: Reply)
    ensures r.Message? <==> all == []
    ensures r.Message? ==> r == Message(FriendlyName(classroomId, env.roomNames), NoLessonsMessage)
    ensures r.Lessons? ==> Sorted(ByStart, r.lessons)
    ensures r.Lessons? ==> forall l :: l in r.lessons <==> l in all && InPeriod(l, period, env.parseStart)
    ensures r.Lessons? ==> multiset(r.lessons) <= multiset(all)
    ensures r.Lessons? ==>
      forall l :: multiset(r.lessons)[l] == if InPeriod(l, period, env.parseStart) then multiset(all)[l] else 0
  {
    if all == [] then Message(FriendlyName(classroomId, env.roomNames), NoLessonsMessage)
    else
      var kept := PeriodFilter(all, period, env.parseStart);
      FilterSubMultiset(all, l => InPeriod(l, period, env.parseStart));
      FilterMembers(all, l => InPeriod(l, period, env.parseStart));
      FilterCount(all, l => InPeriod(l, period, env.parseStart));
      var sorted := SortBy(ByStart, kept);
      assert forall l :: l in sorted <==> l in kept by {
        forall l ensures l in sorted <==> l in kept {
          assert l in sorted <==> l in multiset(sorted);
          assert l in kept <==> l in multiset(kept);
        }
      }
      Lessons(sorted)
  }

  /** Morning and afternoon split the lessons whose start parses, with none in both. */
  lemma MorningAfternoonPartition(s: seq<Lesson>, parseStart: string -> Option<TimeOfDay>)
    ensures multiset(PeriodFilter(s, "morning", parseStart)) + multiset(PeriodFilter(s, "afternoon", parseStart))
         == multiset(PeriodFilter(s, "all", parseStart))
  {
    FilterSplit(s, l => InPeriod(l, "morning", parseStart), l => InPeriod(l, "afternoon", parseStart),
                l => InPeriod(l, "all", parseStart));
  }

  /** Any period other than "morning" and "afternoon" filters like "all". */
  lemma OtherPeriodsKeepAll(s: seq<Lesson>, period: string, parseStart: string -> Option<TimeOfDay>)
    requires period != "morning" && period != "afternoon"
    ensures PeriodFilter(s, period, parseStart) == PeriodFilter(s, "all", parseStart)
  {
    FilterSame(s, l => InPeriod(l, period, parseStart), l => InPeriod(l, "all", parseStart));
  }

  /** With every start parseable, "all" keeps the day's lessons as they are. */
  lemma AllKeepsEveryParseableLesson(s: seq<Lesson>, parseStart: string -> Option<TimeOfDay>)
    requires forall l :: l in s ==> parseStart(l.startTime).Some?
    ensures PeriodFilter(s, "all", parseStart) == s
  {
    FilterKeepsAll(s, l => InPeriod(l, "all", parseStart));
  }

  /** The day's lessons as fetched upstream: every booking that parses. */
  function Fetched(env: Env, classroomId: string, buildingId: string, date: string): seq<Lesson>
    requires env.baseUrl.Some?
  {
    ParseAll(ApiLessons(env.upstream(ImpegniUrl(env.baseUrl.value, classroomId, buildingId, date))), env.roomNames)
  }

  predicate HasBaseUrl(env: Env) {
    env.baseUrl.Some? && env.baseUrl.value != ""
  }

  /**
   * What `fetch_classroom_lessons` answers, and the cache it leaves, given the
   * cache it starts from: a hit answers from the cache (the read has already
   * dropped an expired entry); a miss without a configured base URL answers the
   * empty list and writes nothing; any other miss fetches, stores what it fetched
   * (the empty list too) for the default lifetime and answers from it.
   */
  function ClassroomFetch(entries: map<string, Entry<seq<Lesson>>>, env: Env, classroomId: string, buildingId: string,
                          dateStr: Option<string>, period: string): (Reply, map<string, Entry<seq<Lesson>>>)
  {
    var key := LessonsKey(classroomId, RequestDate(dateStr, env.today));
    var hit := Lookup(entries, key, env.now);
    var seen := AfterLookup(entries, key, env.now);
    if hit.Some? then (ClassroomReply(hit.value, classroomId, period, env), seen)
    else if !HasBaseUrl(env) then (Lessons([]), seen)
    else
      var fetched := Fetched(env, classroomId, buildingId, RequestDate(dateStr, env.today));
      (ClassroomReply(fetched, classroomId, period, env), Stored(seen, key, fetched, env.now, AppModels.DefaultTtlMinutes))
  }

  /** What one classroom fetch does to the cache: only its own key changes, a
      live entry is kept as it is, and the reply is drawn from the entry left
      under that key. */
  lemma ClassroomFetchEffect(entries: map<string, Entry<seq<Lesson>>>, env: Env, classroomId: string, buildingId: string,
                             dateStr: Option<string>, period: string)
    ensures var r := ClassroomFetch(entries, env, classroomId, buildingId, dateStr, period);
      var key := LessonsKey(classroomId, RequestDate(dateStr, env.today));
      forall k :: k != key ==> (k in r.1 <==> k in entries) && (k in r.1 ==> r.1[k] == entries[k])
    ensures var r := ClassroomFetch(entries, env, classroomId, buildingId, dateStr, period);
      var key := LessonsKey(classroomId, RequestDate(dateStr, env.today));
      key in r.1 <==> Lookup(entries, key, env.now).Some? || HasBaseUrl(env)
    ensures var r := ClassroomFetch(entries, env, classroomId, buildingId, dateStr, period);
      var key := LessonsKey(classroomId, RequestDate(dateStr, env.today));
      key in r.1 ==> r.1[key].expiry > env.now && r.0 == ClassroomReply(r.1[key].data, classroomId, period, env)
    ensures var r := ClassroomFetch(entries, env, classroomId, buildingId, dateStr, period);
      var key := LessonsKey(classroomId, RequestDate(dateStr, env.today));
      Lookup(entries, key, env.now).Some? ==> r.1[key] == entries[key]
    ensures var r := ClassroomFetch(entries, env, classroomId, buildingId, dateStr, period);
      var key := LessonsKey(classroomId, RequestDate(dateStr, env.today));
      key !in r.1 ==> r.0 == Lessons([])
  {
  }

  /** A second fetch at the same moment answers as the first did and leaves the cache as it was. */
  lemma RefetchIsCached(entries: map<string, Entry<seq<Lesson>>>, env: Env, classroomId: string, buildingId: string,
                        dateStr: Option<string>, period: string)
    ensures var first := ClassroomFetch(entries, env, classroomId, buildingId, dateStr, period);
      ClassroomFetch(first.1, env, classroomId, buildingId, dateStr, period) == first
  {
  }

  /** `fetch_classroom_lessons`, on the cache object. */
  method FetchClassroomLessons(cache: TtlCache<seq<Lesson>>, env: Env, classroomId: string, buildingId: string,
                               dateStr: Option<string>, period: string) returns (r: Reply)
    modifies cache
    ensures (r, cache.entries) == ClassroomFetch(old(cache.entries), env, classroomId, buildingId, dateStr, period)
  {
    var date := RequestDate(dateStr, env.today);
    var key := LessonsKey(classroomId, date);
    var cached := cache.Get(key, env.now);
    var all: seq<Lesson>;
    if cached.Some? {
      all := cached.value;
    } else {
      if !HasBaseUrl(env) {
        return Lessons([]);
      }
      all := Fetched(env, classroomId, buildingId, date);
      cache.Set(key, all, env.now, AppModels.DefaultTtlMinutes);
    }
    r := ClassroomReply(all, classroomId, period, env);
  }

  /** `BUILDING_FLOOR_MAP.get(building_key, {}).get(floor, [])` */
  function FloorClassrooms(floorMap: map<string, map<int, seq<(string, string)>>>, buildingKey: string, floor: int)
    : seq<(string, string)>
  {
    if buildingKey in floorMap && floor in floorMap[buildingKey] then floorMap[buildingKey][floor] else []
  }

  /**
   * `fetch_floor_lessons`: every classroom of the floor asked for the whole day, in
   * map order; the lessons of those that have some, sorted by start then classroom name.
   */
  method FetchFloorLessons(cache: TtlCache<seq<Lesson>>, env: Env,
                           floorMap: map<string, map<int, seq<(string, string)>>>,
                           buildingKey: string, floor: int, dateStr: Option<string>)
    returns (r: seq<Lesson>, ghost replies: seq<Reply>, ghost caches: seq<map<string, Entry<seq<Lesson>>>>)
    modifies cache
    ensures var classrooms := FloorClassrooms(floorMap, buildingKey, floor);
      |replies| == |classrooms| && |caches| == |replies| + 1
      && (forall i :: 0 <= i < |replies| ==>
            (replies[i], caches[i + 1]) == ClassroomFetch(caches[i], env, classrooms[i].0, classrooms[i].1, dateStr, "all"))
    ensures caches[0] == old(cache.entries) && cache.entries == caches[|replies|]
    ensures r == SortBy(ByStartThenRoom, Gathered(replies))
    ensures Sorted(ByStartThenRoom, r)
  {
    var classrooms := FloorClassrooms(floorMap, buildingKey, floor);
    ghost var fetch := (room: (string, string), before, reply, after) =>
      (reply, after) == ClassroomFetch(before, env, room.0, room.1, dateStr, "all");
    var all: seq<Lesson> := [];
    replies, caches := [], [cache.entries];
    for i := 0 to |classrooms|
      invariant |replies| == i && |caches| == i + 1
      invariant caches[0] == old(cache.entries) && caches[i] == cache.entries
      invariant Run(classrooms, caches, replies, fetch)
      invariant all == Gathered(replies)
    {
      var lessons := FetchClassroomLessons(cache, env, classrooms[i].0, classrooms[i].1, dateStr, "all");
      assert Gathered(replies + [lessons]) == all + Contribution(lessons) by {
        GatheredAppend(replies, lessons);
      }
      if lessons.Lessons? && lessons.lessons != [] {
        all := all + lessons.lessons;
      }
      assert Run(classrooms, caches + [cache.entries], replies + [lessons], fetch) by {
        RunExtend(classrooms, caches, replies, fetch, lessons, cache.entries);
      }
      replies, caches := replies + [lessons], caches + [cache.entries];
    }
    RunSteps(classrooms, caches, replies, fetch);
    r := SortBy(ByStartThenRoom, all);
  }
}
