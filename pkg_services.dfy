/**
 * app/services/services.py: the packaged backend's lessons of one classroom and
 * of one floor. It differs from app/services.py in four ways: the base URL is not
 * checked, the lifetime of a cache entry comes from the configuration, a start
 * time that does not parse is an error rather than a dropped lesson, and a period
 * other than the three known ones keeps nothing.
 */
module PkgServices {
  import opened Wrappers
  import opened Strings
  import opened Seqs
  import opened LessonData
  import opened LessonOrder
  import opened TtlStore
  import PkgModels
  import AppServices

  const AfternoonHour: nat := 13

  /** The error an unparseable start raises out of the period filter. */
  const ValueError: string := "ValueError"

  datatype Env = Env(
    now: int,                                   // datetime.now(), in microseconds
    today: string,                              // datetime.now().strftime('%Y-%m-%d')
    baseUrl: Option<string>,                    // config LESSON_API_BASE_URL
    roomNames: map<string, string>,             // config CLASSROOM_ID_TO_NAME, {} by default
    configuredTtl: Option<int>,                 // config CACHE_TTL_MINUTES
    upstream: string -> ApiResponse,            // the timetable service, by URL
    parseStart: string -> Option<TimeOfDay>)    // fromisoformat(... 'Z' as '+00:00').time()

  /** An f-string renders a missing configuration value as "None". */
  function BaseUrlText(baseUrl: Option<string>): string {
    if baseUrl.Some? then baseUrl.value else "None"
  }

  /** `filter_by_period` once the start has parsed. */
  predicate InPeriod(t: TimeOfDay, period: string) {
    (period == "morning" && Before(t, AfternoonHour))
    || (period == "afternoon" && !Before(t, AfternoonHour))
    || period == "all"
  }

  predicate StartParses(l: Lesson, parseStart: string -> Option<TimeOfDay>) {
    parseStart(l.startTime).Some?
  }

  predicate Keeps(l: Lesson, period: string, parseStart: string -> Option<TimeOfDay>) {
    StartParses(l, parseStart) && InPeriod(parseStart(l.startTime).value, period)
  }

  /**
   * The list comprehension over `filter_by_period`: the start of every lesson is
   * parsed before the period is looked at, and the first that does not parse raises.
   */
  function PeriodFilter(s: seq<Lesson>, period: string, parseStart: string -> Option<TimeOfDay>)
    : (r: Result<seq<Lesson>, string>)
    ensures r.Failure? <==> exists l :: l in s && !StartParses(l, parseStart)
    ensures r.Failure? ==> r.error == ValueError
    ensures r.Success? ==> forall l :: l in r.value <==> l in s && InPeriod(parseStart(l.startTime).value, period)
    ensures r.Success? ==> multiset(r.value) <= multiset(s)
    ensures r.Success? ==> forall l :: multiset(r.value)[l] == if Keeps(l, period, parseStart) then multiset(s)[l] else 0
  {
    if exists l :: l in s && !StartParses(l, parseStart) then Failure(ValueError)
    else
      FilterSubMultiset(s, l => Keeps(l, period, parseStart));
      FilterMembers(s, l => Keeps(l, period, parseStart));
      FilterCount(s, l => Keeps(l, period, parseStart));
      Success(Filter(s, l => Keeps(l, period, parseStart)))
  }

  /** On the three valid periods, and with every start parseable, both backends keep the same lessons. */
  lemma AgreesWithAppFilter(s: seq<Lesson>, period: string, parseStart: string -> Option<TimeOfDay>)
    requires PkgModels.IsPeriod(period)
    requires forall l :: l in s ==> StartParses(l, parseStart)
    ensures PeriodFilter(s, period, parseStart) == Success(AppServices.PeriodFilter(s, period, parseStart))
  {
    FilterSame(s, l => Keeps(l, period, parseStart), l => AppServices.InPeriod(l, period, parseStart));
  }

  /** Outside the three valid periods nothing is kept (app/services.py keeps everything). */
  lemma OtherPeriodsKeepNothing(s: seq<Lesson>, period: string, parseStart: string -> Option<TimeOfDay>)
    requires !PkgModels.IsPeriod(period)
    requires forall l :: l in s ==> StartParses(l, parseStart)
    ensures PeriodFilter(s, period, parseStart) == Success([])
  {
    FilterKeepsNone(s, l => Keeps(l, period, parseStart));
  }

  /** `classroom_id_to_name.get(classroom_id, f"ID {classroom_id}")` */
  function FriendlyName(classroomId: string, roomNames: map<string, string>): string {
    if classroomId in roomNames then roomNames[classroomId] else "ID " + classroomId
  }

  /** The reply made from the day's lessons, or the error the filter raised. */
  function ClassroomReply(all: seq<Lesson>, classroomId: string, period: string, env: Env): (r: Result<Reply, string>)
    ensures r.Failure? <==> all != [] && exists l :: l in all && !StartParses(l, env.parseStart)
    ensures r.Failure? ==> r.error == ValueError
    ensures r.Success? && r.value.Message? <==> all == []
    ensures all == [] ==> r == Success(Message(FriendlyName(classroomId, env.roomNames), NoLessonsMessage))
    ensures r.Success? && r.value.Lessons? ==> Sorted(ByStart, r.value.lessons)
    ensures r.Success? && r.value.Lessons? ==>
      forall l :: l in r.value.lessons <==> l in all && InPeriod(env.parseStart(l.startTime).value, period)
    ensures r.Success? && r.value.Lessons? ==>
      forall l :: multiset(r.value.lessons)[l] == if Keeps(l, period, env.parseStart) then multiset(all)[l] else 0
  {
    if all == [] then Success(Message(FriendlyName(classroomId, env.roomNames), NoLessonsMessage))
    else
      match PeriodFilter(all, period, env.parseStart)
      case Failure(e) => Failure(e)
      case Success(kept) =>
        var sorted := SortBy(ByStart, kept);
        assert forall l :: l in sorted <==> l in kept by {
          forall l ensures l in sorted <==> l in kept {
            assert l in sorted <==> l in multiset(sorted);
            assert l in kept <==> l in multiset(kept);
          }
        }
        Success(Lessons(sorted))
  }

  function Fetched(env: Env, classroomId: string, buildingId: string, date: string): seq<Lesson> {
    ParseAll(ApiLessons(env.upstream(ImpegniUrl(BaseUrlText(env.baseUrl), classroomId, buildingId, date))), env.roomNames)
  }

  /**
   * What `fetch_classroom_lessons` answers, and the cache it leaves, given the
   * cache it starts from: a hit answers from the cache (the read has already
   * dropped an expired entry); a miss fetches and stores what it fetched for the
   * configured lifetime, or the default one, before the filter runs, so a failing
   * filter still leaves the entry written.
   */
  function ClassroomFetch(entries: map<string, Entry<seq<Lesson>>>, env: Env, classroomId: string, buildingId: string,
                          dateStr: Option<string>, period: string): (Result<Reply, string>, map<string, Entry<seq<Lesson>>>)
  {
    var key := LessonsKey(classroomId, RequestDate(dateStr, env.today));
    var hit := Lookup(entries, key, env.now);
    var seen := AfterLookup(entries, key, env.now);
    if hit.Some? then (ClassroomReply(hit.value, classroomId, period, env), seen)
    else
      var fetched := Fetched(env, classroomId, buildingId, RequestDate(dateStr, env.today));
      (ClassroomReply(fetched, classroomId, period, env),
       Stored(seen, key, fetched, env.now, env.configuredTtl.GetOr(PkgModels.DefaultTtlMinutes)))
  }

  /** What one classroom fetch does to the cache: only its own key changes, a
      live entry is kept as it is, and the reply is drawn from the entry left
      under that key. */
  lemma ClassroomFetchEffect(entries: map<string, Entry<seq<Lesson>>>, env: Env, classroomId: string, buildingId: string,
                             dateStr: Option<string>, period: string)
    ensures var r := ClassroomFetch(entries, env, classroomId, buildingId, dateStr, period);
      var key := LessonsKey(classroomId, RequestDate(dateStr, env.today));
      forall k :: k != key ==> (k in r.1 <==> k in entries) && (k in r.1 ==> r.1[k] == entries[k])
    ensures var r := ClassroomFetch(entries, env, classroomId, buildingId, dateStr, period);
      var key := LessonsKey(classroomId, RequestDate(dateStr, env.today));
      key in r.1 && r.0 == ClassroomReply(r.1[key].data, classroomId, period, env)
    ensures var r := ClassroomFetch(entries, env, classroomId, buildingId, dateStr, period);
      var key := LessonsKey(classroomId, RequestDate(dateStr, env.today));
      Lookup(entries, key, env.now).Some? ==> r.1[key] == entries[key]
  {
  }

  /** A second fetch at the same moment answers as the first did and leaves the cache as it was. */
  lemma RefetchIsCached(entries: map<string, Entry<seq<Lesson>>>, env: Env, classroomId: string, buildingId: string,
                        dateStr: Option<string>, period: string)
    ensures var first := ClassroomFetch(entries, env, classroomId, buildingId, dateStr, period);
      ClassroomFetch(first.1, env, classroomId, buildingId, dateStr, period) == first
  {
    var key := LessonsKey(classroomId, RequestDate(dateStr, env.today));
    if Lookup(entries, key, env.now).None? {
      // With a lifetime of zero or less the entry is already stale: the second
      // read deletes it and the second write puts the same entry back.
      var after := ClassroomFetch(entries, env, classroomId, buildingId, dateStr, period).1;
      var seen := AfterLookup(after, key, env.now);
      var fetched := Fetched(env, classroomId, buildingId, RequestDate(dateStr, env.today));
      assert Stored(seen, key, fetched, env.now, env.configuredTtl.GetOr(PkgModels.DefaultTtlMinutes)) == after;
    }
  }

  /** `fetch_classroom_lessons`, on the cache object. */
  method FetchClassroomLessons(cache: TtlCache<seq<Lesson>>, env: Env, classroomId: string, buildingId: string,
                               dateStr: Option<string>, period: string) returns (r: Result<Reply, string>)
    modifies cache
    ensures r.Failure? ==> r.error == ValueError
    ensures (r, cache.entries) == ClassroomFetch(old(cache.entries), env, classroomId, buildingId, dateStr, period)
  {
    var date := RequestDate(dateStr, env.today);
    var key := LessonsKey(classroomId, date);
    var all: seq<Lesson>;
    var cached := PkgModels.GetFromCache(cache, key, env.now);
    if cached.Some? {
      all := cached.value;
    } else {
      all := Fetched(env, classroomId, buildingId, date);
      PkgModels.SetInCache(cache, key, all, env.now, env.configuredTtl);
    }
    r := ClassroomReply(all, classroomId, period, env);
  }

  /** `building_floor_map.get(building_key, {}).get(str(floor), [])` */
  function FloorClassrooms(floorMap: map<string, map<string, seq<(string, string)>>>, buildingKey: string, floor: int)
    : seq<(string, string)>
  {
    var key := IntToString(floor);
    if buildingKey in floorMap && key in floorMap[buildingKey] then floorMap[buildingKey][key] else []
  }

  /**
   * `fetch_floor_lessons`: like app/services.py, except that an error of one
   * classroom ends the whole request with that error.
   */
  method FetchFloorLessons(cache: TtlCache<seq<Lesson>>, env: Env,
                           floorMap: map<string, map<string, seq<(string, string)>>>,
                           buildingKey: string, floor: int, dateStr: Option<string>)
    returns (r: Result<seq<Lesson>, string>, ghost replies: seq<Reply>,
             ghost caches: seq<map<string, Entry<seq<Lesson>>>>)
    modifies cache
    ensures var classrooms := FloorClassrooms(floorMap, buildingKey, floor);
      |replies| <= |classrooms| && |caches| == |replies| + 1
      && (forall i :: 0 <= i < |replies| ==>
            (Success(replies[i]), caches[i + 1]) == ClassroomFetch(caches[i], env, classrooms[i].0, classrooms[i].1, dateStr, "all"))
    ensures caches[0] == old(cache.entries)
    ensures r.Success? ==> |replies| == |FloorClassrooms(floorMap, buildingKey, floor)| && cache.entries == caches[|replies|]
    ensures r.Success? ==> r.value == SortBy(ByStartThenRoom, Gathered(replies))
    ensures r.Success? ==> Sorted(ByStartThenRoom, r.value)
    ensures r.Failure? ==> r.error == ValueError
    ensures r.Failure? ==> var classrooms, k := FloorClassrooms(floorMap, buildingKey, floor), |replies|;
      k < |classrooms|
      && ClassroomFetch(caches[k], env, classrooms[k].0, classrooms[k].1, dateStr, "all") == (Failure(r.error), cache.entries)
  {
    var classrooms := FloorClassrooms(floorMap, buildingKey, floor);
    ghost var fetch := (room: (string, string), before, reply, after) =>
      (Success(reply), after) == ClassroomFetch(before, env, room.0, room.1, dateStr, "all");
    var all: seq<Lesson> := [];
    replies, caches := [], [cache.entries];
    for i := 0 to |classrooms|
      invariant |replies| == i && |caches| == i + 1
      invariant caches[0] == old(cache.entries) && caches[i] == cache.entries
      invariant Run(classrooms, caches, replies, fetch)
      invariant all == Gathered(replies)
    {
      var outcome := FetchClassroomLessons(cache, env, classrooms[i].0, classrooms[i].1, dateStr, "all");
      if outcome.Failure? {
        RunSteps(classrooms, caches, replies, fetch);
        return Failure(outcome.error), replies, caches;
      }
      var lessons := outcome.value;
      assert Gathered(replies + [lessons]) == all + Contribution(lessons) by {
        GatheredAppend(replies, lessons);
      }
      if lessons.Lessons? && lessons.lessons != [] {
        all := all + lessons.lessons;
      }
      assert Run(classrooms, caches + [cache.entries], replies + [lessons], fetch) by {
        RunExtend(classrooms, caches, replies, fetch, lessons, cache.entries);
      }
      replies, caches := replies + [lessons], caches + [cache.entries];
    }
    RunSteps(classrooms, caches, replies, fetch);
    r := Success(SortBy(ByStartThenRoom, all));
  }
}
