/**
 * app/models.py: the request schema of the lesson endpoint and the lesson cache
 * keyed by classroom, building and date.
 */
module AppModels {
  import opened Wrappers
  import opened TtlStore
  import opened LessonData

  /** The default of `set_in_cache`'s `ttl` argument. */
  const DefaultTtlMinutes: int := 15

  datatype RequestBody = RequestBody(classroom: Option<string>, building: Option<string>, date: Option<string>, period: Option<string>)

  datatype LessonRequest = LessonRequest(classroom: string, building: string, date: Option<string>, period: string)

  /** `LessonRequest(**body)`: classroom and building required, any period, "all" by default. */
  function Validate(b: RequestBody): (r: Option<LessonRequest>)
    ensures r.Some? <==> b.classroom.Some? && b.building.Some?
    ensures r.Some? ==> r.value.classroom == b.classroom.value && r.value.building == b.building.value
    ensures r.Some? ==> r.value.date == b.date && r.value.period == b.period.GetOr("all")
  {
    if b.classroom.Some? && b.building.Some? then
      Some(LessonRequest(b.classroom.value, b.building.value, b.date, b.period.GetOr("all")))
    else None
  }

  /** `f"{classroom}_{building}_{date}"` */
  function CacheKey(classroom: string, building: string, date: string): string {
    classroom + "_" + building + "_" + date
  }

  /**
   * The key does not separate its parts unambiguously: two different classroom and
   * building pairs can share one cache entry.
   */
  lemma CacheKeyCollides()
    ensures ("a_b", "c") != ("a", "b_c")
    ensures CacheKey("a_b", "c", "d") == CacheKey("a", "b_c", "d")
  {
  }

  /** `get_from_cache(classroom, building, date)` */
  method GetFromCache(cache: TtlCache<seq<Lesson>>, classroom: string, building: string, date: string, now: int)
    returns (r: Option<seq<Lesson>>)
    modifies cache
    ensures r == Lookup(old(cache.entries), CacheKey(classroom, building, date), now)
    ensures cache.entries == AfterLookup(old(cache.entries), CacheKey(classroom, building, date), now)
  {
    r := cache.Get(CacheKey(classroom, building, date), now);
  }

  /** `set_in_cache(classroom, building, date, data, ttl)`; callers pass 15 unless they choose otherwise. */
  method SetInCache(cache: TtlCache<seq<Lesson>>, classroom: string, building: string, date: string,
                    data: seq<Lesson>, now: int, ttlMinutes: int)
    modifies cache
    ensures cache.entries == Stored(old(cache.entries), CacheKey(classroom, building, date), data, now, ttlMinutes)
  {
    cache.Set(CacheKey(classroom, building, date), data, now, ttlMinutes);
  }
}
