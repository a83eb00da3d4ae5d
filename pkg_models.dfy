/**
 * app/services/models.py: the request schema of the lesson endpoint and the
 * one-key lesson cache with its configured lifetime.
 */
module PkgModels {
  import opened Wrappers
  import opened TtlStore
  import opened LessonData

  /** `CACHE_TTL_MINUTES` when the configuration does not set it. */
  const DefaultTtlMinutes: int := 15

  /** The JSON body as received: a key that is absent is None. */
  datatype RequestBody = RequestBody(classroom: Option<string>, building: Option<string>, date: Option<string>, period: Option<string>)

  /** A validated `LessonRequest`. */
  datatype LessonRequest = LessonRequest(classroom: string, building: string, date: Option<string>, period: string)

  datatype FieldError = Missing(field: string) | PatternMismatch(field: string)

  /** The pattern `^(morning|afternoon|all)$`. */
  predicate IsPeriod(p: string) {
    p == "morning" || p == "afternoon" || p == "all"
  }

  /** The validation errors of a body, one per failing field in declaration order. */
  function FieldErrors(b: RequestBody): seq<FieldError> {
    (if b.classroom.None? then [Missing("classroom")] else [])
    + (if b.building.None? then [Missing("building")] else [])
    + (if b.period.Some? && !IsPeriod(b.period.value) then [PatternMismatch("period")] else [])
  }

  /**
   * `LessonRequest(**body)`: classroom and building are required, the date is
   * optional and the period defaults to "all" and must be one of the three periods.
   */
  function Validate(b: RequestBody): (r: Result<LessonRequest, seq<FieldError>>)
    ensures r.Success? <==> b.classroom.Some? && b.building.Some? && (b.period.None? || IsPeriod(b.period.value))
    ensures r.Success? ==> r.value == LessonRequest(b.classroom.value, b.building.value, b.date, b.period.GetOr("all"))
    ensures r.Success? ==> IsPeriod(r.value.period)
    ensures r.Failure? ==> (Missing("classroom") in r.error <==> b.classroom.None?)
    ensures r.Failure? ==> (Missing("building") in r.error <==> b.building.None?)
    ensures r.Failure? ==> (PatternMismatch("period") in r.error <==> b.period.Some? && !IsPeriod(b.period.value))
  {
    var errors := FieldErrors(b);
    if errors == [] then Success(LessonRequest(b.classroom.value, b.building.value, b.date, b.period.GetOr("all")))
    else Failure(errors)
  }

  /** `get_from_cache(key)` */
  method GetFromCache(cache: TtlCache<seq<Lesson>>, key: string, now: int) returns (r: Option<seq<Lesson>>)
    modifies cache
    ensures r == Lookup(old(cache.entries), key, now)
    ensures cache.entries == AfterLookup(old(cache.entries), key, now)
  {
    r := cache.Get(key, now);
  }

  /** `set_in_cache(key, data)` with the lifetime from the configuration, 15 minutes by default. */
  method SetInCache(cache: TtlCache<seq<Lesson>>, key: string, data: seq<Lesson>, now: int, configuredTtl: Option<int>)
    modifies cache
    ensures cache.entries == Stored(old(cache.entries), key, data, now, configuredTtl.GetOr(DefaultTtlMinutes))
  {
    cache.Set(key, data, now, configuredTtl.GetOr(DefaultTtlMinutes));
  }
}
