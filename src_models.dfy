/**
 * src/models.py: the request schema of the first backend and its cache of the
 * (morning, afternoon) split, keyed by classroom and building.
 */
module SrcModels {
  import opened Wrappers
  import opened Strings
  import opened TtlStore
  import opened LessonData

  const MaxLength: nat := 35
  const DefaultTtlMinutes: int := 15

  datatype RequestBody = RequestBody(aula: Option<string>, edificio: Option<string>)

  datatype LessonRequest = LessonRequest(aula: string, edificio: string)

  /** The first failing constraint of one field: presence, then length, then the pattern. */
  datatype FieldError = Missing(field: string) | TooLong(field: string) | PatternMismatch(field: string)

  /** `Field(..., max_length=35, pattern=r'^[a-zA-Z0-9]+$')` */
  function CheckField(name: string, v: Option<string>): (r: Option<FieldError>)
    ensures r.None? <==> v.Some? && |v.value| <= MaxLength && IsAlnumWord(v.value)
  {
    if v.None? then Some(Missing(name))
    else if |v.value| > MaxLength then Some(TooLong(name))
    else if !IsAlnumWord(v.value) then Some(PatternMismatch(name))
    else None
  }

  function Errors(b: RequestBody): seq<FieldError> {
    var ea := CheckField("aula", b.aula);
    var ee := CheckField("edificio", b.edificio);
    (if ea.Some? then [ea.value] else []) + (if ee.Some? then [ee.value] else [])
  }

  /** A request is accepted exactly when both fields are 1 to 35 ASCII letters and digits. */
  function Validate(b: RequestBody): (r: Result<LessonRequest, seq<FieldError>>)
    ensures r.Success? <==>
      b.aula.Some? && b.edificio.Some? && |b.aula.value| <= MaxLength && |b.edificio.value| <= MaxLength
      && IsAlnumWord(b.aula.value) && IsAlnumWord(b.edificio.value)
    ensures r.Success? ==> r.value == LessonRequest(b.aula.value, b.edificio.value)
    ensures r.Failure? ==> 1 <= |r.error| <= 2
  {
    var errors := Errors(b);
    if errors == [] then Success(LessonRequest(b.aula.value, b.edificio.value)) else Failure(errors)
  }

  /** `f"{aula}_{edificio}"` */
  function CacheKey(aula: string, edificio: string): string {
    aula + "_" + edificio
  }

  /** Validated requests never share a cache entry: the key determines both fields. */
  lemma CacheKeyInjective(r1: LessonRequest, r2: LessonRequest)
    requires Validate(RequestBody(Some(r1.aula), Some(r1.edificio))).Success?
    requires Validate(RequestBody(Some(r2.aula), Some(r2.edificio))).Success?
    requires CacheKey(r1.aula, r1.edificio) == CacheKey(r2.aula, r2.edificio)
    ensures r1 == r2
  {
    forall r: LessonRequest | IsAlnumWord(r.aula) && IsAlnumWord(r.edificio)
      ensures Split(CacheKey(r.aula, r.edificio), '_') == [r.aula, r.edificio]
    {
      assert '_' !in r.aula by {
        forall i | 0 <= i < |r.aula| ensures r.aula[i] != '_' { assert IsAsciiAlnum(r.aula[i]); }
      }
      assert '_' !in r.edificio by {
        forall i | 0 <= i < |r.edificio| ensures r.edificio[i] != '_' { assert IsAsciiAlnum(r.edificio[i]); }
      }
      SplitAroundSeparator(r.aula, r.edificio, '_');
    }
  }

  /** The cached value: the (morning, afternoon) lists of raw bookings. */
  type Halves = (seq<RawLesson>, seq<RawLesson>)

  /** `get_from_cache(aula, edificio)` */
  method GetFromCache(cache: TtlCache<Halves>, aula: string, edificio: string, now: int) returns (r: Option<Halves>)
    modifies cache
    ensures r == Lookup(old(cache.entries), CacheKey(aula, edificio), now)
    ensures cache.entries == AfterLookup(old(cache.entries), CacheKey(aula, edificio), now)
  {
    r := cache.Get(CacheKey(aula, edificio), now);
  }

  /** `set_in_cache(aula, edificio, data, ttl_minutes)`; callers pass 15 unless they choose otherwise. */
  method SetInCache(cache: TtlCache<Halves>, aula: string, edificio: string, data: Halves, now: int, ttlMinutes: int)
    modifies cache
    ensures cache.entries == Stored(old(cache.entries), CacheKey(aula, edificio), data, now, ttlMinutes)
  {
    cache.Set(CacheKey(aula, edificio), data, now, ttlMinutes);
  }
}
