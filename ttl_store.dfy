/**
 * The in-memory caches of the backends: a dictionary from key to (data, expiry).
 * A read returns the data only while the expiry lies after the reading time and
 * deletes an entry it finds expired; a write stores the data with an expiry a
 * number of minutes after the writing time. Times are microseconds, the
 * resolution of Python's `datetime`.
 */
module TtlStore {
  import opened Wrappers

  const MicrosPerMinute: int := 60_000_000

  datatype Entry<D> = Entry(data: D, expiry: int)

  /** What a read at `now` returns. */
  function Lookup<D>(m: map<string, Entry<D>>, key: string, now: int): (r: Option<D>)
    ensures r.Some? <==> key in m && m[key].expiry > now
    ensures r.Some? ==> r.value == m[key].data
  {
    if key in m && m[key].expiry > now then Some(m[key].data) else None
  }

  /** The dictionary after a read at `now`: an expired entry for the key is deleted. */
  function AfterLookup<D>(m: map<string, Entry<D>>, key: string, now: int): (m': map<string, Entry<D>>)
    ensures forall k :: k in m' ==> k in m && m'[k] == m[k]
    ensures forall k :: k in m && k != key ==> k in m'
    ensures key in m' <==> key in m && m[key].expiry > now
  {
    if key in m && m[key].expiry <= now then m - {key} else m
  }

  /** The expiry a write at `now` with a lifetime of `ttlMinutes` gives. */
  function ExpiryAt(now: int, ttlMinutes: int): int {
    now + ttlMinutes * MicrosPerMinute
  }

  /** The dictionary after a write: the key (over)written, every other key as it was. */
  function Stored<D>(m: map<string, Entry<D>>, key: string, data: D, now: int, ttlMinutes: int): (m': map<string, Entry<D>>)
    ensures key in m' && m'[key] == Entry(data, ExpiryAt(now, ttlMinutes))
    ensures forall k :: k != key ==> (k in m' <==> k in m) && (k in m ==> m'[k] == m[k])
  {
    m[key := Entry(data, ExpiryAt(now, ttlMinutes))]
  }

  /** A read right after a write at `t0` returns the data exactly until the lifetime has passed. */
  lemma ReadAfterWrite<D>(m: map<string, Entry<D>>, key: string, data: D, t0: int, ttlMinutes: int, t: int)
    ensures Lookup(Stored(m, key, data, t0, ttlMinutes), key, t) ==
      if t < ExpiryAt(t0, ttlMinutes) then Some(data) else None
  {
  }

  /** A cache operation, for reasoning about sequences of them. */
  datatype Op<D> = Read(key: string, now: int) | Write(key: string, data: D, now: int, ttlMinutes: int)

  function Apply<D>(m: map<string, Entry<D>>, ops: seq<Op<D>>): map<string, Entry<D>>
    decreases |ops|
  {
    if ops == [] then m
    else
      var op := ops[0];
      var m1 := match op
        case Read(key, now) => AfterLookup(m, key, now)
        case Write(key, data, now, ttl) => Stored(m, key, data, now, ttl);
      Apply(m1, ops[1..])
  }

  /**
   * An entry survives any sequence of operations that does not write its key and
   * happens before it expires: reads of other keys, writes of other keys and reads
   * of its own key all leave it in place.
   */
  lemma {:induction false} EntrySurvives<D>(m: map<string, Entry<D>>, key: string, e: Entry<D>, ops: seq<Op<D>>)
    requires key in m && m[key] == e
    requires forall i :: 0 <= i < |ops| ==> ops[i].now < e.expiry
    requires forall i :: 0 <= i < |ops| ==> !(ops[i].Write? && ops[i].key == key)
    ensures key in Apply(m, ops) && Apply(m, ops)[key] == e
    decreases |ops|
  {
    if ops != [] {
      var m1 := match ops[0]
        case Read(k, now) => AfterLookup(m, k, now)
        case Write(k, data, now, ttl) => Stored(m, k, data, now, ttl);
      assert key in m1 && m1[key] == e;
      EntrySurvives(m1, key, e, ops[1..]);
    }
  }

  /**
   * The round trip across other traffic: after a write at `t0`, whatever reads and
   * writes of other keys follow, a read at `t` before the lifetime ends returns the
   * data written, provided those operations came before `t`.
   */
  lemma WriteThenRead<D>(m: map<string, Entry<D>>, key: string, data: D, t0: int, ttlMinutes: int,
                         ops: seq<Op<D>>, t: int)
    requires t < ExpiryAt(t0, ttlMinutes)
    requires forall i :: 0 <= i < |ops| ==> ops[i].now <= t
    requires forall i :: 0 <= i < |ops| ==> !(ops[i].Write? && ops[i].key == key)
    ensures Lookup(Apply(Stored(m, key, data, t0, ttlMinutes), ops), key, t) == Some(data)
  {
    EntrySurvives(Stored(m, key, data, t0, ttlMinutes), key, Entry(data, ExpiryAt(t0, ttlMinutes)), ops);
  }

  /** One process's cache dictionary, updated in place. */
  class TtlCache<D> {
    var entries: map<string, Entry<D>>

    constructor()
      ensures entries == map[]
    {
      entries := map[];
    }

    /** Read `key` at `now`, deleting the entry if it has expired. */
    method Get(key: string, now: int) returns (r: Option<D>)
      modifies this
      ensures r == Lookup(old(entries), key, now)
      ensures entries == AfterLookup(old(entries), key, now)
    {
      if key in entries {
        var e := entries[key];
        if e.expiry > now {
          return Some(e.data);
        }
        entries := entries - {key};
      }
      r := None;
    }

    /** Write `data` under `key` at `now`, to live `ttlMinutes` minutes. */
    method Set(key: string, data: D, now: int, ttlMinutes: int)
      modifies this
      ensures entries == Stored(old(entries), key, data, now, ttlMinutes)
    {
      entries := entries[key := Entry(data, ExpiryAt(now, ttlMinutes))];
    }
  }
}
