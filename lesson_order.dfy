/**
 * The order the backends return lessons in: Python's stable `sorted`, keyed by the
 * start timestamp string, or for a floor by the pair (start, classroom name).
 */
module LessonOrder {
  import opened Strings
  import opened LessonData

  datatype SortKey = ByStart | ByStartThenRoom

  /** `key(a) <= key(b)` with Python's ordering of strings and of pairs. */
  predicate KeyLe(k: SortKey, a: Lesson, b: Lesson) {
    match k
    case ByStart => StrLe(a.startTime, b.startTime)
    case ByStartThenRoom =>
      StrLt(a.startTime, b.startTime) || (a.startTime == b.startTime && StrLe(a.classroomName, b.classroomName))
  }

  /** Equal keys: the lessons a stable sort keeps in their input order. */
  predicate SameKey(k: SortKey, a: Lesson, b: Lesson) {
    match k
    case ByStart => a.startTime == b.startTime
    case ByStartThenRoom => a.startTime == b.startTime && a.classroomName == b.classroomName
  }

  lemma KeyLeTotal(k: SortKey, a: Lesson, b: Lesson)
    ensures KeyLe(k, a, b) || KeyLe(k, b, a)
  {
    StrLeTotal(a.startTime, b.startTime);
    StrLeTotal(a.classroomName, b.classroomName);
  }

  lemma KeyLeTransitive(k: SortKey, a: Lesson, b: Lesson, c: Lesson)
    requires KeyLe(k, a, b) && KeyLe(k, b, c)
    ensures KeyLe(k, a, c)
  {
    match k
    case ByStart =>
      StrLeTransitive(a.startTime, b.startTime, c.startTime);
    case ByStartThenRoom =>
      if a.startTime == b.startTime && b.startTime == c.startTime {
        StrLeTransitive(a.classroomName, b.classroomName, c.classroomName);
      } else {
        StrLeReflexive(a.startTime);
        StrLeReflexive(b.startTime);
        StrLeTransitive(a.startTime, b.startTime, c.startTime);
        if a.startTime == c.startTime {
          StrLeAntisymmetric(b.startTime, c.startTime);
        }
      }
  }

  /** Keys that compare both ways are equal keys. */
  lemma KeyLeAntisymmetric(k: SortKey, a: Lesson, b: Lesson)
    requires KeyLe(k, a, b) && KeyLe(k, b, a)
    ensures SameKey(k, a, b)
  {
    StrLeReflexive(a.startTime);
    StrLeReflexive(b.startTime);
    StrLeAntisymmetric(a.startTime, b.startTime);
    if k == ByStartThenRoom {
      StrLeAntisymmetric(a.classroomName, b.classroomName);
    }
  }

  lemma SameKeyLe(k: SortKey, a: Lesson, b: Lesson)
    requires SameKey(k, a, b)
    ensures KeyLe(k, a, b)
  {
    StrLeReflexive(a.startTime);
    StrLeReflexive(a.classroomName);
  }

  predicate Sorted(k: SortKey, s: seq<Lesson>) {
    forall i, j :: 0 <= i < j < |s| ==> KeyLe(k, s[i], s[j])
  }

  /** The lessons of `s` whose key equals the key of `x`, in their order in `s`. */
  function WithKeyOf(k: SortKey, x: Lesson, s: seq<Lesson>): seq<Lesson>
    decreases |s|
  {
    if s == [] then []
    else (if SameKey(k, s[0], x) then [s[0]] else []) + WithKeyOf(k, x, s[1..])
  }

  /** `x` placed before the first element whose key is not below its own. */
  function Insert(k: SortKey, x: Lesson, s: seq<Lesson>): (r: seq<Lesson>)
    ensures |r| == |s| + 1
    decreases |s|
  {
    if s == [] || KeyLe(k, x, s[0]) then [x] + s
    else [s[0]] + Insert(k, x, s[1..])
  }

  /** Inserting adds exactly the one element. */
  lemma {:induction false} InsertPermutes(k: SortKey, x: Lesson, s: seq<Lesson>)
    ensures multiset(Insert(k, x, s)) == multiset(s) + multiset{x}
    decreases |s|
  {
    if s != [] && !KeyLe(k, x, s[0]) {
      InsertPermutes(k, x, s[1..]);
      assert s == [s[0]] + s[1..];
    }
  }

  /** The first element after inserting is `x` or the old first element. */
  lemma InsertHead(k: SortKey, x: Lesson, s: seq<Lesson>)
    ensures Insert(k, x, s)[0] == x || (s != [] && Insert(k, x, s)[0] == s[0])
  {
  }

  /** Inserting into a sorted list keeps it sorted. */
  lemma {:induction false} InsertSorted(k: SortKey, x: Lesson, s: seq<Lesson>)
    requires Sorted(k, s)
    ensures Sorted(k, Insert(k, x, s))
    decreases |s|
  {
    var r := Insert(k, x, s);
    if s == [] {
    } else if KeyLe(k, x, s[0]) {
      assert r == [x] + s;
      forall i, j | 0 <= i < j < |r| ensures KeyLe(k, r[i], r[j]) {
        if i == 0 && j > 1 { KeyLeTransitive(k, x, s[0], s[j - 1]); }
      }
    } else {
      var tail := s[1..];
      forall i, j | 0 <= i < j < |tail| ensures KeyLe(k, tail[i], tail[j]) {
        assert tail[i] == s[i + 1] && tail[j] == s[j + 1];
      }
      InsertSorted(k, x, tail);
      var rest := Insert(k, x, tail);
      assert r == [s[0]] + rest;
      KeyLeTotal(k, x, s[0]);
      InsertHead(k, x, tail);
      assert KeyLe(k, s[0], rest[0]) by {
        if rest[0] != x { assert rest[0] == s[1]; }
      }
      forall i, j | 0 <= i < j < |r| ensures KeyLe(k, r[i], r[j]) {
        if i == 0 && j > 1 {
          KeyLeTransitive(k, s[0], rest[0], rest[j - 1]);
        } else if i > 0 {
          assert r[i] == rest[i - 1] && r[j] == rest[j - 1];
        }
      }
    }
  }

  /** Inserting `x` adds it to its own key class before the class members already there. */
  lemma {:induction false} InsertWithKey(k: SortKey, x: Lesson, z: Lesson, s: seq<Lesson>)
    ensures WithKeyOf(k, z, Insert(k, x, s)) ==
      (if SameKey(k, x, z) then [x] else []) + WithKeyOf(k, z, s)
    decreases |s|
  {
    if s != [] && !KeyLe(k, x, s[0]) {
      InsertWithKey(k, x, z, s[1..]);
      var r := Insert(k, x, s);
      assert r[1..] == Insert(k, x, s[1..]);
      if SameKey(k, s[0], z) && SameKey(k, x, z) {
        SameKeyLe(k, x, s[0]);
        assert false;
      }
    } else {
      assert ([x] + s)[1..] == s;
    }
  }

  /** Python's stable `sorted(s, key=...)`, as insertion from the back. */
  function SortBy(k: SortKey, s: seq<Lesson>): (r: seq<Lesson>)
    ensures Sorted(k, r)
    ensures multiset(r) == multiset(s)
    decreases |s|
  {
    if s == [] then []
    else
      var rest := SortBy(k, s[1..]);
      InsertSorted(k, s[0], rest);
      InsertPermutes(k, s[0], rest);
      assert s == [s[0]] + s[1..];
      Insert(k, s[0], rest)
  }

  /** Stability: lessons with equal keys keep their input order. */
  lemma {:induction false} SortByStable(k: SortKey, z: Lesson, s: seq<Lesson>)
    ensures WithKeyOf(k, z, SortBy(k, s)) == WithKeyOf(k, z, s)
    decreases |s|
  {
    if s != [] {
      SortByStable(k, z, s[1..]);
      InsertWithKey(k, s[0], z, SortBy(k, s[1..]));
    }
  }
}
