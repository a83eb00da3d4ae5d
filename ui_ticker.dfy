/**
 * The once-a-second loop of the `ui/` views: a seconds counter, the language
 * toggle every 15 seconds and the data refresh every 5 minutes.
 */
module UiTicker {
  import opened Language

  const LanguageToggleInterval: nat := 15
  const DataRefreshInterval: nat := 5 * 60

  /** What one tick does, in the order it does it. */
  datatype Action = UpdateClock | UpdateLessonStatus | ToggleLanguage | FetchLessons | SyncTime

  /** Whether tick `n` (the counter's value after its increment) is a toggle or a refresh tick. */
  predicate TogglesOn(n: nat) {
    n % LanguageToggleInterval == 0
  }

  predicate RefreshesOn(n: nat) {
    n % DataRefreshInterval == 0
  }

  /** Every refresh tick is also a toggle tick: 300 is a multiple of 15. */
  lemma RefreshIsToggle(n: nat)
    requires RefreshesOn(n)
    ensures TogglesOn(n)
  {
    var k := n / DataRefreshInterval;
    assert n == 300 * k;
    assert n == 15 * (20 * k);
  }

  function Optional(c: bool, acts: seq<Action>): seq<Action> {
    if c then acts else []
  }

  /**
   * The classroom view's tick: clock, lesson statuses, then the toggle when due,
   * then the refetch and the time sync when due.
   */
  function ClassroomTickActions(n: nat): (r: seq<Action>)
    ensures |r| >= 2 && r[..2] == [UpdateClock, UpdateLessonStatus]
    ensures ToggleLanguage in r <==> n % 15 == 0
    ensures FetchLessons in r <==> n % 300 == 0
    ensures SyncTime in r <==> n % 300 == 0
    ensures |r| == 2 + (if n % 15 == 0 then 1 else 0) + (if n % 300 == 0 then 2 else 0)
    ensures n % 15 != 0 ==> r == [UpdateClock, UpdateLessonStatus]
    ensures n % 15 == 0 && n % 300 != 0 ==> r == [UpdateClock, UpdateLessonStatus, ToggleLanguage]
    ensures n % 300 == 0 ==> r == [UpdateClock, UpdateLessonStatus, ToggleLanguage, FetchLessons, SyncTime]
  {
    [UpdateClock, UpdateLessonStatus] + Optional(TogglesOn(n), [ToggleLanguage])
      + Optional(RefreshesOn(n), [FetchLessons, SyncTime])
  }

  /** The floor view's tick: the same without the lesson-status pass. */
  function FloorTickActions(n: nat): (r: seq<Action>)
    ensures |r| >= 1 && r[0] == UpdateClock && UpdateLessonStatus !in r
    ensures ToggleLanguage in r <==> n % 15 == 0
    ensures FetchLessons in r <==> n % 300 == 0
    ensures SyncTime in r <==> n % 300 == 0
    ensures |r| == 1 + (if n % 15 == 0 then 1 else 0) + (if n % 300 == 0 then 2 else 0)
    ensures n % 15 != 0 ==> r == [UpdateClock]
    ensures n % 15 == 0 && n % 300 != 0 ==> r == [UpdateClock, ToggleLanguage]
    ensures n % 300 == 0 ==> r == [UpdateClock, ToggleLanguage, FetchLessons, SyncTime]
  {
    [UpdateClock] + Optional(TogglesOn(n), [ToggleLanguage])
      + Optional(RefreshesOn(n), [FetchLessons, SyncTime])
  }

  /** The number of toggles over ticks 1..n. */
  function Toggles(n: nat): nat
    decreases n
  {
    if n == 0 then 0 else Toggles(n - 1) + (if TogglesOn(n) then 1 else 0)
  }

  lemma {:induction false} TogglesCount(n: nat)
    ensures Toggles(n) == n / 15
    decreases n
  {
    if n > 0 {
      TogglesCount(n - 1);
      assert n / 15 == (n - 1) / 15 + (if n % 15 == 0 then 1 else 0);
    }
  }

  /** The language shown after `n` ticks of a view that started in `l`. */
  function LanguageAfter(l: Lang, n: nat): Lang
    decreases n
  {
    if n == 0 then l
    else
      var prev := LanguageAfter(l, n - 1);
      if TogglesOn(n) then Flip(prev) else prev
  }

  /** The language depends only on the parity of the number of 15-second periods elapsed. */
  lemma {:induction false} LanguageAfterParity(l: Lang, n: nat)
    ensures LanguageAfter(l, n) == if (n / 15) % 2 == 0 then l else Flip(l)
    decreases n
  {
    if n > 0 {
      LanguageAfterParity(l, n - 1);
      assert n / 15 == (n - 1) / 15 + (if n % 15 == 0 then 1 else 0);
      FlipTwice(l);
    }
  }

  /** The view's counter: each tick increments it and reports the actions due. */
  class Ticker {
    var seconds: nat

    constructor()
      ensures seconds == 0
    {
      seconds := 0;
    }

    method ClassroomTick() returns (actions: seq<Action>)
      modifies this
      ensures seconds == old(seconds) + 1
      ensures actions == ClassroomTickActions(seconds)
    {
      seconds := seconds + 1;
      actions := ClassroomTickActions(seconds);
    }

    method FloorTick() returns (actions: seq<Action>)
      modifies this
      ensures seconds == old(seconds) + 1
      ensures actions == FloorTickActions(seconds)
    {
      seconds := seconds + 1;
      actions := FloorTickActions(seconds);
    }
  }
}
