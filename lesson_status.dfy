/**
 * The three-way lesson status shared by every view: upcoming before the start,
 * ended after the end, ongoing in between with both boundaries counted as ongoing.
 */
module LessonStatus {
  import opened Wrappers
  import opened Language

  datatype Status = Soon | Live | Ended

  /**
   * `now < t` for a JavaScript Date: a missing or unparseable time is an Invalid
   * Date, and every comparison with it is false.
   */
  predicate Before(now: int, t: Option<int>) {
    t.Some? && now < t.value
  }

  /** `now > t`, false against an Invalid Date. */
  predicate After(now: int, t: Option<int>) {
    t.Some? && now > t.value
  }

  /** `getStatus`: `soon` if now < start, else `ended` if now > end, else `live`. */
  function ClassifyDates(now: int, start: Option<int>, end: Option<int>): (r: Status)
    ensures r == Soon <==> Before(now, start)
    ensures r == Ended <==> !Before(now, start) && After(now, end)
    ensures r == Live <==> !Before(now, start) && !After(now, end)
  {
    if Before(now, start) then Soon
    else if After(now, end) then Ended
    else Live
  }

  /** The classifier on two valid timestamps. */
  function Classify(now: int, start: int, end: int): (r: Status)
    ensures r == Soon <==> now < start
    ensures r == Ended <==> start <= now && end < now
    ensures r == Live <==> start <= now <= end
  {
    ClassifyDates(now, Some(start), Some(end))
  }

  /** Both boundaries of a lesson are ongoing. */
  lemma BoundariesAreLive(start: int, end: int)
    requires start <= end
    ensures Classify(start, start, end) == Live
    ensures Classify(end, start, end) == Live
  {
  }

  function Rank(s: Status): nat {
    match s
    case Soon => 0
    case Live => 1
    case Ended => 2
  }

  /** As time passes a lesson only moves forward: upcoming, ongoing, ended. */
  lemma StatusMonotone(now1: int, now2: int, start: int, end: int)
    requires start <= end && now1 <= now2
    ensures Rank(Classify(now1, start, end)) <= Rank(Classify(now2, start, end))
  {
  }

  /** The status label of both classroom views, in Italian and in English. */
  function StatusText(s: Status, l: Lang): string {
    match (s, l)
    case (Soon, It) => "Futura"
    case (Soon, En) => "Upcoming"
    case (Live, It) => "In corso"
    case (Live, En) => "Ongoing"
    case (Ended, It) => "Terminata"
    case (Ended, En) => "Ended"
  }
}
