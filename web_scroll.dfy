/**
 * The boomerang auto-scroller of the `web/` views: a chain of timers, each step
 * re-measuring the wrapper and the table, moving the table one pixel and setting
 * the next step after 30 ms, or after 3 s when a bound is reached. No step clamps;
 * a step that finds the table fitting ends the chain.
 */
module WebScroll {

  const StepDelay: nat := 30
  const PauseDelay: nat := 3000

  /** The delay of the next step, or no next step at all. */
  datatype Next = Stopped | After(ms: nat)

  /** The closure variables `pos` and `dir`. */
  datatype Motion = Motion(pos: int, dir: int)

  datatype Stepped = Stepped(motion: Motion, next: Next)

  /** `stepScroll` with the heights it reads; the bottom bound is `viewHeight - bodyHeight`. */
  function StepScroll(m: Motion, viewHeight: int, bodyHeight: int): (r: Stepped)
    ensures bodyHeight <= viewHeight ==> r == Stepped(m, Stopped)
    ensures bodyHeight > viewHeight ==> r.motion.pos == m.pos + m.dir && r.next.After?
    ensures bodyHeight > viewHeight && r.motion.pos <= viewHeight - bodyHeight ==>
      r.motion.dir == 1 && r.next == After(PauseDelay)
    ensures bodyHeight > viewHeight && viewHeight - bodyHeight < r.motion.pos && r.motion.pos >= 0 ==>
      r.motion.dir == -1 && r.next == After(PauseDelay)
    ensures bodyHeight > viewHeight && viewHeight - bodyHeight < r.motion.pos < 0 ==>
      r.motion.dir == m.dir && r.next == After(StepDelay)
  {
    if bodyHeight <= viewHeight then Stepped(m, Stopped)
    else
      var pos := m.pos + m.dir;
      if pos <= viewHeight - bodyHeight then Stepped(Motion(pos, 1), After(PauseDelay))
      else if pos >= 0 then Stepped(Motion(pos, -1), After(PauseDelay))
      else Stepped(Motion(pos, m.dir), After(StepDelay))
  }

  /**
   * With the heights fixed, the table stays between the bottom bound and the top,
   * never heading further past the bound it is at.
   */
  predicate Moving(m: Motion, bottom: int) {
    bottom <= m.pos <= 0 && ((m.dir == -1 && m.pos > bottom) || (m.dir == 1 && m.pos < 0))
  }

  /** With fixed integer heights a step keeps the table within `[viewHeight - bodyHeight, 0]`. */
  lemma StepKeepsMoving(m: Motion, viewHeight: int, bodyHeight: int)
    requires bodyHeight > viewHeight && Moving(m, viewHeight - bodyHeight)
    ensures Moving(StepScroll(m, viewHeight, bodyHeight).motion, viewHeight - bodyHeight)
  {
  }

  /** `n` steps with the same heights. */
  function Steps(m: Motion, n: nat, viewHeight: int, bodyHeight: int): Motion
    decreases n
  {
    if n == 0 then m else Steps(StepScroll(m, viewHeight, bodyHeight).motion, n - 1, viewHeight, bodyHeight)
  }

  /**
   * Heading up from `p`, the table reaches the bottom bound and turns after exactly
   * `p - bottom` steps.
   */
  lemma {:induction false} Ascend(p: int, k: nat, viewHeight: int, bodyHeight: int)
    requires bodyHeight > viewHeight && viewHeight - bodyHeight < p <= 0 && 0 < k <= p - (viewHeight - bodyHeight)
    ensures Steps(Motion(p, -1), k, viewHeight, bodyHeight) ==
      if k < p - (viewHeight - bodyHeight) then Motion(p - k, -1) else Motion(viewHeight - bodyHeight, 1)
    decreases k
  {
    var next := StepScroll(Motion(p, -1), viewHeight, bodyHeight).motion;
    if k > 1 {
      assert next == Motion(p - 1, -1);
      Ascend(p - 1, k - 1, viewHeight, bodyHeight);
    } else {
      assert Steps(Motion(p, -1), k, viewHeight, bodyHeight) == Steps(next, 0, viewHeight, bodyHeight);
    }
  }

  /** Heading down from `p`, the table reaches the top and turns after exactly `-p` steps. */
  lemma {:induction false} Descend(p: int, k: nat, viewHeight: int, bodyHeight: int)
    requires bodyHeight > viewHeight && viewHeight - bodyHeight <= p < 0 && 0 < k <= -p
    ensures Steps(Motion(p, 1), k, viewHeight, bodyHeight) ==
      if k < -p then Motion(p + k, 1) else Motion(0, -1)
    decreases k
  {
    var next := StepScroll(Motion(p, 1), viewHeight, bodyHeight).motion;
    if k > 1 {
      assert next == Motion(p + 1, 1);
      Descend(p + 1, k - 1, viewHeight, bodyHeight);
    } else {
      assert Steps(Motion(p, 1), k, viewHeight, bodyHeight) == Steps(next, 0, viewHeight, bodyHeight);
    }
  }

  /** With fixed heights one full sweep up and back returns the table to its starting state. */
  lemma FullCycle(viewHeight: int, bodyHeight: int)
    requires bodyHeight > viewHeight
    ensures Steps(Motion(0, -1), bodyHeight - viewHeight, viewHeight, bodyHeight) == Motion(viewHeight - bodyHeight, 1)
    ensures Steps(Motion(viewHeight - bodyHeight, 1), bodyHeight - viewHeight, viewHeight, bodyHeight) == Motion(0, -1)
  {
    Ascend(0, bodyHeight - viewHeight, viewHeight, bodyHeight);
    Descend(viewHeight - bodyHeight, bodyHeight - viewHeight, viewHeight, bodyHeight);
  }

  /** One view's scroller; `initialized` is the once-only guard. */
  class Boomerang {
    var initialized: bool
    var motion: Motion
    /** A `stepScroll` timer is set. */
    var pending: bool
    /** The `translateY` last written, in pixels. */
    var offset: int

    constructor()
      ensures !initialized && !pending && motion == Motion(0, -1) && offset == 0
    {
      initialized := false;
      motion := Motion(0, -1);
      pending := false;
      offset := 0;
    }

    /**
     * The classroom view's `setupAutoScroll`: nothing once initialised or without a
     * wrapper; otherwise mark it initialised, then reset the table and set the
     * first step after the long pause. A wrapper without a table stops the setup
     * after the guard is set (the reset throws), which disables scrolling for good.
     */
    method SetupClassroom(wrapperPresent: bool, tablePresent: bool) returns (first: Next)
      modifies this
      ensures old(initialized) || !wrapperPresent ==> unchanged(this) && first == Stopped
      ensures !old(initialized) && wrapperPresent && !tablePresent ==>
        initialized && first == Stopped && motion == old(motion) && pending == old(pending) && offset == old(offset)
      ensures !old(initialized) && wrapperPresent && tablePresent ==>
        initialized && motion == Motion(0, -1) && offset == 0 && pending && first == After(PauseDelay)
      ensures first.After? ==> forall bottom :: bottom < 0 ==> Moving(motion, bottom)
    {
      if initialized || !wrapperPresent {
        return Stopped;
      }
      initialized := true;
      if !tablePresent {
        return Stopped;
      }
      motion := Motion(0, -1);
      offset := 0;
      pending := true;
      first := After(PauseDelay);
    }

    /**
     * The floor view's `setupAutoScroll`: the guard is set before the wrapper and
     * table are looked up, so a first call that finds neither disables scrolling
     * for good.
     */
    method SetupFloor(wrapperPresent: bool, tablePresent: bool) returns (first: Next)
      modifies this
      ensures initialized
      ensures old(initialized) ==> unchanged(this) && first == Stopped
      ensures !old(initialized) && !(wrapperPresent && tablePresent) ==>
        first == Stopped && motion == old(motion) && pending == old(pending) && offset == old(offset)
      ensures !old(initialized) && wrapperPresent && tablePresent ==>
        motion == Motion(0, -1) && offset == 0 && pending && first == After(PauseDelay)
      ensures first.After? ==> forall bottom :: bottom < 0 ==> Moving(motion, bottom)
    {
      if initialized {
        return Stopped;
      }
      initialized := true;
      if !(wrapperPresent && tablePresent) {
        return Stopped;
      }
      motion := Motion(0, -1);
      offset := 0;
      pending := true;
      first := After(PauseDelay);
    }

    /** The pending step firing with the heights measured now. */
    method StepFired(viewHeight: int, bodyHeight: int) returns (next: Next)
      requires pending
      modifies this
      ensures Stepped(motion, next) == StepScroll(old(motion), viewHeight, bodyHeight)
      ensures pending <==> next.After?
      ensures bodyHeight > viewHeight ==> offset == motion.pos
      ensures bodyHeight <= viewHeight ==> offset == old(offset)
      ensures initialized == old(initialized)
    {
      var r := StepScroll(motion, viewHeight, bodyHeight);
      if r.next.After? {
        offset := r.motion.pos;
      }
      motion := r.motion;
      next := r.next;
      pending := next.After?;
    }
  }
}
