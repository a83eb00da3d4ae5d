/**
 * The boomerang auto-scroller of the `ui/` views: the lesson table slides up at
 * half a pixel per animation frame until its bottom edge meets the wrapper's,
 * pauses, slides back down to the top, pauses, and so on. Positions are counted
 * in half pixels so that the 0.5 px speed is one unit; the heights the browser
 * reports are whole pixels.
 */
module UiScroll {

  /** The animation's closure variables `position`, `direction` and `isPaused`. */
  datatype Motion = Motion(position: int, direction: int, paused: bool)

  /** `maxScroll = wrapperHeight - tableHeight`, in half pixels. */
  function Bottom(wrapperHeight: nat, tableHeight: nat): (b: int)
    ensures tableHeight > wrapperHeight <==> b < 0
  {
    2 * (wrapperHeight - tableHeight)
  }

  /** The table stays between the bottom bound and the top, moving one way or the other. */
  predicate InBounds(m: Motion, bottom: int) {
    bottom <= m.position <= 0 && (m.direction == -1 || m.direction == 1)
  }

  /** The state right after setup: at the top, heading up, paused. */
  function Start(): Motion {
    Motion(0, -1, true)
  }

  /**
   * One animation frame: a paused table stays where it is; otherwise it moves one
   * unit, and reaching or passing a bound clamps to it, reverses and pauses.
   */
  function Advance(m: Motion, bottom: int): (r: Motion)
    requires bottom < 0
    ensures m.paused ==> r == m
    ensures InBounds(m, bottom) ==> InBounds(r, bottom)
    ensures !m.paused && r.paused ==>
      (m.position + m.direction <= bottom && r == Motion(bottom, 1, true)) ||
      (m.position + m.direction >= 0 && r == Motion(0, -1, true))
    ensures !m.paused && !r.paused ==>
      bottom < m.position + m.direction < 0 && r == Motion(m.position + m.direction, m.direction, false)
  {
    if m.paused then m
    else
      var p := m.position + m.direction;
      if p <= bottom then Motion(bottom, 1, true)
      else if p >= 0 then Motion(0, -1, true)
      else Motion(p, m.direction, false)
  }

  /** The pause timer firing. */
  function Resume(m: Motion): (r: Motion)
    ensures !r.paused && r.position == m.position && r.direction == m.direction
  {
    m.(paused := false)
  }

  /** `n` consecutive frames. */
  function Run(m: Motion, n: nat, bottom: int): Motion
    requires bottom < 0
    decreases n
  {
    if n == 0 then m else Run(Advance(m, bottom), n - 1, bottom)
  }

  /** Frames keep the table within its bounds however many of them run. */
  lemma {:induction false} RunInBounds(m: Motion, n: nat, bottom: int)
    requires bottom < 0 && InBounds(m, bottom)
    ensures InBounds(Run(m, n, bottom), bottom)
    decreases n
  {
    if n > 0 {
      RunInBounds(Advance(m, bottom), n - 1, bottom);
    }
  }

  /**
   * Heading up unpaused from `p`, the table moves one unit per frame and reaches
   * the bottom bound, turned round and paused, after exactly `p - bottom` frames.
   */
  lemma {:induction false} Ascend(p: int, k: nat, bottom: int)
    requires bottom < p <= 0 && 0 < k <= p - bottom
    ensures Run(Motion(p, -1, false), k, bottom) ==
      if k < p - bottom then Motion(p - k, -1, false) else Motion(bottom, 1, true)
    decreases k
  {
    if p - 1 <= bottom {
      assert k == 1;
      assert Run(Motion(p, -1, false), k, bottom) == Run(Motion(bottom, 1, true), 0, bottom);
    } else if k > 1 {
      assert Advance(Motion(p, -1, false), bottom) == Motion(p - 1, -1, false);
      Ascend(p - 1, k - 1, bottom);
    }
  }

  /**
   * Heading down unpaused from `p`, the table reaches the top, turned round and
   * paused, after exactly `-p` frames.
   */
  lemma {:induction false} Descend(p: int, k: nat, bottom: int)
    requires bottom <= p < 0 && 0 < k <= -p
    ensures Run(Motion(p, 1, false), k, bottom) ==
      if k < -p then Motion(p + k, 1, false) else Motion(0, -1, true)
    decreases k
  {
    if p + 1 >= 0 {
      assert k == 1;
      assert Run(Motion(p, 1, false), k, bottom) == Run(Motion(0, -1, true), 0, bottom);
    } else if k > 1 {
      assert Advance(Motion(p, 1, false), bottom) == Motion(p + 1, 1, false);
      Descend(p + 1, k - 1, bottom);
    }
  }

  /**
   * A full boomerang: from the starting state, after its pause, `-bottom` frames
   * reach the bottom; after that pause, `-bottom` frames bring the table back to
   * the starting state.
   */
  lemma FullCycle(bottom: int)
    requires bottom < 0
    ensures Run(Resume(Start()), -bottom, bottom) == Motion(bottom, 1, true)
    ensures Run(Resume(Motion(bottom, 1, true)), -bottom, bottom) == Start()
  {
    Ascend(0, -bottom, bottom);
    Descend(bottom, -bottom, bottom);
  }

  /**
   * The scroller of one view. `generation` counts the calls that cancel the
   * pending frame; a pause timer carries the generation it was set in, and a timer
   * of an earlier generation belongs to a closure no frame runs any more.
   */
  class Boomerang {
    var motion: Motion
    var bottom: int
    /** A frame is requested (`scrollAnimationId` is live). */
    var running: bool
    /** The `translateY` last written, in half pixels. */
    var offset: int
    var generation: nat

    ghost predicate Valid()
      reads this
    {
      running ==> bottom < 0 && InBounds(motion, bottom)
    }

    constructor()
      ensures Valid() && !running && offset == 0 && generation == 0
    {
      motion := Start();
      bottom := 0;
      running := false;
      offset := 0;
      generation := 0;
    }

    /**
     * `setupAutoScroll`: nothing without a wrapper; otherwise cancel the pending
     * frame, then either stop (no table: reading its height throws), pin the
     * table at the top with no frame requested (it fits) or start a new
     * animation, paused at the top.
     */
    method Setup(wrapperPresent: bool, tablePresent: bool, wrapperHeight: nat, tableHeight: nat)
      requires Valid()
      modifies this
      ensures Valid()
      ensures !wrapperPresent ==> unchanged(this)
      ensures wrapperPresent ==> generation == old(generation) + 1
      ensures wrapperPresent && !tablePresent ==>
        !running && offset == old(offset) && motion == old(motion) && bottom == old(bottom)
      ensures wrapperPresent && tablePresent && tableHeight <= wrapperHeight ==>
        !running && offset == 0 && motion == old(motion) && bottom == old(bottom)
      ensures wrapperPresent && tablePresent && tableHeight > wrapperHeight ==>
        running && motion == Start() && bottom == Bottom(wrapperHeight, tableHeight) && offset == old(offset)
    {
      if !wrapperPresent {
        return;
      }
      running := false;
      generation := generation + 1;
      if !tablePresent {
        return;
      }
      if tableHeight <= wrapperHeight {
        offset := 0;
        return;
      }
      motion := Start();
      bottom := Bottom(wrapperHeight, tableHeight);
      running := true;
    }

    /** `animateScroll`: advance, write the transform, request the next frame. */
    method Frame()
      requires Valid() && running
      modifies this
      ensures Valid() && running
      ensures motion == Advance(old(motion), bottom) && offset == motion.position
      ensures bottom == old(bottom) && generation == old(generation)
    {
      motion := Advance(motion, bottom);
      offset := motion.position;
    }

    /** A pause timer of generation `gen` firing. */
    method PauseElapsed(gen: nat)
      requires Valid()
      modifies this
      ensures Valid()
      ensures gen == old(generation) ==> motion == Resume(old(motion))
      ensures gen != old(generation) ==> motion == old(motion)
      ensures running == old(running) && bottom == old(bottom) && offset == old(offset)
      ensures generation == old(generation)
    {
      if gen == generation {
        motion := Resume(motion);
      }
    }
  }
}
