/**
 * The scrolling test (test_scrolling.c): a camera over a 64 x 32 tile map that the D-pad moves
 * two pixels per frame, clamped so the 320 x 224 screen stays inside the map. The scroll
 * registers of plane A are modelled as two fields the test writes.
 */
module Scrolling {

  const ScrollingMapWidth: int := 64
  const ScrollingMapHeight: int := 32
  const ScreenWidth: int := 320
  const ScreenHeight: int := 224
  const ScrollSpeed: int := 2

  /** MAX_SCROLL_X and MAX_SCROLL_Y: the map in pixels less the screen. */
  const MaxScrollX: int := ScrollingMapWidth * 8 - ScreenWidth
  const MaxScrollY: int := ScrollingMapHeight * 8 - ScreenHeight

  lemma ScrollLimits()
    ensures MaxScrollX == 192 && MaxScrollY == 32
  {
  }

  /**
   * One axis of `scrolling_test_update`: the decreasing direction first, clamped at 0, then the
   * increasing one, clamped at `limit`.
   */
  function StepAxis(v: int, minus: bool, plus: bool, limit: int): int {
    var a := if minus then (if v - ScrollSpeed < 0 then 0 else v - ScrollSpeed) else v;
    if plus then (if a + ScrollSpeed > limit then limit else a + ScrollSpeed) else a
  }

  /** Left or up alone: two pixels back, not below 0. Right or down alone: two on, not past the limit. */
  lemma SingleDirection(v: int, limit: int)
    ensures StepAxis(v, true, false, limit) == if v - 2 < 0 then 0 else v - 2
    ensures StepAxis(v, false, true, limit) == if v + 2 > limit then limit else v + 2
    ensures StepAxis(v, false, false, limit) == v
  {
  }

  /** An axis within [0, limit] stays there and moves by at most two pixels. */
  lemma StepAxisBounds(v: int, minus: bool, plus: bool, limit: int)
    requires 0 <= v <= limit
    ensures 0 <= StepAxis(v, minus, plus, limit) <= limit
    ensures -ScrollSpeed <= StepAxis(v, minus, plus, limit) - v <= ScrollSpeed
  {
  }

  /**
   * Both directions of an axis held: the clamp at 0 comes first, so the camera cancels out
   * only from 2 on; from 0 or 1 it ends at 2.
   */
  lemma BothDirections(v: int, limit: int)
    requires 0 <= v <= limit && 2 <= limit
    ensures StepAxis(v, true, true, limit) == if v < 2 then 2 else v
  {
  }

  /** The statics `scroll_x_px` and `scroll_y_px`, and the horizontal and vertical scroll of plane A. */
  class ScrollingTest {
    var scrollX: int
    var scrollY: int
    var hScroll: int
    var vScroll: int

    ghost predicate Valid()
      reads this
    {
      0 <= scrollX <= MaxScrollX && 0 <= scrollY <= MaxScrollY
    }

    /** The zero-initialised statics and registers. */
    constructor()
      ensures Valid() && scrollX == 0 && scrollY == 0 && hScroll == 0 && vScroll == 0
    {
      scrollX, scrollY := 0, 0;
      hScroll, vScroll := 0, 0;
    }

    /** scrolling_test_init: the camera at the map's top-left corner, and the registers with it. */
    method Init()
      modifies this
      ensures Valid() && scrollX == 0 && scrollY == 0 && hScroll == 0 && vScroll == 0
    {
      scrollX := 0;
      scrollY := 0;
      hScroll := scrollX;
      vScroll := scrollY;
    }

    /**
     * scrolling_test_update, with the fresh presses of the four D-pad directions this frame:
     * each axis steps and clamps, and the registers receive the new position.
     */
    method Update(left: bool, right: bool, up: bool, down: bool)
      requires Valid()
      modifies this
      ensures Valid()
      ensures scrollX == StepAxis(old(scrollX), left, right, MaxScrollX)
      ensures scrollY == StepAxis(old(scrollY), up, down, MaxScrollY)
      ensures hScroll == scrollX && vScroll == scrollY
    {
      if left {
        scrollX := scrollX - ScrollSpeed;
        if scrollX < 0 {
          scrollX := 0;
        }
      }
      if right {
        scrollX := scrollX + ScrollSpeed;
        if scrollX > MaxScrollX {
          scrollX := MaxScrollX;
        }
      }
      if up {
        scrollY := scrollY - ScrollSpeed;
        if scrollY < 0 {
          scrollY := 0;
        }
      }
      if down {
        scrollY := scrollY + ScrollSpeed;
        if scrollY > MaxScrollY {
          scrollY := MaxScrollY;
        }
      }
      hScroll := scrollX;
      vScroll := scrollY;
      StepAxisBounds(old(scrollX), left, right, MaxScrollX);
      StepAxisBounds(old(scrollY), up, down, MaxScrollY);
    }

    /** scrolling_test_on_exit: both registers back to 0; the camera statics keep their values. */
    method OnExit()
      modifies this
      ensures hScroll == 0 && vScroll == 0 && scrollX == old(scrollX) && scrollY == old(scrollY)
    {
      hScroll := 0;
      vScroll := 0;
    }
  }
}
