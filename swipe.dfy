/**
 * useSwipe: a horizontal-swipe recogniser over touch events. The hook's
 * refs are the fields of a Swipe object; which callback fires at the end
 * of a gesture is the result of TouchEnd.
 */
module SwipeGesture {
  import opened Js

  /** The callback a gesture ends in, if any. */
  datatype SwipeEvent = NoSwipe | SwipeLeft | SwipeRight

  /**
   * The decision at the end of a gesture: far enough sideways and not too
   * far up or down; the sign of dx picks the side, 0 counting as right.
   */
  function Classify(dx: real, dy: real, threshold: real, maxVertical: real): (e: SwipeEvent)
    ensures e == SwipeLeft <==> dx < 0.0 && Abs(dx) >= threshold && Abs(dy) <= maxVertical
    ensures e == SwipeRight <==> dx >= 0.0 && Abs(dx) >= threshold && Abs(dy) <= maxVertical
  {
    if Abs(dx) >= threshold && Abs(dy) <= maxVertical then
      if dx < 0.0 then SwipeLeft else SwipeRight
    else NoSwipe
  }

  /** A tap (no movement) fires nothing while the threshold is positive. */
  lemma TapFiresNothing(dy: real, threshold: real, maxVertical: real)
    requires threshold > 0.0
    ensures Classify(0.0, dy, threshold, maxVertical) == NoSwipe
  {
  }

  /** Mirroring a gesture that moved sideways swaps left and right. */
  lemma ClassifyMirror(dx: real, dy: real, threshold: real, maxVertical: real)
    requires dx != 0.0
    ensures Classify(dx, dy, threshold, maxVertical) == SwipeLeft <==>
              Classify(-dx, dy, threshold, maxVertical) == SwipeRight
  {
  }

  const DEFAULT_THRESHOLD: real := 50.0
  const DEFAULT_MAX_VERTICAL: real := 100.0

  class Swipe {
    const threshold: real
    const maxVertical: real
    var startX: real
    var startY: real
    var lastX: real
    var lastY: real
    var tracking: bool

    /** The hook's refs start at 0 and not tracking; missing options take their defaults. */
    constructor(threshold: Option<real>, maxVertical: Option<real>)
      ensures this.threshold == (if threshold.Some? then threshold.value else DEFAULT_THRESHOLD)
      ensures this.maxVertical == (if maxVertical.Some? then maxVertical.value else DEFAULT_MAX_VERTICAL)
      ensures startX == 0.0 && startY == 0.0 && lastX == 0.0 && lastY == 0.0 && !tracking
    {
      this.threshold := if threshold.Some? then threshold.value else DEFAULT_THRESHOLD;
      this.maxVertical := if maxVertical.Some? then maxVertical.value else DEFAULT_MAX_VERTICAL;
      startX, startY, lastX, lastY := 0.0, 0.0, 0.0, 0.0;
      tracking := false;
    }

    /** handleTouchStart: the first touch point becomes both the start and the last point. */
    method TouchStart(x: real, y: real)
      modifies this
      ensures startX == x && startY == y && lastX == x && lastY == y && tracking
    {
      startX, startY := x, y;
      lastX, lastY := x, y;
      tracking := true;
    }

    /** handleTouchMove: the last point follows the touch only while a gesture is tracked. */
    method TouchMove(x: real, y: real)
      modifies this
      ensures tracking == old(tracking) && startX == old(startX) && startY == old(startY)
      ensures old(tracking) ==> lastX == x && lastY == y
      ensures !old(tracking) ==> lastX == old(lastX) && lastY == old(lastY)
    {
      if !tracking {
        return;
      }
      lastX, lastY := x, y;
    }

    /**
     * handleTouchEnd: outside a gesture nothing happens; otherwise the
     * gesture ends and its displacement picks at most one callback.
     */
    method TouchEnd() returns (fired: SwipeEvent)
      modifies this
      ensures !tracking
      ensures startX == old(startX) && startY == old(startY) && lastX == old(lastX) && lastY == old(lastY)
      ensures !old(tracking) ==> fired == NoSwipe
      ensures old(tracking) ==> fired == Classify(lastX - startX, lastY - startY, threshold, maxVertical)
    {
      if !tracking {
        return NoSwipe;
      }
      tracking := false;
      var dx := lastX - startX;
      var dy := lastY - startY;
      fired := NoSwipe;
      if Abs(dx) >= threshold && Abs(dy) <= maxVertical {
        if dx < 0.0 {
          fired := SwipeLeft;
        } else {
          fired := SwipeRight;
        }
      }
    }
  }

  /** A touch with no move followed by two ends fires nothing, with the default options. */
  method TapThenEndTwice(x: real, y: real) returns (first: SwipeEvent, second: SwipeEvent)
    ensures first == NoSwipe && second == NoSwipe
  {
    var s := new Swipe(None, None);
    s.TouchStart(x, y);
    first := s.TouchEnd();
    second := s.TouchEnd();
  }
}
