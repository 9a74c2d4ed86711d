/**
 * Gesture interpretation of the birthday page: how a finished touch gesture,
 * a mouse drag or a key press becomes a navigation intent, and when two
 * touchends make a double tap.  Everything here is a pure function of the
 * sampled input; the page object (module Website) feeds its stored samples in.
 */
module Gestures {

  /** minSwipeDistance of the page object, in CSS pixels. */
  const MinSwipeDistance: int := 50
  /** Horizontal movement a touchmove must exceed to count as a drag. */
  const DragThreshold: int := 10
  /** A touch gesture must end strictly before this many milliseconds. */
  const MaxSwipeDurationMs: int := 500

  /** Two touchends closer than this many milliseconds make a double tap. */
  const DoubleTapWindowMs: int := 500

  /** What a gesture asks of the slide deck. */
  datatype Intent = Next | Previous | Ignore

  function Abs(x: int): (r: nat)
    ensures r == x || r == -x
  {
    if x < 0 then -x else x
  }

  /**
   * The classification of handleSwipe, on deltaX = startX - endX and
   * deltaY = startY - endY: vertical dominance first, then the minimum
   * distance, then the sign of deltaX.
   */
  function SwipeIntent(deltaX: int, deltaY: int): (r: Intent)
    ensures r == Next <==> deltaX >= MinSwipeDistance && Abs(deltaY) <= deltaX
    ensures r == Previous <==> deltaX <= -MinSwipeDistance && Abs(deltaY) <= -deltaX
  {
    if Abs(deltaY) > Abs(deltaX) then Ignore
    else if Abs(deltaX) < MinSwipeDistance then Ignore
    else if deltaX > 0 then Next
    else Previous
  }

  /** The test one touchmove applies before it sets the drag flag. */
  predicate IsDragMove(deltaX: int, deltaY: int)
  {
    Abs(deltaX) > Abs(deltaY) && Abs(deltaX) > DragThreshold
  }

  /**
   * The whole touch pipeline of one gesture: the touchend handler hands the
   * gesture to the classification only when it was quick and dragged.
   */
  function TouchIntent(startX: int, startY: int, endX: int, endY: int, durationMs: int, dragged: bool): (r: Intent)
    ensures r != Ignore <==>
      durationMs < MaxSwipeDurationMs && dragged &&
      Abs(startX - endX) >= MinSwipeDistance && Abs(startY - endY) <= Abs(startX - endX)
    ensures r == Next ==> endX < startX
    ensures r == Previous ==> startX < endX
  {
    if durationMs < MaxSwipeDurationMs && dragged then SwipeIntent(startX - endX, startY - endY) else Ignore
  }

  /**
   * The mouseup rule, on deltaX = endX - startX (the opposite sign convention
   * to the touch rule): strictly more than the minimum distance, a drag to
   * the right goes back, a drag to the left goes forward.  No vertical and
   * no time check.
   */
  function MouseIntent(deltaX: int): (r: Intent)
    ensures r == Next <==> deltaX < -MinSwipeDistance
    ensures r == Previous <==> deltaX > MinSwipeDistance
  {
    if Abs(deltaX) > MinSwipeDistance then
      if deltaX > 0 then Previous else Next
    else Ignore
  }

  /** The keydown mapping: ArrowRight and the space bar go forward, ArrowLeft back. */
  function KeyIntent(key: string): (r: Intent)
    ensures r == Next <==> key == "ArrowRight" || key == " "
    ensures r == Previous <==> key == "ArrowLeft"
  {
    if key == "ArrowRight" || key == " " then Next
    else if key == "ArrowLeft" then Previous
    else Ignore
  }

  /** The double-tap test on the time since the previous touchend. */
  predicate IsDoubleTap(tapLengthMs: int)
  {
    0 < tapLengthMs < DoubleTapWindowMs
  }

  /**
   * Both pointer rules send a leftward drag forward and a rightward drag back:
   * on a purely horizontal movement they agree everywhere except at exactly
   * the minimum distance, where the touch rule navigates and the mouse rule
   * does not.
   */
  lemma TouchAndMouseAgreeOffThreshold(startX: int, endX: int)
    ensures Abs(startX - endX) != MinSwipeDistance ==>
      SwipeIntent(startX - endX, 0) == MouseIntent(endX - startX)
    ensures Abs(startX - endX) == MinSwipeDistance ==>
      SwipeIntent(startX - endX, 0) != Ignore && MouseIntent(endX - startX) == Ignore
  {
  }

  /** A diagonal movement (equal axes) of at least the minimum distance still navigates. */
  lemma DiagonalSwipeNavigates(deltaX: int, deltaY: int)
    requires Abs(deltaY) == Abs(deltaX) >= MinSwipeDistance
    ensures SwipeIntent(deltaX, deltaY) == if deltaX > 0 then Next else Previous
  {
  }

  /** A touch that never moved, or moved too little, never navigates, however quick. */
  lemma SmallTouchIgnored(startX: int, startY: int, endX: int, endY: int, durationMs: int, dragged: bool)
    requires Abs(startX - endX) < MinSwipeDistance
    ensures TouchIntent(startX, startY, endX, endY, durationMs, dragged) == Ignore
  {
  }

  /** Sample gestures: a quick leftward drag, a vertical one, and a slow one. */
  lemma SampleGestures()
    ensures TouchIntent(100, 50, 20, 55, 200, true) == Next
    ensures TouchIntent(100, 50, 90, 150, 200, true) == Ignore
    ensures TouchIntent(100, 50, 20, 55, 600, true) == Ignore
    ensures TouchIntent(100, 50, 20, 55, 200, false) == Ignore
    ensures TouchIntent(100, 50, 20, 55, 0, true) == Next
  {
  }
}
