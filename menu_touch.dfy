/**
 * Touch gesture recognition of the menu system: one press is sampled until the
 * finger lifts, and the movement between the first and the last sample is
 * classified as a swipe in one of four directions, a click, or nothing.
 */
module MenuTouch {
  /** `uint16_t`, the type of a touch coordinate. */
  type U16 = x: int | 0 <= x < 0x1_0000

  /** A touch-controller reading. */
  datatype Point = Point(x: U16, y: U16)

  /** `touch_gesture`. */
  datatype Gesture = NoGesture | Click | Right | Left | Down | Up

  /** A movement of more than this many units along an axis is a swipe. */
  const SwipeThreshold: int := 60

  /**
   * Storing an `int` in an `int16_t`: the value is reduced modulo 2^16 into
   * [-32768, 32767] (the conversion the compilers for this target perform).
   */
  function ToInt16(v: int): (r: int)
    ensures -0x8000 <= r < 0x8000
    ensures (r - v) % 0x1_0000 == 0
    ensures -0x8000 <= v < 0x8000 ==> r == v
  {
    (v + 0x8000) % 0x1_0000 - 0x8000
  }

  function Abs(v: int): nat
  {
    if v < 0 then -v else v
  }

  /**
   * The decision of menu_touch_gesture on the two deltas, branch for branch: a
   * swipe needs one axis beyond the threshold and is taken along the strictly
   * larger axis; a movement within the threshold on both axes is a click; equal
   * movement along both axes beyond the threshold is no gesture.
   */
  function Classify(dx: int, dy: int): (g: Gesture)
    ensures g == Right <==> Abs(dx) > Abs(dy) && dx > SwipeThreshold
    ensures g == Left <==> Abs(dx) > Abs(dy) && dx < -SwipeThreshold
    ensures g == Down <==> Abs(dy) > Abs(dx) && dy > SwipeThreshold
    ensures g == Up <==> Abs(dy) > Abs(dx) && dy < -SwipeThreshold
    ensures g == Click <==> Abs(dx) <= SwipeThreshold && Abs(dy) <= SwipeThreshold
    ensures g == NoGesture <==> Abs(dx) == Abs(dy) > SwipeThreshold
  {
    if Abs(dx) > SwipeThreshold || Abs(dy) > SwipeThreshold then
      if Abs(dx) > Abs(dy) && dx > SwipeThreshold then Right
      else if Abs(dx) > Abs(dy) && dx < -SwipeThreshold then Left
      else if Abs(dx) < Abs(dy) && dy > SwipeThreshold then Down
      else if Abs(dx) < Abs(dy) && dy < -SwipeThreshold then Up
      else NoGesture
    else Click
  }

  /** What menu_touch_gesture returns and the values left in `*x` and `*y`. */
  datatype Outcome = Outcome(gesture: Gesture, x: U16, y: U16)

  /**
   * menu_touch_gesture after the sampling: `first` is the reading taken when the
   * press was seen, `last` the final reading of the sampling loop. The deltas are
   * stored in `int16_t`; only a click writes the last reading to `*x` and `*y`.
   */
  function Recognise(pressed: bool, first: Point, last: Point, x: U16, y: U16): (r: Outcome)
    ensures !pressed ==> r == Outcome(NoGesture, x, y)
    ensures pressed ==> r.gesture == Classify(ToInt16(last.x - first.x), ToInt16(last.y - first.y))
    ensures r.gesture == Click ==> r.x == last.x && r.y == last.y
    ensures r.gesture != Click ==> r.x == x && r.y == y
  {
    if !pressed then Outcome(NoGesture, x, y)
    else
      var g := Classify(ToInt16(last.x - first.x), ToInt16(last.y - first.y));
      if g == Click then Outcome(Click, last.x, last.y) else Outcome(g, x, y)
  }

  /**
   * menu_touch_gesture with the touch controller replaced by its readings:
   * `pressed` is the first poll, `first` the reading then taken, and `samples`
   * the readings taken by the loop that runs while the panel stays pressed.
   * `stale` is whatever X2 and Y2 hold when that loop does not run at all.
   */
  method MenuTouchGesture(pressed: bool, first: Point, samples: seq<Point>, stale: Point, x: U16, y: U16)
    returns (g: Gesture, newX: U16, newY: U16)
    ensures var last := if samples == [] then stale else samples[|samples| - 1];
      Outcome(g, newX, newY) == Recognise(pressed, first, last, x, y)
  {
    if !pressed {
      return NoGesture, x, y;
    }
    var x1, y1 := first.x, first.y;
    var x2, y2 := stale.x, stale.y;
    var i := 0;
    while i < |samples|
      invariant 0 <= i <= |samples|
      invariant Point(x2, y2) == if i == 0 then stale else samples[i - 1]
    {
      x2, y2 := samples[i].x, samples[i].y;
      i := i + 1;
    }
    var dx := ToInt16(x2 as int - x1 as int);
    var dy := ToInt16(y2 as int - y1 as int);
    ghost var last := Point(x2, y2);
    assert last == if samples == [] then stale else samples[|samples| - 1];
    assert Recognise(true, first, last, x, y) ==
      if Classify(dx, dy) == Click then Outcome(Click, x2, y2) else Outcome(Classify(dx, dy), x, y);
    if Abs(dx) > SwipeThreshold || Abs(dy) > SwipeThreshold {
      if Abs(dx) > Abs(dy) {
        if dx > SwipeThreshold {
          return Right, x, y;
        }
        if dx < -SwipeThreshold {
          return Left, x, y;
        }
      }
      if Abs(dx) < Abs(dy) {
        if dy > SwipeThreshold {
          return Down, x, y;
        }
        if dy < -SwipeThreshold {
          return Up, x, y;
        }
      }
    } else {
      return Click, x2, y2;
    }
    return NoGesture, x, y;
  }

  /** Mirroring the movement left to right swaps Left and Right and keeps every other gesture. */
  lemma MirrorSwapsLeftRight(dx: int, dy: int)
    ensures Classify(-dx, dy) == match Classify(dx, dy)
      case Right => Left
      case Left => Right
      case other => other
  {
    assert Abs(-dx) == Abs(dx);
  }

  /** Swapping the axes turns horizontal swipes into vertical ones and back. */
  lemma TransposeSwapsAxes(dx: int, dy: int)
    ensures Classify(dy, dx) == match Classify(dx, dy)
      case Right => Down
      case Down => Right
      case Left => Up
      case Up => Left
      case other => other
  {
  }

  /**
   * On a panel whose coordinates stay below 32768 (the controller delivers 12-bit
   * readings) the `int16_t` deltas are the true movement, so a swipe to the right
   * is reported exactly when the finger moved right by more than the threshold and
   * further than it moved vertically.
   */
  lemma SmallPanelDeltasExact(first: Point, last: Point, x: U16, y: U16)
    requires first.x < 0x8000 && first.y < 0x8000 && last.x < 0x8000 && last.y < 0x8000
    ensures Recognise(true, first, last, x, y).gesture == Classify(last.x - first.x, last.y - first.y)
    ensures Recognise(true, first, last, x, y).gesture == Right <==>
      last.x - first.x > SwipeThreshold && Abs(last.x - first.x) > Abs(last.y - first.y)
  {
  }

  /**
   * With coordinates of 32768 and more the `int16_t` delta wraps: a movement of
   * 40000 to the right is stored as -25536 and reported as a swipe to the left.
   */
  lemma WideDeltaWraps()
    ensures Recognise(true, Point(0, 0), Point(40000, 0), 0, 0).gesture == Left
  {
    assert (40000 + 0x8000) % 0x1_0000 == 7232;
    assert ToInt16(40000) == -25536;
    assert Classify(-25536, 0) == Left;
  }
}
