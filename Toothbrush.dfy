/**
  The toothbrushing game (src/components/ToothbrushGame.jsx).
  Step 0: the toothpaste is dragged onto the bristles of the brush; releasing
  it over the bristles applies the paste. Step 1: the brush is dragged over the
  teeth and a stroke is counted each time the vertical direction reverses by
  more than 15px inside the teeth area; 20 strokes win.
 */
module Toothbrush {
  import opened Wrappers
  import opened Geometry

  const BristlesWidthPortion: real := 0.30
  const BristlesHeightPortion: real := 0.55
  const BristlesTopOffsetPortion: real := -0.30
  const RequiredBrushStrokes: nat := 20
  /** Minimum vertical movement, in pixels, that counts as a brushing movement. */
  const StrokeThreshold: real := 15.0

  /** The bristles hit box: the right 30% of the brush, from 30% above its top to 25% below it. */
  function BristlesRect(brush: Rect): (r: Rect)
    ensures r.right == brush.right && r.Width() == 0.30 * brush.Width()
    ensures r.top == brush.top - 0.30 * brush.Height() && r.bottom == brush.top + 0.25 * brush.Height()
  {
    var top := brush.top + brush.Height() * BristlesTopOffsetPortion;
    var width := brush.Width() * BristlesWidthPortion;
    var height := brush.Height() * BristlesHeightPortion;
    Rect(brush.right - width, top, brush.right, top + height)
  }

  /** The teeth area: the middle half of the head horizontally, 38%..68% of it vertically. */
  function TeethArea(head: Rect): (r: Rect)
    ensures r.left == head.left + 0.25 * head.Width() && r.right == head.left + 0.75 * head.Width()
    ensures r.top == head.top + 0.38 * head.Height() && r.bottom == head.top + 0.68 * head.Height()
  {
    Rect(head.left + head.Width() * 0.25, head.top + head.Height() * 0.38,
         head.right - head.Width() * 0.25, head.top + head.Height() * 0.68)
  }

  /** The hit test is inclusive: the four corners of a rectangle are over it. */
  lemma CornersAreInside(r: Rect)
    requires r.left <= r.right && r.top <= r.bottom
    ensures Contains(r, Point(r.left, r.top)) && Contains(r, Point(r.right, r.top))
    ensures Contains(r, Point(r.left, r.bottom)) && Contains(r, Point(r.right, r.bottom))
  {
  }

  datatype Direction = Up | Down

  /** The brushing recogniser's state: strokes so far, last recorded Y, last direction. */
  datatype Tracker = Tracker(strokes: nat, lastY: Option<real>, direction: Option<Direction>)

  /** The direction a vertical movement goes in (screen Y grows downwards). */
  function DirectionOf(deltaY: real): Direction {
    if deltaY < 0.0 then Up else Down
  }

  /** Whether a move to height `y` counts as a stroke: a reversal of more than the threshold. */
  predicate IsReversal(t: Tracker, y: real) {
    && t.lastY.Some? && Abs(y - t.lastY.value) > StrokeThreshold
    && t.direction.Some? && t.direction.value != DirectionOf(y - t.lastY.value)
  }

  /** The effect of one pointer move in step 1 on the recogniser. */
  function TrackMove(t: Tracker, y: real, overTeeth: bool): (r: Tracker)
    ensures r.strokes == (if overTeeth && IsReversal(t, y) then t.strokes + 1 else t.strokes)
    ensures !overTeeth ==> r == t
    ensures t.lastY.Some? && Abs(y - t.lastY.value) <= StrokeThreshold ==> r == t
    ensures overTeeth && t.lastY.None? ==> r == t.(lastY := Some(y))
    ensures overTeeth && t.lastY.Some? && Abs(y - t.lastY.value) > StrokeThreshold ==>
              r.lastY == Some(y) && r.direction == Some(DirectionOf(y - t.lastY.value))
  {
    if overTeeth && t.lastY.Some? then
      var deltaY := y - t.lastY.value;
      if Abs(deltaY) > StrokeThreshold then
        var newDirection := DirectionOf(deltaY);
        var strokes := if t.direction.Some? && t.direction.value != newDirection then t.strokes + 1 else t.strokes;
        Tracker(strokes, Some(y), Some(newDirection))
      else t
    else if overTeeth then t.(lastY := Some(y))
    else t
  }

  /** The recogniser's state right after a pointer-up: the count is kept, the rest forgotten. */
  function Released(t: Tracker): (r: Tracker)
    ensures r.strokes == t.strokes && r.lastY.None? && r.direction.None?
  {
    Tracker(t.strokes, None, None)
  }

  /** The first qualifying move after entering the teeth area, or after a pointer-up, counts nothing. */
  lemma FirstMoveNeverCounts(t: Tracker, y0: real, y1: real, overTeeth: bool)
    requires t.direction.None?
    ensures TrackMove(t, y1, overTeeth).strokes == t.strokes
    ensures TrackMove(Released(t), y0, true) == Released(t).(lastY := Some(y0))
  {
  }

  /** A sampled pointer position during one drag: its height and whether it is over the teeth. */
  datatype Sample = Sample(y: real, overTeeth: bool)

  function TrackAll(t: Tracker, samples: seq<Sample>): Tracker
    decreases |samples|
  {
    if samples == [] then t else TrackAll(TrackMove(t, samples[0].y, samples[0].overTeeth), samples[1..])
  }

  /** Strokes plus the recorded position and direction: one move adds at most one to it. */
  function Credit(t: Tracker): nat {
    t.strokes + (if t.lastY.Some? then 1 else 0) + (if t.direction.Some? then 1 else 0)
  }

  predicate Consistent(t: Tracker) {
    t.direction.Some? ==> t.lastY.Some?
  }

  lemma {:induction false} CreditBound(t: Tracker, samples: seq<Sample>)
    requires Consistent(t)
    ensures Consistent(TrackAll(t, samples))
    ensures Credit(TrackAll(t, samples)) <= Credit(t) + |samples|
    ensures TrackAll(t, samples).strokes >= t.strokes
    ensures TrackAll(t, samples).strokes > t.strokes ==> TrackAll(t, samples).direction.Some?
    ensures t.direction.Some? ==> TrackAll(t, samples).direction.Some?
    decreases |samples|
  {
    if samples != [] {
      var t' := TrackMove(t, samples[0].y, samples[0].overTeeth);
      assert Credit(t') <= Credit(t) + 1;
      assert t'.strokes > t.strokes ==> t'.direction.Some?;
      CreditBound(t', samples[1..]);
    }
  }

  /**
    Within one drag started afresh, every stroke costs a move: n strokes need at
    least n + 2 moves (one to record the height, one to set a direction).
   */
  lemma StrokesNeedMoves(strokes: nat, samples: seq<Sample>, n: nat)
    requires n >= 1
    requires TrackAll(Tracker(strokes, None, None), samples).strokes >= strokes + n
    ensures |samples| >= n + 2
  {
    CreditBound(Tracker(strokes, None, None), samples);
  }

  /** Brushing up and down by `d` > 15px from height `y0`, starting downwards. */
  function Zigzag(y0: real, d: real, k: nat): seq<Sample>
    decreases k
  {
    if k == 0 then [] else Zigzag(y0, d, k - 1) + [Sample(if k % 2 == 1 then y0 + d else y0, true)]
  }

  lemma {:induction false} TrackAllAppend(t: Tracker, a: seq<Sample>, s: Sample)
    ensures TrackAll(t, a + [s]) == TrackMove(TrackAll(t, a), s.y, s.overTeeth)
    decreases |a|
  {
    if a == [] {
      assert a + [s] == [s];
    } else {
      assert (a + [s])[1..] == a[1..] + [s];
      TrackAllAppend(TrackMove(t, a[0].y, a[0].overTeeth), a[1..], s);
    }
  }

  /** After entering at `y0`, k up-and-down moves of more than 15px give k - 1 strokes. */
  lemma {:induction false} ZigzagStrokes(strokes: nat, y0: real, d: real, k: nat)
    requires d > StrokeThreshold
    ensures var t := TrackAll(Tracker(strokes, Some(y0), None), Zigzag(y0, d, k));
            && t.strokes == (if k == 0 then strokes else strokes + k - 1)
            && t.lastY == Some(if k % 2 == 1 then y0 + d else y0)
            && (k > 0 ==> t.direction == Some(if k % 2 == 1 then Down else Up))
            && (k == 0 ==> t.direction == None)
    decreases k
  {
    if k > 0 {
      ZigzagStrokes(strokes, y0, d, k - 1);
      TrackAllAppend(Tracker(strokes, Some(y0), None), Zigzag(y0, d, k - 1),
                     Sample(if k % 2 == 1 then y0 + d else y0, true));
    }
  }

  /** How clean the teeth look: 0 in step 0, then the share of the 20 strokes done, at most 1. */
  function Cleanliness(step: nat, brushStrokes: nat): (c: real)
    ensures 0.0 <= c <= 1.0
    ensures step != 1 ==> c == 0.0
    ensures c == 1.0 <==> step == 1 && brushStrokes >= RequiredBrushStrokes
  {
    if step == 1 then Min(brushStrokes as real / RequiredBrushStrokes as real, 1.0) else 0.0
  }

  lemma CleanlinessMonotone(step: nat, a: nat, b: nat)
    requires a <= b
    ensures Cleanliness(step, a) <= Cleanliness(step, b)
  {
  }

  class ToothbrushGame {
    var step: nat
    var hasPaste: bool
    var dragging: bool
    var cursorPos: Point
    var overBristles: bool
    var showSuccess: bool
    var cleared: bool
    var brushPos: Point
    var brushing: bool
    var brushStrokes: nat
    var lastBrushY: Option<real>
    var brushDirection: Option<Direction>
    /** The 1.2s timer that the paste timer schedules to move on to step 1. */
    var pasteClearPending: bool

    ghost predicate Valid()
      reads this
    {
      step <= 1 && Consistent(Brush())
    }

    function Brush(): Tracker
      reads this
    {
      Tracker(brushStrokes, lastBrushY, brushDirection)
    }

    constructor ()
      ensures Valid()
      ensures step == 0 && !hasPaste && !dragging && !overBristles && !showSuccess && !cleared
      ensures !brushing && Brush() == Tracker(0, None, None) && !pasteClearPending
    {
      step := 0;
      hasPaste, dragging, overBristles, showSuccess, cleared := false, false, false, false, false;
      cursorPos, brushPos := Point(0.0, 0.0), Point(0.0, 0.0);
      brushing := false;
      brushStrokes, lastBrushY, brushDirection := 0, None, None;
      pasteClearPending := false;
    }

    /** `startDrag`: picking up the toothpaste, only in step 0 and before paste is applied. */
    method StartDrag(p: Point)
      modifies this`dragging, this`cursorPos
      ensures hasPaste || step != 0 ==> dragging == old(dragging) && cursorPos == old(cursorPos)
      ensures !hasPaste && step == 0 ==> dragging && cursorPos == p
    {
      if hasPaste || step != 0 {
        return;
      }
      dragging := true;
      cursorPos := p;
    }

    /** `startBrushing`: picking up the brush, only in step 1. */
    method StartBrushing(p: Point)
      modifies this`brushing, this`brushPos
      ensures step != 1 ==> brushing == old(brushing) && brushPos == old(brushPos)
      ensures step == 1 ==> brushing && brushPos == p
    {
      if step != 1 {
        return;
      }
      brushing := true;
      brushPos := p;
    }

    /**
      `handleMove` for a pointer at `p`; `brushRect` and `headRect` are the
      measured images, None while they are not mounted.
     */
    method HandleMove(p: Point, brushRect: Option<Rect>, headRect: Option<Rect>)
      requires Valid()
      modifies this`cursorPos, this`overBristles, this`brushPos, this`brushStrokes, this`lastBrushY,
               this`brushDirection
      ensures Valid()
      ensures old(step == 0 && dragging) ==>
                && cursorPos == p
                && overBristles == (if brushRect.Some? then Contains(BristlesRect(brushRect.value), p)
                                    else old(overBristles))
                && Brush() == old(Brush()) && brushPos == old(brushPos)
      ensures old(!(step == 0 && dragging) && step == 1 && brushing) ==>
                && brushPos == p
                && Brush() == (if headRect.Some? then TrackMove(old(Brush()), p.y, Contains(TeethArea(headRect.value), p))
                               else old(Brush()))
                && cursorPos == old(cursorPos) && overBristles == old(overBristles)
      ensures old(!(step == 0 && dragging) && !(step == 1 && brushing)) ==>
                && cursorPos == old(cursorPos) && overBristles == old(overBristles)
                && brushPos == old(brushPos) && Brush() == old(Brush())
      ensures brushStrokes >= old(brushStrokes)
    {
      if step == 0 && dragging {
        cursorPos := p;
        if brushRect.Some? {
          overBristles := Contains(BristlesRect(brushRect.value), p);
        }
      } else if step == 1 && brushing {
        brushPos := p;
        if headRect.Some? {
          var overTeeth := Contains(TeethArea(headRect.value), p);
          if overTeeth && lastBrushY.Some? {
            var deltaY := p.y - lastBrushY.value;
            if Abs(deltaY) > StrokeThreshold {
              var newDirection := DirectionOf(deltaY);
              if brushDirection.Some? && brushDirection.value != newDirection {
                brushStrokes := brushStrokes + 1;
              }
              brushDirection := Some(newDirection);
              lastBrushY := Some(p.y);
            }
          } else if overTeeth {
            lastBrushY := Some(p.y);
          }
        }
      }
    }

    /**
      `handleUp`: in step 0 the drop applies the paste iff the last move was over
      the bristles; in step 1 the brush is put down and the recogniser forgets the
      last height and direction but keeps the count.
     */
    method HandleUp()
      requires Valid()
      modifies this`hasPaste, this`dragging, this`overBristles, this`brushing, this`lastBrushY, this`brushDirection
      ensures Valid()
      ensures old(step == 0 && dragging) ==>
                && hasPaste == (old(hasPaste) || old(overBristles)) && !dragging && !overBristles
                && brushing == old(brushing) && Brush() == old(Brush())
      ensures old(!(step == 0 && dragging) && step == 1 && brushing) ==>
                && !brushing && Brush() == Released(old(Brush()))
                && hasPaste == old(hasPaste) && dragging == old(dragging) && overBristles == old(overBristles)
      ensures old(!(step == 0 && dragging) && !(step == 1 && brushing)) ==>
                && hasPaste == old(hasPaste) && dragging == old(dragging) && overBristles == old(overBristles)
                && brushing == old(brushing) && Brush() == old(Brush())
    {
      if step == 0 && dragging {
        if overBristles {
          hasPaste := true;
        }
        dragging := false;
        overBristles := false;
      } else if step == 1 && brushing {
        brushing := false;
        lastBrushY := None;
        brushDirection := None;
      }
    }

    /** The 1.5s timer armed while paste is applied in step 0: the success overlay shows. */
    method PasteShowTimerFires()
      modifies this`showSuccess, this`pasteClearPending
      ensures hasPaste && step == 0 ==> showSuccess && pasteClearPending
      ensures !(hasPaste && step == 0) ==> showSuccess == old(showSuccess) && pasteClearPending == old(pasteClearPending)
    {
      if hasPaste && step == 0 {
        showSuccess := true;
        pasteClearPending := true;
      }
    }

    /** The 1.2s timer that follows: the overlay hides and the game moves to step 1. */
    method PasteClearTimerFires()
      requires Valid()
      modifies this`showSuccess, this`step, this`pasteClearPending
      ensures Valid()
      ensures old(pasteClearPending) ==> !showSuccess && step == 1 && !pasteClearPending
      ensures !old(pasteClearPending) ==> showSuccess == old(showSuccess) && step == old(step)
    {
      if pasteClearPending {
        showSuccess := false;
        step := 1;
        pasteClearPending := false;
      }
    }

    /** The effect on the stroke count: from 20 strokes in step 1 the success overlay shows. */
    method StrokesEffect()
      modifies this`showSuccess
      ensures step == 1 && brushStrokes >= RequiredBrushStrokes ==> showSuccess
      ensures !(step == 1 && brushStrokes >= RequiredBrushStrokes) ==> showSuccess == old(showSuccess)
    {
      if step == 1 && brushStrokes >= RequiredBrushStrokes {
        showSuccess := true;
      }
    }

    /** Its 1.2s timer: the game is cleared. */
    method ClearedTimerFires()
      modifies this`cleared
      ensures cleared == (old(cleared) || (step == 1 && brushStrokes >= RequiredBrushStrokes))
    {
      if step == 1 && brushStrokes >= RequiredBrushStrokes {
        cleared := true;
      }
    }
  }
}
