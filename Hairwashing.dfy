/**
  The hairwashing game (src/components/HairwashingGame.jsx): seven steps done in
  order (brush, wet, shampoo, scrub, rinse, towel, blow-dry), each finished once
  its progress reaches 100 percent; scrubbing leaves foam bubbles that rinsing
  washes away.
 */
module Hairwashing {
  import opened Wrappers
  import opened Decimal
  import opened Geometry
  import ScoreTier
  import GameCompletion

  const Brush: nat := 0
  const Wet: nat := 1
  const Shampoo: nat := 2
  const Scrub: nat := 3
  const Rinse: nat := 4
  const Towel: nat := 5
  const Blowdry: nat := 6
  const Complete: nat := 7

  /** Every step's target percentage. */
  const TargetPercent: real := 100.0
  /** At most this many foam bubbles stay on the hair. */
  const FoamCap: nat := 40
  /** A rinse move washes away the bubbles within this many pixels of the cursor... */
  const RinseRadius: real := 50.0
  /** ...and the effects it then spawns clear those within this many. */
  const RinseEffectRadius: real := 60.0

  /** `formatTime`: minutes and seconds, each padded with zeros to two digits, joined by a colon. */
  function FormatTime(seconds: nat): (t: string)
    ensures |t| >= 5 && t[|t| - 3] == ':'
    ensures seconds < 6000 ==> |t| == 5
    ensures t[..|t| - 3] == PadStart(NatToString(seconds / 60), 2, '0')
    ensures t[|t| - 2..] == PadStart(NatToString(seconds % 60), 2, '0')
  {
    FieldsShort(seconds);
    Colon(PadStart(NatToString(seconds / 60), 2, '0'), PadStart(NatToString(seconds % 60), 2, '0'))
  }

  /** Minutes, a colon and two-character seconds: the colon is third from the end. */
  function Colon(mm: string, ss: string): (t: string)
    requires |ss| == 2
    ensures |t| == |mm| + 3 && t[|t| - 3] == ':' && t[..|t| - 3] == mm && t[|t| - 2..] == ss
  {
    var t := mm + ":" + ss;
    assert t[..|mm|] == mm;
    assert t[|mm| + 1..] == ss;
    t
  }

  /** The seconds always fit in two digits, and the minutes do below 100 minutes. */
  lemma FieldsShort(seconds: nat)
    ensures |NatToString(seconds % 60)| <= 2
    ensures seconds < 6000 ==> |NatToString(seconds / 60)| <= 2
  {
    TwoDigitsShort(seconds % 60);
    if seconds < 6000 {
      assert seconds / 60 < 100;
      TwoDigitsShort(seconds / 60);
    }
  }

  lemma TwoDigitsShort(n: nat)
    requires n < 100
    ensures |NatToString(n)| <= 2
  {
    if n >= 10 {
      assert NatToString(n) == NatToString(n / 10) + [DigitChar(n % 10)];
    }
  }

  /** Reads a `mm:ss` text back: digits, a colon, then exactly two digits below 60. */
  function ParseTime(t: string): (seconds: Option<nat>)
    ensures seconds.Some? ==> |t| >= 4 && t[|t| - 3] == ':'
  {
    if |t| >= 4 && t[|t| - 3] == ':' then
      match (ParseNat(t[..|t| - 3]), ParseNat(t[|t| - 2..]))
      case (Some(mins), Some(secs)) => if secs < 60 then Some(mins * 60 + secs) else None
      case _ => None
    else None
  }

  lemma PaddedValue(n: nat)
    ensures ParseNat(PadStart(NatToString(n), 2, '0')) == Some(n)
  {
    PadStartZerosValue(NatToString(n), 2);
    NatToStringValue(n);
  }

  lemma ParseJoined(a: string, b: string, mins: nat, secs: nat)
    requires |b| == 2 && ParseNat(a) == Some(mins) && ParseNat(b) == Some(secs) && secs < 60
    ensures ParseTime(a + ":" + b) == Some(mins * 60 + secs)
  {
    var t := a + ":" + b;
    assert t[..|t| - 3] == a;
    assert t[|t| - 2..] == b;
  }

  lemma FormatTimeRoundTrip(seconds: nat)
    ensures ParseTime(FormatTime(seconds)) == Some(seconds)
  {
    var mins := PadStart(NatToString(seconds / 60), 2, '0');
    var secs := PadStart(NatToString(seconds % 60), 2, '0');
    TwoDigitsShort(seconds % 60);
    PaddedValue(seconds / 60);
    PaddedValue(seconds % 60);
    ParseJoined(mins, secs, seconds / 60, seconds % 60);
  }

  /** Two different times never show the same text. */
  lemma FormatTimeInjective(a: nat, b: nat)
    requires FormatTime(a) == FormatTime(b)
    ensures a == b
  {
    FormatTimeRoundTrip(a);
    FormatTimeRoundTrip(b);
  }

  /** A foam bubble left on the hair by scrubbing. */
  datatype Bubble = Bubble(x: real, y: real, size: real)

  function Center(b: Bubble): Point {
    Point(b.x, b.y)
  }

  /** Whether a bubble lies strictly farther than `radius` from `p`. */
  predicate Far(b: Bubble, p: Point, radius: real) {
    DistanceSquared(Center(b), p) > radius * radius
  }

  /** The foam update of a scrub move that spawned `b`: appended unless 40 bubbles are there already. */
  function AddFoam(foam: seq<Bubble>, b: Bubble): (r: seq<Bubble>)
    ensures |foam| <= FoamCap ==> |r| <= FoamCap
    ensures |foam| >= FoamCap <==> r == foam
    ensures |foam| <= |r| <= |foam| + 1 && r[..|foam|] == foam
    ensures |foam| < FoamCap ==> r == foam + [b]
  {
    if |foam| >= FoamCap then foam else foam + [b]
  }

  /** `foam.filter(bubble => distance > radius)`: the bubbles kept, in their order. */
  function FarFrom(foam: seq<Bubble>, p: Point, radius: real): (r: seq<Bubble>)
    ensures |r| <= |foam|
    ensures |r| == |foam| ==> r == foam
  {
    if foam == [] then []
    else
      var rest := FarFrom(foam[1..], p, radius);
      if Far(foam[0], p, radius) then [foam[0]] + rest else rest
  }

  /** The filter keeps exactly the far bubbles, each as often as it occurs. */
  lemma {:induction false} FarFromKeepsExactly(foam: seq<Bubble>, p: Point, radius: real)
    ensures forall b :: multiset(FarFrom(foam, p, radius))[b] == if Far(b, p, radius) then multiset(foam)[b] else 0
  {
    if foam != [] {
      FarFromKeepsExactly(foam[1..], p, radius);
      assert foam == [foam[0]] + foam[1..];
    }
  }

  lemma SquareMonotone(r1: real, r2: real)
    requires 0.0 <= r1 <= r2
    ensures r1 * r1 <= r2 * r2
  {
    assert r1 * r1 <= r1 * r2;
  }

  /** A bubble beyond the larger radius is beyond the smaller one. */
  lemma FarMonotone(b: Bubble, p: Point, r1: real, r2: real)
    requires 0.0 <= r1 <= r2 && Far(b, p, r2)
    ensures Far(b, p, r1)
  {
    SquareMonotone(r1, r2);
  }

  /** Filtering by a radius and then by a larger one is filtering by the larger one. */
  lemma {:induction false} FarFromNested(foam: seq<Bubble>, p: Point, r1: real, r2: real)
    requires 0.0 <= r1 <= r2
    ensures FarFrom(FarFrom(foam, p, r1), p, r2) == FarFrom(foam, p, r2)
  {
    if foam != [] {
      var rest1 := FarFrom(foam[1..], p, r1);
      FarFromNested(foam[1..], p, r1, r2);
      if Far(foam[0], p, r1) {
        assert ([foam[0]] + rest1)[1..] == rest1;
      } else if Far(foam[0], p, r2) {
        FarMonotone(foam[0], p, r1, r2);
        assert false;
      }
    }
  }

  /** Progress capped at its target, as `Math.min(100, ...)` does. */
  function Clamp(x: real): (r: real)
    ensures r <= TargetPercent && (x <= TargetPercent ==> r == x) && (x >= TargetPercent ==> r == TargetPercent)
  {
    Min(TargetPercent, x)
  }

  /** Two capped increments are one capped increment by their sum, in either order. */
  lemma ClampCompose(p: real, a: real, b: real)
    requires a >= 0.0 && b >= 0.0
    ensures Clamp(Clamp(p + a) + b) == Clamp(p + a + b) == Clamp(Clamp(p + b) + a)
  {
  }

  /** The progress `eraseAt` computes from the share of the mask erased. */
  function EraseProgress(share: real): (r: real)
    requires share >= 0.0
    ensures 0.0 <= r <= TargetPercent
    ensures share * 100.0 >= 99.5 ==> r == TargetPercent
    ensures share * 100.0 < 99.5 ==> r == ScoreTier.Round(share * 100.0) as real
  {
    Clamp(ScoreTier.Round(share * 100.0) as real)
  }

  /** The steps played on a canvas: the image mask (brush, wet) or the wet overlay (towel, blow-dry). */
  predicate UsesEraser(step: nat) {
    step == Brush || step == Wet || step == Towel || step == Blowdry
  }

  class HairwashingGame {
    var step: nat
    var progress: real
    var dragging: bool
    var cursorPos: Point
    var showSuccess: bool
    var finalComplete: bool
    var shampooApplied: bool
    var persistentFoam: seq<Bubble>

    ghost predicate Valid()
      reads this
    {
      step <= Complete && 0.0 <= progress <= TargetPercent && |persistentFoam| <= FoamCap
    }

    constructor ()
      ensures Valid()
      ensures step == Brush && progress == 0.0 && !dragging && !showSuccess && !finalComplete && !shampooApplied
      ensures persistentFoam == []
    {
      step, progress, dragging := Brush, 0.0, false;
      cursorPos := Point(0.0, 0.0);
      showSuccess, finalComplete, shampooApplied := false, false, false;
      persistentFoam := [];
    }

    /**
      `completeStep`: below COMPLETE the next step starts from zero progress;
      finishing the shampoo step records it, and finishing the blow-dry step
      ends the game and marks hairwashing as completed.
     */
    method CompleteStep(store: GameCompletion.CompletionStore)
      requires Valid()
      modifies this`step, this`progress, this`dragging, this`shampooApplied, this`finalComplete, this`showSuccess,
               store`stored
      ensures Valid()
      ensures old(step) < Complete ==> step == old(step) + 1 && progress == 0.0 && !dragging
      ensures old(step) == Complete ==> step == old(step) && progress == old(progress) && dragging == old(dragging)
      ensures shampooApplied == (old(shampooApplied) || old(step) == Shampoo)
      ensures old(step) == Blowdry ==>
                finalComplete && showSuccess && store.stored == GameCompletion.MarkGameCompleted(old(store.stored),
                                                                                                 GameCompletion.Hairwashing)
      ensures old(step) != Blowdry ==>
                finalComplete == old(finalComplete) && showSuccess == old(showSuccess) && store.stored == old(store.stored)
    {
      var finished := step;
      if finished < Complete {
        step := finished + 1;
        progress := 0.0;
        dragging := false;
        if finished == Shampoo {
          shampooApplied := true;
        }
      }
      if finished == Blowdry {
        finalComplete := true;
        showSuccess := true;
        store.MarkCompleted(GameCompletion.Hairwashing);
      }
    }

    /** `handleToolClick`: jump to another step below COMPLETE, starting it from zero progress. */
    method HandleToolClick(target: nat)
      requires Valid()
      modifies this`step, this`progress, this`dragging
      ensures Valid()
      ensures target == old(step) || target >= Complete ==>
                step == old(step) && progress == old(progress) && dragging == old(dragging)
      ensures target != old(step) && target < Complete ==> step == target && progress == 0.0 && !dragging
    {
      if target == step {
        return;
      }
      if target >= Complete {
        return;
      }
      step := target;
      progress := 0.0;
      dragging := false;
    }

    /**
      The progress effect's timer: it completes the step exactly when progress
      has reached the target and the game is not complete.
     */
    method ProgressTimerFires(store: GameCompletion.CompletionStore)
      requires Valid()
      modifies this`step, this`progress, this`dragging, this`shampooApplied, this`finalComplete, this`showSuccess,
               store`stored
      ensures Valid()
      ensures old(progress >= TargetPercent && step != Complete) ==>
                && step == old(step) + 1 && progress == 0.0 && !dragging
                && shampooApplied == (old(shampooApplied) || old(step) == Shampoo)
                && (old(step) == Blowdry ==>
                      finalComplete && showSuccess
                      && store.stored == GameCompletion.MarkGameCompleted(old(store.stored), GameCompletion.Hairwashing))
                && (old(step) != Blowdry ==>
                      finalComplete == old(finalComplete) && showSuccess == old(showSuccess)
                      && store.stored == old(store.stored))
      ensures !old(progress >= TargetPercent && step != Complete) ==>
                && step == old(step) && progress == old(progress) && dragging == old(dragging)
                && shampooApplied == old(shampooApplied) && finalComplete == old(finalComplete)
                && showSuccess == old(showSuccess) && store.stored == old(store.stored)
    {
      if progress >= TargetPercent && step != Complete {
        CompleteStep(store);
      }
    }

    /**
      `handlePointerDown`; `erasedShare` is the share of the canvas mask erased
      after the stroke, None when there is no canvas or the point is off it.
     */
    method HandlePointerDown(p: Point, erasedShare: Option<real>)
      requires Valid()
      requires erasedShare.Some? ==> erasedShare.value >= 0.0
      modifies this`dragging, this`cursorPos, this`progress
      ensures Valid()
      ensures step == Complete ==> dragging == old(dragging) && cursorPos == old(cursorPos) && progress == old(progress)
      ensures step != Complete ==>
                && dragging && cursorPos == p
                && progress == if UsesEraser(step) && erasedShare.Some? then EraseProgress(erasedShare.value)
                               else old(progress)
    {
      if step == Complete {
        return;
      }
      dragging := true;
      cursorPos := p;
      if UsesEraser(step) && erasedShare.Some? {
        progress := EraseProgress(erasedShare.value);
      }
    }

    /**
      `handlePointerMove`. `container` is the hair area on screen (None when it
      is not mounted), `erasedShare` as for a pointer-down, and `spawned` the
      foam bubble the scrub effect spawns this move, None when chance says no.
     */
    method HandlePointerMove(p: Point, container: Option<Rect>, erasedShare: Option<real>, spawned: Option<Bubble>)
      requires Valid()
      requires erasedShare.Some? ==> erasedShare.value >= 0.0
      modifies this`cursorPos, this`progress, this`persistentFoam
      ensures Valid()
      ensures step == Complete ==>
                cursorPos == old(cursorPos) && progress == old(progress) && persistentFoam == old(persistentFoam)
      ensures step != Complete ==> cursorPos == p
      ensures step != Complete && !(dragging && container.Some? && Contains(container.value, p)) ==>
                progress == old(progress) && persistentFoam == old(persistentFoam)
      ensures step != Complete && dragging && container.Some? && Contains(container.value, p) ==>
                if UsesEraser(step) then
                  && progress == (if erasedShare.Some? then EraseProgress(erasedShare.value) else old(progress))
                  && persistentFoam == old(persistentFoam)
                else if step == Shampoo then
                  progress == Clamp(old(progress) + 2.0) && persistentFoam == old(persistentFoam)
                else if step == Scrub then
                  && progress == Clamp(old(progress) + 0.5)
                  && persistentFoam == (if spawned.Some? then AddFoam(old(persistentFoam), spawned.value)
                                        else old(persistentFoam))
                else
                  var local := Point(p.x - container.value.left, p.y - container.value.top);
                  var removed := |old(persistentFoam)| - |FarFrom(old(persistentFoam), local, RinseRadius)|;
                  && progress == Clamp(old(progress) + 5.0 * removed as real + 0.3)
                  && persistentFoam == (if removed > 0 then FarFrom(old(persistentFoam), local, RinseEffectRadius)
                                        else old(persistentFoam))
    {
      if step == Complete {
        return;
      }
      cursorPos := p;
      if !dragging || container.None? {
        return;
      }
      var rect := container.value;
      if !Contains(rect, p) {
        return;
      }
      if UsesEraser(step) {
        if erasedShare.Some? {
          progress := EraseProgress(erasedShare.value);
        }
      } else if step == Shampoo {
        progress := Clamp(progress + 2.0);
      } else if step == Scrub {
        progress := Clamp(progress + 0.5);
        if spawned.Some? {
          persistentFoam := AddFoam(persistentFoam, spawned.value);
        }
      } else {
        Rinse(Point(p.x - rect.left, p.y - rect.top));
      }
    }

    /**
      A rinse move at `local` (relative to the hair area): the bubbles within 50px
      are washed away for 5 points each; when any were, the water effects then
      clear those within 60px too. Dragging adds 0.3 more.
     */
    method Rinse(local: Point)
      requires Valid()
      modifies this`progress, this`persistentFoam
      ensures Valid()
      ensures var removed := |old(persistentFoam)| - |FarFrom(old(persistentFoam), local, RinseRadius)|;
              && progress == Clamp(old(progress) + 5.0 * removed as real + 0.3)
              && persistentFoam == (if removed > 0 then FarFrom(old(persistentFoam), local, RinseEffectRadius)
                                    else old(persistentFoam))
    {
      var before := persistentFoam;
      var remaining := FarFrom(before, local, RinseRadius);
      var removed := |before| - |remaining|;
      if removed > 0 {
        progress := Clamp(progress + 5.0 * removed as real);
        FarFromNested(before, local, RinseRadius, RinseEffectRadius);
        persistentFoam := FarFrom(remaining, local, RinseEffectRadius);
      } else {
        persistentFoam := remaining;
      }
      ClampCompose(old(progress), 5.0 * removed as real, 0.3);
      progress := Clamp(progress + 0.3);
    }

    method HandlePointerUp()
      modifies this`dragging
      ensures !dragging
    {
      dragging := false;
    }
  }
}
