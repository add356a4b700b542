/**
 * components/ui/MagneticButton.tsx: the button is pulled towards the
 * pointer by `magnetStrength` times the pointer's offset from the button's
 * centre, and tilts with the smoothed pull. `ref` is `None` before the
 * button is mounted.
 */
module MagneticButton {
  import opened Wrappers
  import opened Geometry

  const DefaultStrength: real := 0.3

  /** The pull `handleMouseMove` sets: offset from the centre times the strength. */
  function MagnetTarget(r: Rect, clientX: real, clientY: real, strength: real): (o: Offset)
    ensures clientX == r.left + r.width / 2.0 && clientY == r.top + r.height / 2.0 ==> o == Offset(0.0, 0.0)
  {
    var centerX := r.left + r.width / 2.0;
    var centerY := r.top + r.height / 2.0;
    Offset((clientX - centerX) * strength, (clientY - centerY) * strength)
  }

  /** The pull is linear: moving the pointer by (ax, ay) moves the target by strength times that. */
  lemma MagnetLinear(r: Rect, clientX: real, clientY: real, ax: real, ay: real, strength: real)
    ensures MagnetTarget(r, clientX + ax, clientY + ay, strength).dx
            == MagnetTarget(r, clientX, clientY, strength).dx + ax * strength
    ensures MagnetTarget(r, clientX + ax, clientY + ay, strength).dy
            == MagnetTarget(r, clientX, clientY, strength).dy + ay * strength
  {
  }

  /** Within the button the pull is at most half the button's size times the strength. */
  lemma MagnetBounded(r: Rect, clientX: real, clientY: real, strength: real)
    requires Inside(r, clientX, clientY)
    ensures Abs(MagnetTarget(r, clientX, clientY, strength).dx) <= Abs(strength) * r.width / 2.0
    ensures Abs(MagnetTarget(r, clientX, clientY, strength).dy) <= Abs(strength) * r.height / 2.0
  {
    var dx := clientX - (r.left + r.width / 2.0);
    var dy := clientY - (r.top + r.height / 2.0);
    ScaledBound(dx, r.width / 2.0, strength);
    ScaledBound(dy, r.height / 2.0, strength);
  }

  lemma ScaledBound(d: real, half: real, s: real)
    requires -half <= d <= half
    ensures Abs(d * s) <= Abs(s) * half
  {
    assert Abs(d * s) == Abs(d) * Abs(s);
    assert Abs(d) <= half;
    assert Abs(d) * Abs(s) <= half * Abs(s);
  }

  /** The declared tilt: pull y in [-100, 100] maps to rotateX in [10, -10]. */
  function RotateX(smoothY: real): (a: real)
    ensures -10.0 <= a <= 10.0
    ensures smoothY <= -100.0 ==> a == 10.0
    ensures smoothY >= 100.0 ==> a == -10.0
  {
    Interpolate(smoothY, -100.0, 100.0, 10.0, -10.0)
  }

  /** The declared tilt: pull x in [-100, 100] maps to rotateY in [-10, 10]. */
  function RotateY(smoothX: real): (a: real)
    ensures -10.0 <= a <= 10.0
    ensures smoothX <= -100.0 ==> a == -10.0
    ensures smoothX >= 100.0 ==> a == 10.0
  {
    Interpolate(smoothX, -100.0, 100.0, -10.0, 10.0)
  }

  /** At rest the button is not tilted. */
  lemma RestIsLevel()
    ensures RotateX(0.0) == 0.0 && RotateY(0.0) == 0.0
  {
  }

  /** The style and gestures the button declares. */
  datatype ButtonStyle = ButtonStyle(transform: bool, hoverScale: Option<real>, tapScale: Option<real>)

  function Style(prefersReducedMotion: bool): (s: ButtonStyle)
    ensures prefersReducedMotion <==> !s.transform
    ensures prefersReducedMotion ==> s.hoverScale == None && s.tapScale == None
    ensures !prefersReducedMotion ==> s.hoverScale == Some(1.05) && s.tapScale == Some(0.95)
  {
    if prefersReducedMotion then ButtonStyle(false, None, None)
    else ButtonStyle(true, Some(1.05), Some(0.95))
  }

  class MagneticButton {
    const magnetStrength: real
    var prefersReducedMotion: bool
    var x: real
    var y: real

    constructor (magnetStrength: Option<real>, prefersReducedMotion: bool)
      ensures this.magnetStrength == (if magnetStrength.Some? then magnetStrength.value else 0.3)
      ensures this.prefersReducedMotion == prefersReducedMotion
      ensures x == 0.0 && y == 0.0
    {
      this.magnetStrength := if magnetStrength.Some? then magnetStrength.value else DefaultStrength;
      this.prefersReducedMotion := prefersReducedMotion;
      x := 0.0;
      y := 0.0;
    }

    /** `handleMouseMove`: `ref` is the button's rectangle once mounted. */
    method HandleMouseMove(ref: Option<Rect>, clientX: real, clientY: real)
      modifies this`x, this`y
      ensures prefersReducedMotion || ref.None? ==> x == old(x) && y == old(y)
      ensures !prefersReducedMotion && ref.Some? ==>
                Offset(x, y) == MagnetTarget(ref.value, clientX, clientY, magnetStrength)
    {
      if prefersReducedMotion || ref.None? {
        return;
      }
      var rect := ref.value;
      var centerX := rect.left + rect.width / 2.0;
      var centerY := rect.top + rect.height / 2.0;
      x := (clientX - centerX) * magnetStrength;
      y := (clientY - centerY) * magnetStrength;
    }

    /** `handleMouseLeave`. */
    method HandleMouseLeave()
      modifies this`x, this`y
      ensures x == 0.0 && y == 0.0
    {
      x := 0.0;
      y := 0.0;
    }

    /**
     * The reduced-motion hook reports a new preference: later handler calls
     * read it, and the current pull is kept.
     */
    method SetReducedMotion(reduced: bool)
      modifies this`prefersReducedMotion
      ensures prefersReducedMotion == reduced
    {
      prefersReducedMotion := reduced;
    }
  }
}
