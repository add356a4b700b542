/**
 * components/ui/Card3D.tsx: the card records where the pointer is inside
 * it, as a fraction of its width and height (0.5, 0.5 at rest), and tilts
 * through the declared mappings from that position to rotations of at most
 * `intensity` degrees. Reduced motion switches the tilt and overlays off.
 */
module Card3D {
  import opened Wrappers
  import opened Geometry

  const DefaultIntensity: real := 15.0
  const Rest: real := 0.5

  /** The normalised position `handleMouseMove` stores. */
  function PointerPosition(r: Rect, clientX: real, clientY: real): (o: Offset)
    requires HasArea(r)
    ensures Inside(r, clientX, clientY) ==> 0.0 <= o.dx <= 1.0 && 0.0 <= o.dy <= 1.0
    ensures clientX == r.left ==> o.dx == 0.0
    ensures clientX == r.left + r.width ==> o.dx == 1.0
    ensures clientY == r.top ==> o.dy == 0.0
    ensures clientY == r.top + r.height ==> o.dy == 1.0
    ensures clientX == r.left + r.width / 2.0 && clientY == r.top + r.height / 2.0 ==> o == Offset(Rest, Rest)
  {
    Offset(Fraction(clientX, r.left, r.width), Fraction(clientY, r.top, r.height))
  }

  /** Declared `rotateX`: y from 0 to 1 runs from `intensity` to `-intensity`. */
  function RotateX(y: real, intensity: real): (a: real)
    ensures y <= 0.0 ==> a == intensity
    ensures y >= 1.0 ==> a == -intensity
    ensures -Abs(intensity) <= a <= Abs(intensity)
  {
    Interpolate(y, 0.0, 1.0, intensity, -intensity)
  }

  /** Declared `rotateY`: x from 0 to 1 runs from `-intensity` to `intensity`. */
  function RotateY(x: real, intensity: real): (a: real)
    ensures x <= 0.0 ==> a == -intensity
    ensures x >= 1.0 ==> a == intensity
    ensures -Abs(intensity) <= a <= Abs(intensity)
  {
    Interpolate(x, 0.0, 1.0, -intensity, intensity)
  }

  /** The rest position maps to no rotation at all. */
  lemma RestIsLevel(intensity: real)
    ensures RotateX(Rest, intensity) == 0.0 && RotateY(Rest, intensity) == 0.0
  {
  }

  /** What the card declares besides the handlers. */
  datatype CardStyle = CardStyle(rotate: bool, hoverScale: Option<real>, glowOverlay: bool, shineOverlay: bool)

  function Style(prefersReducedMotion: bool, shine: bool): (s: CardStyle)
    ensures prefersReducedMotion ==> s == CardStyle(false, None, false, false)
    ensures !prefersReducedMotion ==> s.rotate && s.hoverScale == Some(1.02)
    ensures s.glowOverlay <==> shine && !prefersReducedMotion
    ensures s.shineOverlay <==> shine && !prefersReducedMotion
  {
    if prefersReducedMotion then CardStyle(false, None, false, false)
    else CardStyle(true, Some(1.02), shine, shine)
  }

  class Card3D {
    const intensity: real
    var prefersReducedMotion: bool
    var x: real
    var y: real

    constructor (intensity: Option<real>, prefersReducedMotion: bool)
      ensures this.intensity == (if intensity.Some? then intensity.value else 15.0)
      ensures this.prefersReducedMotion == prefersReducedMotion
      ensures x == 0.5 && y == 0.5
    {
      this.intensity := if intensity.Some? then intensity.value else DefaultIntensity;
      this.prefersReducedMotion := prefersReducedMotion;
      x := Rest;
      y := Rest;
    }

    /** `handleMouseMove`: `ref` is the card's rectangle once mounted. */
    method HandleMouseMove(ref: Option<Rect>, clientX: real, clientY: real)
      requires ref.Some? ==> HasArea(ref.value)
      modifies this`x, this`y
      ensures prefersReducedMotion || ref.None? ==> x == old(x) && y == old(y)
      ensures !prefersReducedMotion && ref.Some? ==>
                Offset(x, y) == PointerPosition(ref.value, clientX, clientY)
    {
      if prefersReducedMotion || ref.None? {
        return;
      }
      var rect := ref.value;
      var mouseX := (clientX - rect.left) / rect.width;
      var mouseY := (clientY - rect.top) / rect.height;
      x := mouseX;
      y := mouseY;
    }

    /** `handleMouseLeave`: back to the centre. */
    method HandleMouseLeave()
      modifies this`x, this`y
      ensures x == 0.5 && y == 0.5
      ensures RotateX(y, intensity) == 0.0 && RotateY(x, intensity) == 0.0
    {
      x := Rest;
      y := Rest;
      RestIsLevel(intensity);
    }

    /**
     * The reduced-motion hook reports a new preference: later handler calls
     * read it, and the current pointer position is kept.
     */
    method SetReducedMotion(reduced: bool)
      modifies this`prefersReducedMotion
      ensures prefersReducedMotion == reduced
    {
      prefersReducedMotion := reduced;
    }
  }
}
