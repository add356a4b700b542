/**
 * components/animations/tilt-card.tsx: the card tilts towards the pointer.
 * The horizontal offset from the centre drives `rotateY`, the vertical one,
 * negated, drives `rotateX`; both are scaled by `intensity`. The handler
 * does not consult reduced motion.
 */
module TiltCard {
  import opened Wrappers
  import opened Geometry

  const DefaultIntensity: real := 12.0

  datatype Tilt = Tilt(rotateX: real, rotateY: real)

  /** The targets `handleMouseMove` sets for a pointer at (clientX, clientY). */
  function TiltTarget(r: Rect, clientX: real, clientY: real, intensity: real): (t: Tilt)
    requires HasArea(r)
    ensures Inside(r, clientX, clientY) ==>
              -Abs(intensity) / 2.0 <= t.rotateX <= Abs(intensity) / 2.0 &&
              -Abs(intensity) / 2.0 <= t.rotateY <= Abs(intensity) / 2.0
    ensures clientX == r.left + r.width / 2.0 ==> t.rotateY == 0.0
    ensures clientY == r.top + r.height / 2.0 ==> t.rotateX == 0.0
    ensures clientX == r.left + r.width ==> t.rotateY == intensity / 2.0
    ensures clientY == r.top ==> t.rotateX == intensity / 2.0
  {
    var x := CentredOffset(clientX, r.left, r.width, intensity);
    var y := CentredOffset(clientY, r.top, r.height, intensity);
    Tilt(-y, x)
  }

  /** The vertical offset enters negated: pointer above the centre tilts the top away. */
  lemma TiltAxes(r: Rect, clientX: real, clientY: real, intensity: real)
    requires HasArea(r)
    ensures TiltTarget(r, clientX, clientY, intensity).rotateY == CentredOffset(clientX, r.left, r.width, intensity)
    ensures TiltTarget(r, clientX, clientY, intensity).rotateX == -CentredOffset(clientY, r.top, r.height, intensity)
  {
  }

  class TiltCard {
    const intensity: real
    var rotateX: real
    var rotateY: real

    constructor (intensity: Option<real>)
      ensures this.intensity == (if intensity.Some? then intensity.value else 12.0)
      ensures rotateX == 0.0 && rotateY == 0.0
    {
      this.intensity := if intensity.Some? then intensity.value else DefaultIntensity;
      rotateX := 0.0;
      rotateY := 0.0;
    }

    /** `handleMouseMove`: always updates, whatever the motion preference. */
    method HandleMouseMove(r: Rect, clientX: real, clientY: real)
      requires HasArea(r)
      modifies this`rotateX, this`rotateY
      ensures Tilt(rotateX, rotateY) == TiltTarget(r, clientX, clientY, intensity)
    {
      var x := ((clientX - r.left) / r.width - 0.5) * intensity;
      var y := ((clientY - r.top) / r.height - 0.5) * intensity;
      rotateY := x;
      rotateX := -y;
    }

    /** `resetTilt`, the mouse-leave handler. */
    method ResetTilt()
      modifies this`rotateX, this`rotateY
      ensures rotateX == 0.0 && rotateY == 0.0
    {
      rotateX := 0.0;
      rotateY := 0.0;
    }
  }
}
