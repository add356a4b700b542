/**
 * Pointer geometry shared by the interaction handlers: a bounding
 * rectangle as `getBoundingClientRect` reports it, the pointer's position
 * relative to it, clamping, and the two-point linear mappings that the
 * components declare for their motion values.
 */
module Geometry {

  /** A bounding client rectangle. */
  datatype Rect = Rect(left: real, top: real, width: real, height: real)

  /** A pair of horizontal and vertical motion-value targets. */
  datatype Offset = Offset(dx: real, dy: real)

  /** The rectangle has an area; a pointer event can only arrive over such a box. */
  predicate HasArea(r: Rect) {
    r.width > 0.0 && r.height > 0.0
  }

  predicate InsideX(r: Rect, clientX: real) {
    r.left <= clientX <= r.left + r.width
  }

  predicate InsideY(r: Rect, clientY: real) {
    r.top <= clientY <= r.top + r.height
  }

  /** The pointer lies within the rectangle (edges included). */
  predicate Inside(r: Rect, clientX: real, clientY: real) {
    InsideX(r, clientX) && InsideY(r, clientY)
  }

  function Abs(x: real): (r: real)
    ensures r >= 0.0 && (r == x || r == -x)
  {
    if x < 0.0 then -x else x
  }

  function Min(a: real, b: real): (r: real)
    ensures r <= a && r <= b && (r == a || r == b)
  {
    if a <= b then a else b
  }

  function Max(a: real, b: real): (r: real)
    ensures r >= a && r >= b && (r == a || r == b)
  {
    if a >= b then a else b
  }

  /** `Math.max(lo, Math.min(hi, x))`. */
  function Clamp(x: real, lo: real, hi: real): (r: real)
    requires lo <= hi
    ensures lo <= r <= hi
    ensures lo <= x <= hi ==> r == x
    ensures x < lo ==> r == lo
    ensures x > hi ==> r == hi
  {
    Max(lo, Min(hi, x))
  }

  /**
   * Where `client` falls along a span that starts at `start` and has
   * length `size`: 0 at the start edge, 1 at the far edge.
   */
  function Fraction(client: real, start: real, size: real): (f: real)
    requires size > 0.0
    ensures start <= client <= start + size ==> 0.0 <= f <= 1.0
    ensures client == start ==> f == 0.0
    ensures client == start + size ==> f == 1.0
    ensures client == start + size / 2.0 ==> f == 0.5
  {
    QuotientBounds(client - start, size);
    (client - start) / size
  }

  lemma QuotientBounds(a: real, size: real)
    requires size > 0.0
    ensures 0.0 <= a <= size ==> 0.0 <= a / size <= 1.0
    ensures (size / 2.0) / size == 0.5
  {
    var f := a / size;
    assert f * size == a;
    assert (size / 2.0) / size == 0.5;
  }

  /**
   * The centred, scaled pointer offset `(fraction - 0.5) * scale` that the
   * hero parallax, the call-to-action magnet and the tilt card compute.
   */
  function CentredOffset(client: real, start: real, size: real, scale: real): (o: real)
    requires size > 0.0
    ensures start <= client <= start + size ==> -Abs(scale) / 2.0 <= o <= Abs(scale) / 2.0
    ensures client == start + size / 2.0 ==> o == 0.0
    ensures client == start ==> o == -scale / 2.0
    ensures client == start + size ==> o == scale / 2.0
  {
    var f := Fraction(client, start, size);
    OffsetBound(f - 0.5, scale);
    (f - 0.5) * scale
  }

  lemma OffsetBound(d: real, scale: real)
    ensures -0.5 <= d <= 0.5 ==> -Abs(scale) / 2.0 <= d * scale <= Abs(scale) / 2.0
  {
    if -0.5 <= d <= 0.5 {
      var a := Abs(scale);
      ScaledWithin(d + 0.5, a, (d + 0.5) * a);
      assert (d + 0.5) * a == d * a + 0.5 * a;
      assert d * scale == d * a || d * scale == -(d * a);
    }
  }

  /**
   * framer-motion's `useTransform(v, [i0, i1], [o0, o1])` as declared in the
   * components: the straight line through (i0, o0) and (i1, o1), with the
   * input clamped to [i0, i1] (the library's default).
   */
  function Interpolate(v: real, i0: real, i1: real, o0: real, o1: real): (r: real)
    requires i0 < i1
    ensures v <= i0 ==> r == o0
    ensures v >= i1 ==> r == o1
    ensures Min(o0, o1) <= r <= Max(o0, o1)
  {
    var t := Fraction(Clamp(v, i0, i1), i0, i1 - i0);
    BetweenEnds(t, o0, o1);
    o0 + t * (o1 - o0)
  }

  lemma BetweenEnds(t: real, o0: real, o1: real)
    requires 0.0 <= t <= 1.0
    ensures Min(o0, o1) <= o0 + t * (o1 - o0) <= Max(o0, o1)
  {
    var w := o1 - o0;
    var step := t * w;
    if o0 <= o1 {
      ScaledWithin(t, w, step);
    } else {
      ScaledWithin(t, -w, -step);
    }
  }

  /** `p`, the fraction `t` of the non-negative width `w`, lies in [0, w]. */
  lemma ScaledWithin(t: real, w: real, p: real)
    requires 0.0 <= t <= 1.0 && w >= 0.0 && p == t * w
    ensures 0.0 <= p <= w
  {
    MulNonneg(t, w);
    MulNonneg(1.0 - t, w);
    assert w - p == (1.0 - t) * w;
  }

  lemma MulNonneg(a: real, b: real)
    requires a >= 0.0 && b >= 0.0
    ensures a * b >= 0.0
  {
  }
}
