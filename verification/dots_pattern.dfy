/**
 * components/effects/DotsPattern.tsx: a canvas of drifting dots. Each
 * animated frame moves every dot by its velocity, reverses a velocity
 * component whose coordinate left the canvas, and clamps the dot back
 * inside; then every pair of dots closer than 200 px is joined by a line
 * that fades with distance. `Math.random` readings and the canvas size are
 * inputs; the drawing itself is the list of lines returned.
 */
module DotsPattern {
  import opened Geometry

  datatype Dot = Dot(x: real, y: real, vx: real, vy: real)

  /** Lines join dots closer than this many pixels. */
  const LinkDistance: real := 200.0

  predicate InBounds(d: Dot, width: real, height: real) {
    0.0 <= d.x <= width && 0.0 <= d.y <= height
  }

  predicate AllInBounds(dots: seq<Dot>, width: real, height: real) {
    forall i :: 0 <= i < |dots| ==> InBounds(dots[i], width, height)
  }

  /** One coordinate's move, bounce and clamp: the new coordinate and velocity. */
  function StepAxis(p: real, v: real, bound: real): (r: (real, real))
    requires bound >= 0.0
    ensures 0.0 <= r.0 <= bound
    ensures r.1 == -v <==> (p + v < 0.0 || p + v > bound) || v == 0.0
    ensures r.1 == v || r.1 == -v
    ensures 0.0 <= p + v <= bound ==> r == (p + v, v)
  {
    var moved := p + v;
    var v' := if moved < 0.0 || moved > bound then -v else v;
    (Clamp(moved, 0.0, bound), v')
  }

  /** The frame update of one dot. */
  function StepDot(d: Dot, width: real, height: real): (e: Dot)
    requires width >= 0.0 && height >= 0.0
    ensures InBounds(e, width, height)
    ensures Abs(e.vx) == Abs(d.vx) && Abs(e.vy) == Abs(d.vy)
  {
    var (x, vx) := StepAxis(d.x, d.vx, width);
    var (y, vy) := StepAxis(d.y, d.vy, height);
    Dot(x, y, vx, vy)
  }

  /** The dots after one frame: each moved if `animated`, all unchanged otherwise. */
  function AfterFrame(dots: seq<Dot>, width: real, height: real, animated: bool): (r: seq<Dot>)
    requires width >= 0.0 && height >= 0.0
    ensures |r| == |dots|
    ensures animated ==> AllInBounds(r, width, height)
    ensures !animated ==> r == dots
    ensures forall i :: 0 <= i < |r| ==> Abs(r[i].vx) == Abs(dots[i].vx) && Abs(r[i].vy) == Abs(dots[i].vy)
  {
    if animated then seq(|dots|, i requires 0 <= i < |dots| => StepDot(dots[i], width, height))
    else dots
  }

  /** An in-bounds dot that stays in bounds keeps its velocity: bouncing only happens at the walls. */
  lemma NoBounceInside(d: Dot, width: real, height: real)
    requires width >= 0.0 && height >= 0.0
    requires 0.0 <= d.x + d.vx <= width && 0.0 <= d.y + d.vy <= height
    ensures StepDot(d, width, height) == Dot(d.x + d.vx, d.y + d.vy, d.vx, d.vy)
  {
  }

  /** The `dots.forEach` update of one animated frame, in place. */
  method UpdateDots(dots: array<Dot>, width: real, height: real)
    requires width >= 0.0 && height >= 0.0
    modifies dots
    ensures dots[..] == AfterFrame(old(dots[..]), width, height, true)
  {
    var i := 0;
    while i < dots.Length
      invariant 0 <= i <= dots.Length
      invariant forall k :: 0 <= k < i ==> dots[k] == StepDot(old(dots[k]), width, height)
      invariant forall k :: i <= k < dots.Length ==> dots[k] == old(dots[k])
    {
      var dot := dots[i];
      var x := dot.x + dot.vx;
      var y := dot.y + dot.vy;
      var vx := dot.vx;
      var vy := dot.vy;
      if x < 0.0 || x > width {
        vx := -vx;
      }
      if y < 0.0 || y > height {
        vy := -vy;
      }
      x := Max(0.0, Min(width, x));
      y := Max(0.0, Min(height, y));
      dots[i] := Dot(x, y, vx, vy);
      i := i + 1;
    }
  }

  /** `Math.sqrt(dx*dx + dy*dy) < 200`, compared on squares. */
  predicate Near(a: Dot, b: Dot) {
    (a.x - b.x) * (a.x - b.x) + (a.y - b.y) * (a.y - b.y) < LinkDistance * LinkDistance
  }

  /** Pair p comes strictly before pair q in the loops' order. */
  predicate Before(p: (int, int), q: (int, int)) {
    p.0 < q.0 || (p.0 == q.0 && p.1 < q.1)
  }

  /** Pair (i, j) is among the drawn lines. */
  predicate Listed(lines: seq<(int, int)>, i: int, j: int) {
    exists k :: 0 <= k < |lines| && lines[k] == (i, j)
  }

  /** Every line joins two near dots, first index below `upTo`, second above the first. */
  predicate Drawable(dots: array<Dot>, lines: seq<(int, int)>, upTo: int)
    reads dots
  {
    forall k :: 0 <= k < |lines| ==>
      0 <= lines[k].0 < upTo && lines[k].0 < lines[k].1 < dots.Length && Near(dots[lines[k].0], dots[lines[k].1])
  }

  /** The lines are in the order the loops visit pairs, so none repeats. */
  predicate InLoopOrder(lines: seq<(int, int)>) {
    forall k, l :: 0 <= k < l < |lines| ==> Before(lines[k], lines[l])
  }

  lemma ListedAppend(lines: seq<(int, int)>, p: (int, int), a: int, b: int)
    ensures Listed(lines + [p], a, b) <==> Listed(lines, a, b) || p == (a, b)
  {
    var ext := lines + [p];
    if Listed(lines, a, b) {
      var k :| 0 <= k < |lines| && lines[k] == (a, b);
      assert ext[k] == (a, b);
    }
    if p == (a, b) {
      assert ext[|lines|] == (a, b);
    }
    if Listed(ext, a, b) {
      var k :| 0 <= k < |ext| && ext[k] == (a, b);
      if k < |lines| {
        assert lines[k] == (a, b);
      }
    }
  }

  /** Lines appended after `prefix` all start at dot `i`, so pairs from other dots are listed as before. */
  lemma ExtendedListing(prefix: seq<(int, int)>, lines: seq<(int, int)>, i: int)
    requires |prefix| <= |lines| && lines[..|prefix|] == prefix
    requires forall k :: |prefix| <= k < |lines| ==> lines[k].0 == i
    ensures forall a, b :: a != i ==> (Listed(lines, a, b) <==> Listed(prefix, a, b))
  {
    forall a, b | a != i
      ensures Listed(lines, a, b) <==> Listed(prefix, a, b)
    {
      if Listed(lines, a, b) {
        var k :| 0 <= k < |lines| && lines[k] == (a, b);
        assert k < |prefix| && prefix[k] == (a, b);
      }
      if Listed(prefix, a, b) {
        var k :| 0 <= k < |prefix| && prefix[k] == (a, b);
        assert lines[k] == (a, b);
      }
    }
  }

  /** The inner loop for dot `i`: appends (i, j) for every near dot j after i. */
  method LinksFrom(dots: array<Dot>, i: int, prefix: seq<(int, int)>) returns (lines: seq<(int, int)>)
    requires 0 <= i < dots.Length
    requires Drawable(dots, prefix, i) && InLoopOrder(prefix)
    ensures Drawable(dots, lines, i + 1) && InLoopOrder(lines)
    ensures forall a, b :: a != i ==> (Listed(lines, a, b) <==> Listed(prefix, a, b))
    ensures forall b :: i < b < dots.Length ==> (Listed(lines, i, b) <==> Near(dots[i], dots[b]))
  {
    lines := prefix;
    var n := dots.Length;
    for j := i + 1 to n
      invariant |prefix| <= |lines| && lines[..|prefix|] == prefix
      invariant forall k :: |prefix| <= k < |lines| ==>
                  lines[k].0 == i && i < lines[k].1 < j && Near(dots[i], dots[lines[k].1])
      invariant InLoopOrder(lines)
      invariant forall k :: 0 <= k < |lines| ==> Before(lines[k], (i, j))
      invariant forall b :: i < b < j && Near(dots[i], dots[b]) ==> Listed(lines, i, b)
    {
      var dotI := dots[i];
      var dotJ := dots[j];
      var dx := dotI.x - dotJ.x;
      var dy := dotI.y - dotJ.y;
      if dx * dx + dy * dy < LinkDistance * LinkDistance {
        forall b | Listed(lines, i, b) ensures Listed(lines + [(i, j)], i, b) {
          ListedAppend(lines, (i, j), i, b);
        }
        ListedAppend(lines, (i, j), i, j);
        lines := lines + [(i, j)];
      }
    }
    RowComplete(dots, i, prefix, lines);
  }

  /** What the inner loop has built once j reaches the end of the row. */
  lemma RowComplete(dots: array<Dot>, i: int, prefix: seq<(int, int)>, lines: seq<(int, int)>)
    requires 0 <= i < dots.Length
    requires Drawable(dots, prefix, i)
    requires |prefix| <= |lines| && lines[..|prefix|] == prefix
    requires forall k :: |prefix| <= k < |lines| ==>
               lines[k].0 == i && i < lines[k].1 < dots.Length && Near(dots[i], dots[lines[k].1])
    requires forall b :: i < b < dots.Length && Near(dots[i], dots[b]) ==> Listed(lines, i, b)
    ensures Drawable(dots, lines, i + 1)
    ensures forall a, b :: a != i ==> (Listed(lines, a, b) <==> Listed(prefix, a, b))
    ensures forall b :: i < b < dots.Length ==> (Listed(lines, i, b) <==> Near(dots[i], dots[b]))
  {
    ExtendedListing(prefix, lines, i);
    forall k | 0 <= k < |prefix| ensures lines[k] == prefix[k] {
    }
    forall b | i < b < dots.Length && Listed(lines, i, b) ensures Near(dots[i], dots[b]) {
      var k :| 0 <= k < |lines| && lines[k] == (i, b);
      if k < |prefix| {
        assert prefix[k].0 < i;
      }
    }
  }

  /**
   * The connecting-line loops: every unordered pair is looked at once
   * (j > i), and joined exactly when the dots are near. Lines come out in
   * loop order, so none is drawn twice.
   */
  method ConnectingLines(dots: array<Dot>) returns (lines: seq<(int, int)>)
    ensures Drawable(dots, lines, dots.Length)
    ensures forall i, j :: 0 <= i < j < dots.Length ==> (Listed(lines, i, j) <==> Near(dots[i], dots[j]))
    ensures InLoopOrder(lines)
  {
    lines := [];
    var n := dots.Length;
    for i := 0 to n
      invariant Drawable(dots, lines, i) && InLoopOrder(lines)
      invariant forall a, b :: 0 <= a < i && a < b < n ==> (Listed(lines, a, b) <==> Near(dots[a], dots[b]))
    {
      lines := LinksFrom(dots, i, lines);
    }
  }

  /** The stroke opacity of a line between dots `distance` apart. */
  function LineOpacity(distance: real, opacity: real): (o: real)
    ensures 0.0 <= distance < LinkDistance && opacity > 0.0 ==> 0.0 < o <= opacity
    ensures distance == 0.0 ==> o == opacity
  {
    (1.0 - distance / LinkDistance) * opacity
  }

  /** The line fades as the dots move apart. */
  lemma LineFades(d1: real, d2: real, opacity: real)
    requires 0.0 <= d1 <= d2 < LinkDistance && opacity > 0.0
    ensures LineOpacity(d2, opacity) <= LineOpacity(d1, opacity)
  {
    var f1, f2 := 1.0 - d1 / LinkDistance, 1.0 - d2 / LinkDistance;
    assert f2 <= f1;
    assert (f1 - f2) * opacity >= 0.0;
    assert f1 * opacity - f2 * opacity == (f1 - f2) * opacity;
  }

  /** A velocity component from one `Math.random()` reading `u`: `(u - 0.5) * 0.5`. */
  function InitialVelocity(u: real): (v: real)
    ensures 0.0 <= u < 1.0 ==> -0.25 <= v < 0.25
  {
    (u - 0.5) * 0.5
  }

  predicate UnitRandom(u: real) {
    0.0 <= u < 1.0
  }

  /** A new dot from four readings: a position anywhere on the canvas and a slow velocity. */
  function NewDot(ux: real, uy: real, uvx: real, uvy: real, width: real, height: real): (d: Dot)
    requires width >= 0.0 && height >= 0.0
    requires UnitRandom(ux) && UnitRandom(uy) && UnitRandom(uvx) && UnitRandom(uvy)
    ensures InBounds(d, width, height)
    ensures -0.25 <= d.vx < 0.25 && -0.25 <= d.vy < 0.25
  {
    ScaledWithin(ux, width, ux * width);
    ScaledWithin(uy, height, uy * height);
    Dot(ux * width, uy * height, InitialVelocity(uvx), InitialVelocity(uvy))
  }

  /** The canvas and its dots for one run of the effect. */
  class DotsCanvas {
    var width: real
    var height: real
    const animated: bool
    const dots: array<Dot>

    predicate Valid()
      reads this
    {
      width >= 0.0 && height >= 0.0
    }

    /**
     * The effect's set-up: the canvas takes the window size and `dotCount`
     * dots are created, `random` holding the four readings per dot in call order.
     */
    constructor (dotCount: nat, width: real, height: real, animated: bool, random: seq<real>)
      requires width >= 0.0 && height >= 0.0
      requires |random| == 4 * dotCount && forall k :: 0 <= k < |random| ==> UnitRandom(random[k])
      ensures Valid() && fresh(dots) && this.animated == animated
      ensures this.width == width && this.height == height
      ensures dots.Length == dotCount
      ensures forall i :: 0 <= i < dotCount ==>
                dots[i] == NewDot(random[4 * i], random[4 * i + 1], random[4 * i + 2], random[4 * i + 3],
                                  width, height)
      ensures AllInBounds(dots[..], width, height)
    {
      this.width := width;
      this.height := height;
      this.animated := animated;
      var created := new Dot[dotCount];
      for i := 0 to dotCount
        invariant forall k :: 0 <= k < i ==>
                    created[k] == NewDot(random[4 * k], random[4 * k + 1], random[4 * k + 2], random[4 * k + 3],
                                         width, height)
      {
        assert UnitRandom(random[4 * i]) && UnitRandom(random[4 * i + 1]);
        assert UnitRandom(random[4 * i + 2]) && UnitRandom(random[4 * i + 3]);
        created[i] := NewDot(random[4 * i], random[4 * i + 1], random[4 * i + 2], random[4 * i + 3],
                             width, height);
      }
      dots := created;
    }

    /** `handleResize`: the canvas follows the window; dots are pulled in on the next animated frame. */
    method Resize(innerWidth: real, innerHeight: real)
      requires innerWidth >= 0.0 && innerHeight >= 0.0
      modifies this`width, this`height
      ensures Valid() && width == innerWidth && height == innerHeight
    {
      width := innerWidth;
      height := innerHeight;
    }

    /** One `animate` frame: update the dots if animated, then the lines to draw. */
    method Frame() returns (lines: seq<(int, int)>)
      requires Valid()
      modifies dots
      ensures dots[..] == AfterFrame(old(dots[..]), width, height, animated)
      ensures animated ==> AllInBounds(dots[..], width, height)
      ensures Drawable(dots, lines, dots.Length) && InLoopOrder(lines)
      ensures forall i, j :: 0 <= i < j < dots.Length ==> (Listed(lines, i, j) <==> Near(dots[i], dots[j]))
    {
      if animated {
        UpdateDots(dots, width, height);
      }
      lines := ConnectingLines(dots);
    }
  }
}
