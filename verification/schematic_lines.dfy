/**
 * components/effects/SchematicLines.tsx: a dashed track from 5% to 95% of
 * the drawing with `stepCount` evenly spaced step markers on it. Marker
 * positions are percentages along the track's axis (x when horizontal,
 * y when vertical; the formula is the same).
 */
module SchematicLines {
  const DefaultStepCount: int := 5
  const TrackStart: real := 5.0
  const TrackEnd: real := 95.0

  /**
   * A marker position in percent. With one step the formula divides 90 by
   * zero and multiplies the resulting infinity by index 0, which is NaN.
   */
  datatype Coord = Percent(p: real) | NaN

  /** `Array.from({ length: stepCount })`: a negative length gives no elements. */
  function MarkerCount(stepCount: int): (n: nat)
    ensures stepCount >= 0 ==> n == stepCount
    ensures stepCount < 0 ==> n == 0
  {
    if stepCount < 0 then 0 else stepCount
  }

  /** The gap between consecutive markers, `(100 - 10) / (stepCount - 1)`. */
  function Spacing(stepCount: int): (s: real)
    requires stepCount >= 2
    ensures s > 0.0 && s * (stepCount - 1) as real == TrackEnd - TrackStart
  {
    (100.0 - 10.0) / (stepCount - 1) as real
  }

  /** Marker i of `stepCount`. */
  function Marker(stepCount: int, i: nat): (c: Coord)
    ensures c.NaN? <==> stepCount == 1
  {
    if stepCount == 1 then NaN
    else Percent(TrackStart + (100.0 - 10.0) / (stepCount - 1) as real * i as real)
  }

  /** The step markers, in index order. */
  function Markers(stepCount: int): (ms: seq<Coord>)
    ensures |ms| == MarkerCount(stepCount)
    ensures forall i :: 0 <= i < |ms| ==> ms[i] == Marker(stepCount, i)
  {
    seq(MarkerCount(stepCount), i requires 0 <= i => Marker(stepCount, i))
  }

  /** With two or more steps the markers run from the track's start to its end. */
  lemma MarkersSpanTrack(stepCount: int)
    requires stepCount >= 2
    ensures Markers(stepCount)[0] == Percent(TrackStart)
    ensures Markers(stepCount)[stepCount - 1] == Percent(TrackEnd)
  {
    var s := Spacing(stepCount);
    assert Markers(stepCount)[stepCount - 1] == Percent(TrackStart + s * (stepCount - 1) as real);
  }

  /** Consecutive markers are the same distance apart. */
  lemma MarkersEvenlySpaced(stepCount: int, i: nat)
    requires stepCount >= 2 && i + 1 < stepCount
    ensures Markers(stepCount)[i + 1].p - Markers(stepCount)[i].p == Spacing(stepCount)
  {
    var s := Spacing(stepCount);
    assert s * (i + 1) as real == s * i as real + s;
  }

  /** Every marker lies on the track, between 5 and 95 percent. */
  lemma MarkersOnTrack(stepCount: int, i: nat)
    requires stepCount >= 2 && i < stepCount
    ensures TrackStart <= Markers(stepCount)[i].p <= TrackEnd
  {
    var s := Spacing(stepCount);
    assert 0.0 <= s * i as real;
    assert s * i as real <= s * (stepCount - 1) as real;
  }

  /** A single step renders one marker at NaN percent. */
  lemma SingleStepIsNaN()
    ensures Markers(1) == [NaN]
  {
    assert Markers(1)[0] == NaN;
  }

  /** The default track has markers at 5, 27.5, 50, 72.5 and 95 percent. */
  lemma DefaultMarkers()
    ensures Markers(DefaultStepCount) ==
            [Percent(5.0), Percent(27.5), Percent(50.0), Percent(72.5), Percent(95.0)]
  {
    var ms := Markers(DefaultStepCount);
    assert ms[1] == Percent(27.5) && ms[2] == Percent(50.0) && ms[3] == Percent(72.5);
    assert ms[0] == Percent(5.0) && ms[4] == Percent(95.0);
  }
}
