/**
 * components/sections/AnimatedMetricsCard.tsx: a card counts from 0 up to
 * its metric once it scrolls into view. A string metric is reduced to its
 * digits and parsed; the non-digit rest is shown after the number. The
 * count runs for 2000 ms on an ease-in-out curve and is rounded on every
 * animation frame. Clock readings and intersection events are inputs.
 */
module AnimatedMetricsCard {

  /** `metricValue: string | number`. */
  datatype MetricValue = Number(n: real) | Text(s: string)

  /** Length of the count-up, in milliseconds. */
  const Duration: real := 2000.0

  /** `\d`: an ASCII decimal digit. */
  predicate IsDigit(c: char) {
    '0' <= c <= '9'
  }

  function DigitValue(c: char): (v: nat)
    requires IsDigit(c)
    ensures v < 10
  {
    (c as int) - ('0' as int)
  }

  function DigitChar(v: nat): (c: char)
    requires v < 10
    ensures IsDigit(c) && DigitValue(c) == v
  {
    (('0' as int) + v) as char
  }

  /** `s.replace(/\D/g, '')`: every non-digit removed. */
  function Digits(s: string): (d: string)
    ensures forall i :: 0 <= i < |d| ==> IsDigit(d[i])
    ensures |d| <= |s|
  {
    if s == [] then []
    else if IsDigit(s[0]) then [s[0]] + Digits(s[1..])
    else Digits(s[1..])
  }

  /** On one character the extraction keeps exactly a digit. */
  lemma DigitsOfChar(c: char)
    ensures Digits([c]) == if IsDigit(c) then [c] else []
  {
  }

  /**
   * Extraction works character by character: the digits of a concatenation
   * are the digits of each part, in order. With `DigitsOfChar` this fixes
   * which digits come back and in which order.
   */
  lemma {:induction false} DigitsAppend(a: string, b: string)
    ensures Digits(a + b) == Digits(a) + Digits(b)
  {
    if a == [] {
      assert a + b == b;
    } else {
      assert (a + b)[0] == a[0] && (a + b)[1..] == a[1..] + b;
      DigitsAppend(a[1..], b);
    }
  }

  /** A text without digits keeps none. */
  lemma {:induction false} DigitsOfDigitFree(s: string)
    ensures (forall i :: 0 <= i < |s| ==> !IsDigit(s[i])) ==> Digits(s) == []
  {
    if s != [] {
      DigitsOfDigitFree(s[1..]);
    }
  }

  /** The number of leading digits of `s`: one match of `\d+`. */
  function DigitRun(s: string): (n: nat)
    ensures n <= |s|
    ensures forall i :: 0 <= i < n ==> IsDigit(s[i])
    ensures n < |s| ==> !IsDigit(s[n])
  {
    if s != [] && IsDigit(s[0]) then 1 + DigitRun(s[1..]) else 0
  }

  /** `s.replace(/\d+/g, '')`: every run of digits removed. */
  function Suffix(s: string): (r: string)
    ensures forall i :: 0 <= i < |r| ==> !IsDigit(r[i])
    decreases |s|
  {
    if s == [] then []
    else if IsDigit(s[0]) then Suffix(s[DigitRun(s)..])
    else [s[0]] + Suffix(s[1..])
  }

  /** The characters of `s` that are not digits, one at a time. */
  function NonDigits(s: string): string {
    if s == [] then []
    else if IsDigit(s[0]) then NonDigits(s[1..])
    else [s[0]] + NonDigits(s[1..])
  }

  /** Removing whole digit runs removes exactly the digits, so digits and suffix split the text. */
  lemma {:induction false} SuffixIsNonDigits(s: string)
    ensures Suffix(s) == NonDigits(s)
    ensures |Digits(s)| + |Suffix(s)| == |s|
    decreases |s|
  {
    if s == [] {
    } else if IsDigit(s[0]) {
      DropRun(s, DigitRun(s));
      SuffixIsNonDigits(s[DigitRun(s)..]);
    } else {
      SuffixIsNonDigits(s[1..]);
    }
  }

  /** Dropping a prefix of digits changes neither the non-digits nor adds digits. */
  lemma {:induction false} DropRun(s: string, n: nat)
    requires n <= |s|
    requires forall i :: 0 <= i < n ==> IsDigit(s[i])
    ensures NonDigits(s[n..]) == NonDigits(s)
    ensures |Digits(s)| == n + |Digits(s[n..])|
  {
    if n > 0 {
      assert s[1..][n - 1..] == s[n..];
      DropRun(s[1..], n - 1);
    }
  }

  /** The value of a digit string, most significant digit first; 0 for the empty string. */
  function ParseDigits(d: string): (v: nat)
    requires forall i :: 0 <= i < |d| ==> IsDigit(d[i])
  {
    if d == [] then 0 else 10 * ParseDigits(d[..|d| - 1]) + DigitValue(d[|d| - 1])
  }

  /** The decimal digits of `n`, without leading zeros (and "0" for zero). */
  function Decimal(n: nat): (d: string)
    ensures |d| > 0
    ensures forall i :: 0 <= i < |d| ==> IsDigit(d[i])
  {
    if n < 10 then [DigitChar(n)] else Decimal(n / 10) + [DigitChar(n % 10)]
  }

  /** Parsing reads back what `Decimal` writes. */
  lemma {:induction false} ParseDecimal(n: nat)
    ensures ParseDigits(Decimal(n)) == n
  {
    var d := Decimal(n);
    if n >= 10 {
      assert d[..|d| - 1] == Decimal(n / 10);
      ParseDecimal(n / 10);
    }
  }

  /**
   * The counter's target: a number as given, a string's digits parsed, 0 if
   * it has none (`parseInt('')` is NaN, and `|| 0` turns it into 0).
   */
  function Target(v: MetricValue): (t: real)
    ensures v.Number? ==> t == v.n
    ensures v.Text? ==> t >= 0.0 && t == t.Floor as real
    ensures v.Text? && (forall i :: 0 <= i < |v.s| ==> !IsDigit(v.s[i])) ==> t == 0.0
  {
    match v
    case Number(n) => n
    case Text(s) => DigitsOfDigitFree(s); ParseDigits(Digits(s)) as real
  }

  /**
   * Characters around the digits do not change a string metric's target:
   * "R$ 15" and "15+" count to what "15" counts to.
   */
  lemma DigitFreeSurroundings(pre: string, n: nat, post: string)
    requires forall i :: 0 <= i < |pre| ==> !IsDigit(pre[i])
    requires forall i :: 0 <= i < |post| ==> !IsDigit(post[i])
    ensures Target(Text(pre + Decimal(n) + post)) == n as real
  {
    var d := Decimal(n);
    DigitsAppend(pre + d, post);
    DigitsAppend(pre, d);
    DigitsOfDigitFree(pre);
    DigitsOfDigitFree(post);
    DigitsOfDigitString(d);
    assert Digits(pre + d + post) == d;
    ParseDecimal(n);
  }

  /** A decimal string is its own digit extraction, so a plain number string is its own target. */
  lemma TextTargetOfDecimal(n: nat)
    ensures Target(Text(Decimal(n))) == n as real
  {
    DigitsOfDigitString(Decimal(n));
    ParseDecimal(n);
  }

  lemma {:induction false} DigitsOfDigitString(d: string)
    requires forall i :: 0 <= i < |d| ==> IsDigit(d[i])
    ensures Digits(d) == d
  {
    if d != [] {
      DigitsOfDigitString(d[1..]);
    }
  }

  /** The arrow-separated metric "15 → 1" counts up to 151... */
  lemma ArrowTarget()
    ensures Target(Text("15 → 1")) == 151.0
  {
    var s := "15 → 1";
    assert Digits(s[5..]) == "1";
    assert Digits(s[4..]) == Digits(s[5..]);
    assert Digits(s[3..]) == Digits(s[4..]);
    assert Digits(s[2..]) == Digits(s[3..]);
    assert Digits(s) == "151";
    var d := "151";
    assert d[..2][..1] == "1";
    assert d[..2] == "15";
    assert ParseDigits(d[..2]) == 15;
    assert ParseDigits(d) == 151;
  }

  /** ...and shows the suffix " → " after it. */
  lemma ArrowSuffix()
    ensures Suffix("15 → 1") == " → "
  {
    var s := "15 → 1";
    assert DigitRun(s[2..]) == 0;
    assert DigitRun(s) == 2;
    var t := s[2..];
    assert t == " → 1";
    assert t[3..] == "1" && DigitRun("1") == 1;
    assert Suffix(t[3..]) == [];
    assert t[1..] == "→ 1" && t[2..] == " 1";
    assert Suffix(t) == " → ";
  }

  /** The suffix shown after the counter: only strings carry one. */
  function DisplaySuffix(v: MetricValue): (r: string)
    ensures v.Number? ==> r == []
    ensures forall i :: 0 <= i < |r| ==> !IsDigit(r[i])
  {
    match v
    case Number(_) => []
    case Text(s) => Suffix(s)
  }

  /** `Math.min(elapsed / duration, 1)`. */
  function Progress(elapsed: real): (p: real)
    ensures p <= 1.0
    ensures elapsed >= 0.0 ==> p >= 0.0
    ensures p < 1.0 <==> elapsed < Duration
  {
    if elapsed / Duration <= 1.0 then elapsed / Duration else 1.0
  }

  /** The ease-in-out curve: quadratic in, then quadratic out. */
  function Ease(p: real): real {
    if p < 0.5 then 2.0 * p * p else -1.0 + (4.0 - 2.0 * p) * p
  }

  lemma EaseFixedPoints()
    ensures Ease(0.0) == 0.0 && Ease(0.5) == 0.5 && Ease(1.0) == 1.0
  {
  }

  /** Both pieces of the curve meet at 0.5, so it has no jump there. */
  lemma EaseContinuousAtHalf(p: real)
    requires 0.0 <= p < 0.5
    ensures 0.5 - Ease(p) <= 2.0 * (0.5 - p)
    ensures Ease(p) < 0.5
  {
    assert p * p <= p * 0.5;
    assert 0.5 - 2.0 * p * p == 2.0 * (0.5 - p) * (0.5 + p);
    assert (0.5 - p) * (0.5 + p) <= (0.5 - p) * 1.0;
  }

  /** The "in" half rises: 2p^2 grows with p >= 0. */
  lemma EaseInRises(p: real, q: real)
    requires 0.0 <= p <= q < 0.5
    ensures Ease(p) <= Ease(q)
  {
    assert p * p <= p * q;
    assert p * q <= q * q;
  }

  /** The "out" half rises: -1 + 4p - 2p^2 grows up to p = 1. */
  lemma EaseOutRises(p: real, q: real)
    requires 0.5 <= p <= q <= 1.0
    ensures Ease(p) <= Ease(q)
  {
    var d := q - p;
    var s := 4.0 - 2.0 * (q + p);
    assert s >= 0.0 && d >= 0.0;
    assert d * s >= 0.0;
    assert Ease(q) - Ease(p) == d * s;
  }

  /** The curve never goes down on [0, 1]. */
  lemma EaseMonotone(p: real, q: real)
    requires 0.0 <= p <= q <= 1.0
    ensures Ease(p) <= Ease(q)
  {
    if q < 0.5 {
      EaseInRises(p, q);
    } else if p >= 0.5 {
      EaseOutRises(p, q);
    } else {
      EaseContinuousAtHalf(p);
      EaseOutRises(0.5, q);
    }
  }

  /** The curve maps [0, 1] onto [0, 1]. */
  lemma EaseRange(p: real)
    requires 0.0 <= p <= 1.0
    ensures 0.0 <= Ease(p) <= 1.0
  {
    EaseMonotone(0.0, p);
    EaseMonotone(p, 1.0);
  }

  /** `Math.round`: the nearest integer, halves rounded up. */
  function Round(x: real): (n: int)
    ensures x - 0.5 < n as real <= x + 0.5
  {
    (x + 0.5).Floor
  }

  /** The value shown `elapsed` ms after the count started. */
  function DisplayAt(target: real, elapsed: real): int {
    Round(target * Ease(Progress(elapsed)))
  }

  /** Once the duration has passed the counter shows the target, rounded. */
  lemma DisplayAtEnd(target: real, elapsed: real)
    requires elapsed >= Duration
    ensures DisplayAt(target, elapsed) == Round(target)
    ensures target == target.Floor as real ==> DisplayAt(target, elapsed) == target.Floor
  {
  }

  /** An integral target is reached exactly. */
  lemma RoundIntegral(n: int)
    ensures Round(n as real) == n
  {
  }

  /**
   * The values the `animate` loop shows for successive frame times: each
   * frame shows one value, and the loop goes on only while progress < 1.
   */
  function CounterTrace(target: real, startTime: real, frames: seq<real>): (shown: seq<int>)
    ensures |shown| <= |frames|
  {
    if frames == [] then []
    else
      var elapsed := frames[0] - startTime;
      [DisplayAt(target, elapsed)] +
      (if Progress(elapsed) < 1.0 then CounterTrace(target, startTime, frames[1..]) else [])
  }

  /**
   * The loop stops at the first frame at or past the duration and shows the
   * rounded target there; every earlier frame was short of the duration.
   */
  lemma {:induction false} CounterStopsAtEnd(target: real, startTime: real, frames: seq<real>, k: nat)
    requires k < |frames| && frames[k] - startTime >= Duration
    requires forall j :: 0 <= j < k ==> frames[j] - startTime < Duration
    ensures |CounterTrace(target, startTime, frames)| == k + 1
    ensures CounterTrace(target, startTime, frames)[k] == Round(target)
  {
    if k == 0 {
      DisplayAtEnd(target, frames[0] - startTime);
    } else {
      CounterStopsAtEnd(target, startTime, frames[1..], k - 1);
    }
  }

  /** While no frame reaches the duration, every frame shows a value. */
  lemma {:induction false} CounterRunsWhileShort(target: real, startTime: real, frames: seq<real>)
    requires forall j :: 0 <= j < |frames| ==> frames[j] - startTime < Duration
    ensures |CounterTrace(target, startTime, frames)| == |frames|
  {
    if frames != [] {
      CounterRunsWhileShort(target, startTime, frames[1..]);
    }
  }

  /**
   * The body of one `animate` callback, `elapsed` ms into its count: the
   * value it shows and whether it schedules another frame.
   */
  method Animate(target: real, elapsed: real) returns (shown: int, again: bool)
    ensures shown == DisplayAt(target, elapsed)
    ensures again <==> elapsed < Duration
  {
    var progress := if elapsed / Duration <= 1.0 then elapsed / Duration else 1.0;
    var eased := if progress < 0.5 then 2.0 * progress * progress
                 else -1.0 + (4.0 - 2.0 * progress) * progress;
    shown := (target * eased + 0.5).Floor;
    again := progress < 1.0;
  }

  /** One scheduled `animate` loop: the target it counts to and its start time. */
  datatype Run = Run(target: real, startTime: real)

  /** The loops that schedule another frame after the frame at `now`. */
  function Continuing(runs: seq<Run>, now: real): (kept: seq<Run>)
    ensures |kept| <= |runs|
  {
    if runs == [] then []
    else
      var last := runs[|runs| - 1];
      Continuing(runs[..|runs| - 1], now) + (if now - last.startTime < Duration then [last] else [])
  }

  /** A loop is still scheduled after a frame exactly when it is under the duration. */
  lemma {:induction false} ContinuingKeeps(runs: seq<Run>, now: real)
    ensures forall r :: r in Continuing(runs, now) <==> r in runs && now - r.startTime < Duration
  {
    if runs != [] {
      var init := runs[..|runs| - 1];
      ContinuingKeeps(init, now);
      assert runs == init + [runs[|runs| - 1]];
    }
  }

  /** Once every loop has run for the duration, a frame ends them all. */
  lemma {:induction false} LoopsDrain(runs: seq<Run>, now: real)
    requires forall k :: 0 <= k < |runs| ==> now - runs[k].startTime >= Duration
    ensures Continuing(runs, now) == []
  {
    if runs != [] {
      LoopsDrain(runs[..|runs| - 1], now);
    }
  }

  /** A frame treats the loops one after another: appending a loop appends its own fate. */
  lemma ContinuingSnoc(runs: seq<Run>, r: Run, now: real)
    ensures Continuing(runs + [r], now) ==
            Continuing(runs, now) + (if now - r.startTime < Duration then [r] else [])
  {
    assert (runs + [r])[..|runs + [r]| - 1] == runs;
  }

  /**
   * One card's counter: the intersection observer of the current effect run
   * and the animation loops started so far. The effect depends on the metric
   * and the motion preference; its cleanup only disconnects the observer, so
   * loops begun by an earlier run keep going. `starts` counts the loops the
   * current run has begun.
   */
  class CounterCard {
    var target: real
    var displayValue: int
    var observing: bool
    var runs: seq<Run>
    ghost var starts: nat

    /** The observer is unhooked when it starts a count, so each effect run starts at most one. */
    ghost predicate Valid()
      reads this
    {
      starts <= 1 && (observing ==> starts == 0)
    }

    /** Mount: the first effect run; no observer under reduced motion or without an element. */
    constructor (metricValue: MetricValue, prefersReducedMotion: bool, hasElement: bool)
      ensures Valid() && starts == 0 && runs == []
      ensures !prefersReducedMotion && hasElement ==> target == Target(metricValue)
      ensures displayValue == 0
      ensures observing == (!prefersReducedMotion && hasElement)
    {
      target := Target(metricValue);
      displayValue := 0;
      observing := !prefersReducedMotion && hasElement;
      runs := [];
      starts := 0;
    }

    /**
     * A change of metric or motion preference: the cleanup disconnects the
     * observer, and the effect runs again. Loops already scheduled are not
     * cancelled, and the shown value is kept.
     */
    method Rerun(metricValue: MetricValue, prefersReducedMotion: bool, hasElement: bool)
      requires Valid()
      modifies this`target, this`observing, this`starts
      ensures Valid() && starts == 0
      ensures observing == (!prefersReducedMotion && hasElement)
      ensures observing ==> target == Target(metricValue)
      ensures !observing ==> target == old(target)
      ensures runs == old(runs) && displayValue == old(displayValue)
    {
      observing := false;
      starts := 0;
      if !prefersReducedMotion && hasElement {
        target := Target(metricValue);
        observing := true;
      }
    }

    /** The observer callback for one entry, at clock time `now`. */
    method Intersect(isIntersecting: bool, now: real)
      requires Valid()
      modifies this`displayValue, this`observing, this`runs, this`starts
      ensures Valid()
      ensures old(observing) && isIntersecting ==>
                !observing && displayValue == 0 && starts == 1 &&
                runs == old(runs) + [Run(target, now)]
      ensures !(old(observing) && isIntersecting) ==>
                observing == old(observing) && runs == old(runs) &&
                displayValue == old(displayValue) && starts == old(starts)
    {
      if observing && isIntersecting {
        displayValue := 0;
        runs := runs + [Run(target, now)];
        observing := false;
        starts := starts + 1;
      }
    }

    /**
     * The `animate` callbacks of one animation frame at clock time `now`,
     * in the order they were scheduled: each loop writes its eased value, so
     * the latest loop's value is the one left shown, and a loop schedules
     * itself again only while its progress is below 1.
     */
    method Frame(now: real)
      modifies this`displayValue, this`runs
      ensures runs == Continuing(old(runs), now)
      ensures old(runs) == [] ==> displayValue == old(displayValue)
      ensures old(runs) != [] ==>
                var last := old(runs)[|old(runs)| - 1];
                displayValue == DisplayAt(last.target, now - last.startTime)
    {
      var scheduled := runs;
      var kept: seq<Run> := [];
      var i := 0;
      while i < |scheduled|
        invariant 0 <= i <= |scheduled|
        invariant kept == Continuing(scheduled[..i], now)
        invariant i == 0 ==> displayValue == old(displayValue)
        invariant i > 0 ==> displayValue == DisplayAt(scheduled[i - 1].target, now - scheduled[i - 1].startTime)
      {
        var run := scheduled[i];
        var shown, again := Animate(run.target, now - run.startTime);
        displayValue := shown;
        if again {
          kept := kept + [run];
        }
        assert scheduled[..i + 1] == scheduled[..i] + [run];
        ContinuingSnoc(scheduled[..i], run, now);
        i := i + 1;
      }
      assert scheduled[..i] == scheduled;
      runs := kept;
    }
  }
}
