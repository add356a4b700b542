/**
 * components/animations/motion-primitives.tsx: `MotionFadeUp` fades and
 * lifts its content into view, `MotionStaggerList` staggers its children.
 * Both reveal on scroll-in (`whileInView`) and fall back to a plain fade or
 * to no timing at all under reduced motion. Omitted props are `None` and
 * take the component's defaults.
 */
module MotionPrimitives {
  import opened Wrappers
  import opened Motion

  /** `baseFadeUp`. */
  const BaseFadeUp: Variants := Variants(
    Pose(Some(0.0), None, Some(32.0), Some(0.98), None),
    Pose(Some(1.0), None, Some(0.0), Some(1.0), None))

  const DefaultDuration: real := 0.65
  const FadeUpAmount: real := 0.6
  const ListAmount: real := 0.4
  const ListStagger: real := 0.12

  /** `viewport={{ once, amount }}`. */
  datatype Viewport = Viewport(once: bool, amount: real)

  datatype Transition = Transition(delay: real, duration: real)

  datatype FadeUpConfig = FadeUpConfig(variants: Variants, transition: Transition, viewport: Viewport)

  /** What `MotionFadeUp` declares, for props `delay`, `duration`, `once` (ms for `delay`). */
  function MotionFadeUp(delay: Option<real>, duration: Option<real>, once: Option<bool>,
                        prefersReduced: bool): (c: FadeUpConfig)
    ensures prefersReduced ==> OpacityOnly(c.variants)
    ensures !prefersReduced ==> c.variants == BaseFadeUp
    ensures c.transition.delay == (if delay.Some? then delay.value / 1000.0 else 0.0)
    ensures duration == None ==> c.transition.duration == 0.65
    ensures duration.Some? ==> c.transition.duration == duration.value
    ensures c.viewport == Viewport(once != Some(false), 0.6)
  {
    var d := if delay.Some? then delay.value else 0.0;
    var dur := if duration.Some? then duration.value else DefaultDuration;
    var o := if once.Some? then once.value else true;
    var variants := if prefersReduced then PlainFade else BaseFadeUp;
    FadeUpConfig(variants, Transition(Seconds(d), dur), Viewport(o, FadeUpAmount))
  }

  /** Under reduced motion the fade-up variants carry opacity 0 to 1 and nothing spatial. */
  lemma ReducedFadeUpIsPlainFade(delay: Option<real>, duration: Option<real>, once: Option<bool>)
    ensures MotionFadeUp(delay, duration, once, true).variants.hidden.opacity == Some(0.0)
    ensures MotionFadeUp(delay, duration, once, true).variants.visible.opacity == Some(1.0)
    ensures !IsSpatial(MotionFadeUp(delay, duration, once, true).variants.visible)
    ensures IsSpatial(MotionFadeUp(delay, duration, once, false).variants.hidden)
  {
  }

  datatype StaggerListConfig = StaggerListConfig(stagger: Option<Stagger>, viewport: Viewport)

  /** What `MotionStaggerList` declares, for props `delayChildren` (ms) and `once`. */
  function MotionStaggerList(delayChildren: Option<real>, once: Option<bool>,
                             prefersReduced: bool): (c: StaggerListConfig)
    ensures prefersReduced <==> c.stagger == None
    ensures !prefersReduced ==>
              c.stagger == Some(Stagger(0.12, if delayChildren.Some? then delayChildren.value / 1000.0 else 0.0))
    ensures c.viewport == Viewport(once != Some(false), 0.4)
  {
    var d := if delayChildren.Some? then delayChildren.value else 0.0;
    var o := if once.Some? then once.value else true;
    var stagger := if prefersReduced then None else Some(Stagger(ListStagger, Seconds(d)));
    StaggerListConfig(stagger, Viewport(o, ListAmount))
  }

  /** Without reduced motion list child i is revealed 120 ms after child i - 1. */
  lemma ListChildrenInOrder(delayChildren: Option<real>, once: Option<bool>, i: nat)
    ensures var st := MotionStaggerList(delayChildren, once, false).stagger.value;
            StaggerOnset(st, i) < StaggerOnset(st, i + 1) &&
            StaggerOnset(st, i + 1) - StaggerOnset(st, i) == 0.12
  {
    var st := MotionStaggerList(delayChildren, once, false).stagger.value;
    StaggerOrdered(st, i, i + 1);
  }
}
