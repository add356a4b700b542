/**
 * The animation records that the components hand to framer-motion: a pose
 * names the visual channels it sets (absent channels are left alone), and a
 * variant pair gives the `hidden` and `visible` poses.
 */
module Motion {
  import opened Wrappers

  datatype Pose = Pose(
    opacity: Option<real>,
    x: Option<real>,
    y: Option<real>,
    scale: Option<real>,
    rotate: Option<real>)

  datatype Variants = Variants(hidden: Pose, visible: Pose)

  /** A pose that moves, scales or rotates the element. */
  predicate IsSpatial(p: Pose) {
    p.x.Some? || p.y.Some? || p.scale.Some? || p.rotate.Some?
  }

  /** Neither pose of the pair carries a spatial channel. */
  predicate OpacityOnly(v: Variants) {
    !IsSpatial(v.hidden) && !IsSpatial(v.visible)
  }

  /** `{ opacity: o }`. */
  function Fade(o: real): (p: Pose)
    ensures !IsSpatial(p) && p.opacity == Some(o)
  {
    Pose(Some(o), None, None, None, None)
  }

  /** `{ hidden: { opacity: 0 }, visible: { opacity: 1 } }`, the reduced-motion pair. */
  const PlainFade: Variants := Variants(Fade(0.0), Fade(1.0))

  /** A pose with no channels at all: `{}`. */
  const Empty: Pose := Pose(None, None, None, None, None)

  /** A container's declared stagger: `{ staggerChildren, delayChildren }`, in seconds. */
  datatype Stagger = Stagger(staggerChildren: real, delayChildren: real)

  /** When framer-motion starts child i of a staggered container. */
  function StaggerOnset(st: Stagger, i: nat): real {
    st.delayChildren + (i as real) * st.staggerChildren
  }

  /** With a positive interval the children start in index order, one interval apart. */
  lemma StaggerOrdered(st: Stagger, i: nat, j: nat)
    requires st.staggerChildren > 0.0 && i < j
    ensures StaggerOnset(st, i) < StaggerOnset(st, j)
    ensures StaggerOnset(st, i + 1) - StaggerOnset(st, i) == st.staggerChildren
  {
    assert (j as real) * st.staggerChildren - (i as real) * st.staggerChildren
        == ((j - i) as real) * st.staggerChildren;
  }

  /** Seconds from milliseconds, as every `delay / 1000` in the components. */
  function Seconds(ms: real): real {
    ms / 1000.0
  }
}
