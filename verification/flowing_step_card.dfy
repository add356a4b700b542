/**
 * components/sections/FlowingStepCard.tsx: one step of the "how it works"
 * timeline. The container, the timeline dot, the icon, the content card,
 * the step badge, the title and the description are revealed in that order
 * on a fixed schedule after `delay`; the content slides in from the side
 * opposite to the timeline.
 */
module FlowingStepCard {
  import opened Wrappers
  import opened Motion

  /** The revealed parts, in the order they appear. */
  datatype Part = Container | Dot | Icon | Content | Badge | Title | Description

  const Parts: seq<Part> := [Container, Dot, Icon, Content, Badge, Title, Description]

  /** Milliseconds after `delay` at which each part starts. */
  function PartOffset(p: Part): real {
    match p
    case Container => 0.0
    case Dot => 100.0
    case Icon => 150.0
    case Content => 200.0
    case Badge => 250.0
    case Title => 300.0
    case Description => 350.0
  }

  /** The transition delay of a part, in seconds. */
  function Onset(delay: real, p: Part): real {
    (delay + PartOffset(p)) / 1000.0
  }

  /** The parts appear strictly in timeline order, whatever the card's delay. */
  lemma OnsetsOrdered(delay: real, i: nat, j: nat)
    requires i < j < |Parts|
    ensures Onset(delay, Parts[i]) < Onset(delay, Parts[j])
  {
  }

  /** The container's first part starts at `delay / 1000`. */
  lemma ContainerFirst(delay: real)
    ensures Onset(delay, Parts[0]) == delay / 1000.0
  {
  }

  const ContainerVariants: Variants := Variants(
    Pose(Some(0.0), None, Some(40.0), Some(0.92), None),
    Pose(Some(1.0), None, Some(0.0), Some(1.0), None))

  /**
   * The container rises 40 px and grows from 0.92 to full size while it fades
   * in, and, unlike the content card, never moves sideways.
   */
  lemma ContainerRises(isAlternate: bool)
    ensures ContainerVariants.hidden == Pose(Some(0.0), None, Some(40.0), Some(0.92), None)
    ensures ContainerVariants.visible == Pose(Some(1.0), None, Some(0.0), Some(1.0), None)
    ensures ContainerVariants.hidden.x == None && ContentVariants(isAlternate).hidden.x != None
    ensures ContainerVariants.visible.opacity == ContentVariants(isAlternate).visible.opacity
  {
  }

  /** Content variants: in from the left on alternate cards, from the right otherwise. */
  function ContentVariants(isAlternate: bool): (v: Variants)
    ensures v.hidden.x == Some(if isAlternate then -30.0 else 30.0)
    ensures v.visible.x == Some(0.0)
    ensures v.hidden.opacity == Some(0.0) && v.visible.opacity == Some(1.0)
  {
    Variants(Pose(Some(0.0), Some(if isAlternate then -30.0 else 30.0), None, None, None),
             Pose(Some(1.0), Some(0.0), None, None, None))
  }

  /** Alternating cards slide in from mirrored sides. */
  lemma AlternateMirrors()
    ensures ContentVariants(true).hidden.x.value == -ContentVariants(false).hidden.x.value
  {
  }

  /** The card's props after defaults. */
  datatype Props = Props(isAlternate: bool, delay: real)

  function WithDefaults(isAlternate: Option<bool>, delay: Option<real>): (p: Props)
    ensures isAlternate == None ==> !p.isAlternate
    ensures delay == None ==> p.delay == 0.0
    ensures isAlternate.Some? ==> p.isAlternate == isAlternate.value
    ensures delay.Some? ==> p.delay == delay.value
  {
    Props(if isAlternate.Some? then isAlternate.value else false,
          if delay.Some? then delay.value else 0.0)
  }

  /** The card's repeating animations and hover gesture. */
  datatype Decorations = Decorations(dotPulse: bool, iconHover: bool, flowingLight: bool)

  function CardDecorations(prefersReducedMotion: bool): (d: Decorations)
    ensures prefersReducedMotion <==> d == Decorations(false, false, false)
    ensures !prefersReducedMotion ==> d.dotPulse && d.iconHover && d.flowingLight
  {
    if prefersReducedMotion then Decorations(false, false, false) else Decorations(true, true, true)
  }
}
