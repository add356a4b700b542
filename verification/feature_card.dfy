/**
 * components/sections/FeatureComparisonCard.tsx: a pricing card whose
 * blocks and feature rows are revealed on fixed millisecond schedules, whose
 * hovered row is highlighted, and whose price is shown verbatim or with a
 * currency prefix. The pt-BR number formatting is an input.
 */
module FeatureComparisonCard {
  import opened Wrappers
  import opened Motion

  /** Container reveal delay, in seconds. */
  function ContainerDelay(delay: real): real {
    Seconds(delay)
  }

  /** Content block i: `(delay + 150 + i * 80) / 1000`. */
  function ContentDelay(delay: real, i: nat): real {
    (delay + 150.0 + (i as real) * 80.0) / 1000.0
  }

  /** Feature row i: `(delay + 200 + i * 60) / 1000`. */
  function FeatureDelay(delay: real, i: nat): real {
    (delay + 200.0 + (i as real) * 60.0) / 1000.0
  }

  /** Check mark of row i: `(delay + 250 + i * 80) / 1000`. */
  function CheckmarkDelay(delay: real, i: nat): real {
    (delay + 250.0 + (i as real) * 80.0) / 1000.0
  }

  /** The content blocks pass their index as `custom`. */
  const HeaderBlock: nat := 0
  const PriceBlock: nat := 1
  function CtaBlock(featureCount: nat): nat {
    featureCount
  }

  /** Each schedule starts later for a later index, by a fixed step. */
  lemma SchedulesIncrease(delay: real, i: nat, j: nat)
    requires i < j
    ensures ContentDelay(delay, i) < ContentDelay(delay, j)
    ensures FeatureDelay(delay, i) < FeatureDelay(delay, j)
    ensures CheckmarkDelay(delay, i) < CheckmarkDelay(delay, j)
    ensures FeatureDelay(delay, i + 1) - FeatureDelay(delay, i) == 0.06
    ensures CheckmarkDelay(delay, i + 1) - CheckmarkDelay(delay, i) == 0.08
  {
    assert (i as real) * 80.0 < (j as real) * 80.0;
    assert (i as real) * 60.0 < (j as real) * 60.0;
  }

  /** Every block and row starts after the container; a row's check mark follows the row. */
  lemma ScheduleOrder(delay: real, i: nat)
    ensures ContainerDelay(delay) < ContentDelay(delay, HeaderBlock)
    ensures ContentDelay(delay, HeaderBlock) < ContentDelay(delay, PriceBlock)
    ensures FeatureDelay(delay, i) < CheckmarkDelay(delay, i)
  {
    assert (i as real) * 60.0 <= (i as real) * 80.0;
  }

  /** The call to action comes after the price block only with at least two features. */
  lemma CtaAfterPrice(delay: real, featureCount: nat)
    ensures ContentDelay(delay, CtaBlock(featureCount)) > ContentDelay(delay, PriceBlock) <==> featureCount >= 2
  {
    if featureCount >= 2 {
      assert (featureCount as real) * 80.0 >= 160.0;
    }
  }

  /** `price?: string | number`. */
  datatype Price = PriceText(text: string) | PriceNumber(amount: real)

  /** The text of the price block, or `None` when no price block is rendered. */
  function PriceDisplay(price: Option<Price>, formatPtBr: real -> string): (shown: Option<string>)
    ensures shown.Some? <==> price.Some?
    ensures price.Some? && price.value.PriceText? ==> shown == Some(price.value.text)
    ensures price.Some? && price.value.PriceNumber? ==>
              shown.Some? && |shown.value| >= 3 && shown.value[..3] == "R$ " &&
              shown.value[3..] == formatPtBr(price.value.amount)
  {
    match price
    case None => None
    case Some(PriceText(t)) => Some(t)
    case Some(PriceNumber(n)) => Some("R$ " + formatPtBr(n))
  }

  /** The card's decorative animations and CTA gestures. */
  datatype Decorations = Decorations(
    orbPulse: bool, borderFlow: bool, arrowNudge: bool, rowHover: bool,
    ctaHoverScale: Option<real>, ctaTapScale: Option<real>)

  function CardDecorations(prefersReducedMotion: bool): (d: Decorations)
    ensures prefersReducedMotion <==> d == Decorations(false, false, false, false, None, None)
    ensures !prefersReducedMotion ==> d.ctaHoverScale == Some(1.02) && d.ctaTapScale == Some(0.98)
  {
    if prefersReducedMotion then Decorations(false, false, false, false, None, None)
    else Decorations(true, true, true, true, Some(1.02), Some(0.98))
  }

  /** The card's `hoveredFeature` state. */
  class FeatureCard {
    var prefersReducedMotion: bool
    const featureCount: nat
    var hoveredFeature: Option<nat>

    /** Only an existing row can be highlighted. */
    predicate Valid()
      reads this
    {
      hoveredFeature.Some? ==> hoveredFeature.value < featureCount
    }

    /** Row `i` is drawn highlighted. */
    predicate Highlighted(i: nat)
      reads this
    {
      hoveredFeature == Some(i)
    }

    constructor (featureCount: nat, prefersReducedMotion: bool)
      ensures Valid() && hoveredFeature == None
      ensures this.featureCount == featureCount && this.prefersReducedMotion == prefersReducedMotion
    {
      this.featureCount := featureCount;
      this.prefersReducedMotion := prefersReducedMotion;
      hoveredFeature := None;
    }

    /**
     * The reduced-motion hook reports a new preference: later handler calls
     * read it, and the current highlight is kept.
     */
    method SetReducedMotion(reduced: bool)
      modifies this`prefersReducedMotion
      ensures prefersReducedMotion == reduced
    {
      prefersReducedMotion := reduced;
    }

    /** `onHoverStart` of row `index`. */
    method HoverStart(index: nat)
      requires Valid() && index < featureCount
      modifies this`hoveredFeature
      ensures Valid()
      ensures prefersReducedMotion ==> hoveredFeature == old(hoveredFeature)
      ensures !prefersReducedMotion ==> hoveredFeature == Some(index)
    {
      if !prefersReducedMotion {
        hoveredFeature := Some(index);
      }
    }

    /** `onHoverEnd` of any row: clears the highlight, whichever row had it. */
    method HoverEnd()
      modifies this`hoveredFeature
      ensures Valid() && hoveredFeature == None
    {
      hoveredFeature := None;
    }

    /** At most one row is highlighted: the highlight is one optional index, so two rows cannot share it. */
    lemma OneHighlight(i: nat, j: nat)
      requires Highlighted(i) && Highlighted(j)
      ensures i == j
    {
    }
  }
}
