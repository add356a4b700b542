/**
 * app/page.tsx: the landing page's own interaction state. The header hides
 * on a downward scroll and reappears on an upward one, the FAQ accordion
 * keeps at most one answer open, section links scroll to an offset target,
 * and the hero and call-to-action blocks turn the pointer position into
 * parallax and magnet targets. `window.scrollY`, bounding rectangles and
 * the reduced-motion flag are inputs; `window.scrollTo` is the returned
 * target.
 */
module LandingPage {
  import opened Wrappers
  import opened Geometry

  /** Past this scroll position the header takes its "scrolled" style. */
  const ScrolledThreshold: real := 20.0
  /** Above this position the header may hide. */
  const HideThreshold: real := 120.0
  /** A downward step must exceed this to hide the header. */
  const HideStep: real := 5.0
  /** Height kept free for the fixed header when jumping to a section. */
  const HeaderOffset: real := 80.0
  /** Scale of the hero background parallax. */
  const HeroParallax: real := 80.0
  /** Scale of the call-to-action magnet. */
  const CtaMagnet: real := 18.0

  /** `navHidden` after a scroll event from `last` to `current`. */
  function NextNavHidden(hidden: bool, last: real, current: real): (h: bool)
    ensures current < HideThreshold ==> !h
    ensures current >= HideThreshold && current - last > HideStep ==> h
    ensures current >= HideThreshold && 0.0 < current - last <= HideStep ==> h == hidden
    ensures current >= HideThreshold && current <= last ==> !h
    ensures h ==> current >= HideThreshold
  {
    var isScrollingDown := current > last;
    if current < HideThreshold then false
    else if isScrollingDown && current - last > HideStep then true
    else if !isScrollingDown then false
    else hidden
  }

  /** The answer shown after clicking question `i`. */
  function ToggleFaq(open: Option<nat>, i: nat): (r: Option<nat>)
    ensures r == Some(i) <==> open != Some(i)
    ensures r != Some(i) ==> r == None
  {
    if open == Some(i) then None else Some(i)
  }

  /** Whether answer `j` is on screen. */
  predicate AnswerShown(open: Option<nat>, j: nat) {
    open == Some(j)
  }

  /**
   * At most one answer is on screen at any time. This holds because the open
   * question is one optional index, so the lemma records the design rather
   * than something a handler has to preserve.
   */
  lemma AtMostOneAnswer(open: Option<nat>, j: nat, k: nat)
    requires AnswerShown(open, j) && AnswerShown(open, k)
    ensures j == k
  {
  }

  /** Clicking the same question twice leaves only that question's own state behind. */
  lemma ToggleTwice(open: Option<nat>, i: nat)
    ensures ToggleFaq(ToggleFaq(open, i), i) == (if open == Some(i) then Some(i) else None)
  {
  }

  /** `scrollToSection`'s target for an element whose viewport top is `elementTop`. */
  function ScrollTarget(elementTop: real, scrollY: real): (target: real)
    ensures (elementTop + scrollY) - target == HeaderOffset
  {
    var elementPosition := elementTop + scrollY;
    elementPosition - HeaderOffset
  }

  /**
   * Where `window.scrollTo` actually ends: the browser clamps the requested
   * position to the scrollable range [0, maxScroll], where `maxScroll` is the
   * document height less the viewport height.
   */
  function Landed(target: real, maxScroll: real): (y: real)
    requires maxScroll >= 0.0
    ensures 0.0 <= y <= maxScroll
    ensures 0.0 <= target <= maxScroll ==> y == target
  {
    Clamp(target, 0.0, maxScroll)
  }

  /**
   * The section's top, measured from the viewport top once the jump ends, is
   * exactly the 80 px header offset when the target is reachable; a section
   * too near the page end stays lower, and one too near the top (a target
   * above 0) stays higher, at its own document position.
   */
  lemma SectionLandsBelowHeader(elementTop: real, scrollY: real, maxScroll: real)
    requires maxScroll >= 0.0
    ensures var target := ScrollTarget(elementTop, scrollY);
            var top := (elementTop + scrollY) - Landed(target, maxScroll);
            (0.0 <= target <= maxScroll ==> top == HeaderOffset) &&
            (target > maxScroll ==> top > HeaderOffset && Landed(target, maxScroll) == maxScroll) &&
            (target < 0.0 ==> top < HeaderOffset && top == elementTop + scrollY)
  {
  }

  /** The centred pointer offset, scaled by `scale`, on both axes. */
  function PointerTarget(r: Rect, clientX: real, clientY: real, scale: real): (o: Offset)
    requires HasArea(r)
    ensures Inside(r, clientX, clientY) ==>
              -Abs(scale) / 2.0 <= o.dx <= Abs(scale) / 2.0 &&
              -Abs(scale) / 2.0 <= o.dy <= Abs(scale) / 2.0
    ensures clientX == r.left + r.width / 2.0 && clientY == r.top + r.height / 2.0 ==> o == Offset(0.0, 0.0)
  {
    Offset(CentredOffset(clientX, r.left, r.width, scale),
           CentredOffset(clientY, r.top, r.height, scale))
  }

  /** The hero parallax target stays within 40 px of rest for a pointer over the hero. */
  lemma HeroTargetBounds(r: Rect, clientX: real, clientY: real)
    requires HasArea(r) && Inside(r, clientX, clientY)
    ensures var o := PointerTarget(r, clientX, clientY, HeroParallax);
            -40.0 <= o.dx <= 40.0 && -40.0 <= o.dy <= 40.0
  {
  }

  /** The magnet target stays within 9 px of rest for a pointer over the call-to-action. */
  lemma CtaTargetBounds(r: Rect, clientX: real, clientY: real)
    requires HasArea(r) && Inside(r, clientX, clientY)
    ensures var o := PointerTarget(r, clientX, clientY, CtaMagnet);
            -9.0 <= o.dx <= 9.0 && -9.0 <= o.dy <= 9.0
  {
  }

  /** The page component's state. */
  class Page {
    var scrolled: bool
    var navHidden: bool
    var lastScrollY: real
    var mobileMenuOpen: bool
    var openFaqIndex: Option<nat>
    var heroPointer: Offset
    var ctaPointer: Offset
    var prefersReducedMotion: bool

    /** The header state always agrees with the last scroll position it saw. */
    predicate Valid()
      reads this
    {
      scrolled == (lastScrollY > ScrolledThreshold) &&
      (navHidden ==> lastScrollY >= HideThreshold)
    }

    constructor (prefersReducedMotion: bool)
      ensures Valid()
      ensures !scrolled && !navHidden && lastScrollY == 0.0 && !mobileMenuOpen
      ensures openFaqIndex == None
      ensures heroPointer == Offset(0.0, 0.0) && ctaPointer == Offset(0.0, 0.0)
      ensures this.prefersReducedMotion == prefersReducedMotion
    {
      scrolled := false;
      navHidden := false;
      lastScrollY := 0.0;
      mobileMenuOpen := false;
      openFaqIndex := None;
      heroPointer := Offset(0.0, 0.0);
      ctaPointer := Offset(0.0, 0.0);
      this.prefersReducedMotion := prefersReducedMotion;
    }

    /** `handleScroll`, run with `currentScroll = window.scrollY`. */
    method HandleScroll(currentScroll: real)
      requires Valid()
      modifies this`scrolled, this`navHidden, this`lastScrollY
      ensures Valid()
      ensures scrolled == (currentScroll > ScrolledThreshold)
      ensures navHidden == NextNavHidden(old(navHidden), old(lastScrollY), currentScroll)
      ensures lastScrollY == currentScroll
    {
      var isScrollingDown := currentScroll > lastScrollY;
      scrolled := currentScroll > ScrolledThreshold;
      if currentScroll < HideThreshold {
        navHidden := false;
      } else if isScrollingDown && currentScroll - lastScrollY > HideStep {
        navHidden := true;
      } else if !isScrollingDown {
        navHidden := false;
      }
      lastScrollY := currentScroll;
    }

    /** The FAQ button `onClick` for question `i`. */
    method ClickFaq(i: nat)
      modifies this`openFaqIndex
      ensures openFaqIndex == ToggleFaq(old(openFaqIndex), i)
    {
      openFaqIndex := if openFaqIndex == Some(i) then None else Some(i);
    }

    /** The hamburger button. */
    method ToggleMobileMenu()
      modifies this`mobileMenuOpen
      ensures mobileMenuOpen == !old(mobileMenuOpen)
    {
      mobileMenuOpen := !mobileMenuOpen;
    }

    /**
     * `scrollToSection`: `elementTop` is the section's viewport top when
     * `getElementById` finds it, `None` when the id is unknown. The result
     * is the `window.scrollTo` target, if any.
     */
    method ScrollToSection(elementTop: Option<real>, scrollY: real) returns (target: Option<real>)
      modifies this`mobileMenuOpen
      ensures elementTop.None? ==> target == None && mobileMenuOpen == old(mobileMenuOpen)
      ensures elementTop.Some? ==> target == Some(ScrollTarget(elementTop.value, scrollY)) && !mobileMenuOpen
    {
      target := None;
      if elementTop.Some? {
        var offset := HeaderOffset;
        var elementPosition := elementTop.value + scrollY;
        var offsetPosition := elementPosition - offset;
        target := Some(offsetPosition);
        mobileMenuOpen := false;
      }
    }

    /** `handleHeroPointerMove` over the hero section's rectangle. */
    method HandleHeroPointerMove(r: Rect, clientX: real, clientY: real)
      requires HasArea(r)
      modifies this`heroPointer
      ensures prefersReducedMotion ==> heroPointer == old(heroPointer)
      ensures !prefersReducedMotion ==> heroPointer == PointerTarget(r, clientX, clientY, HeroParallax)
    {
      if prefersReducedMotion {
        return;
      }
      var offsetX := ((clientX - r.left) / r.width - 0.5) * HeroParallax;
      var offsetY := ((clientY - r.top) / r.height - 0.5) * HeroParallax;
      heroPointer := Offset(offsetX, offsetY);
    }

    /** `resetHeroPointer`, the hero's mouse-leave handler. */
    method ResetHeroPointer()
      modifies this`heroPointer
      ensures heroPointer == Offset(0.0, 0.0)
    {
      heroPointer := Offset(0.0, 0.0);
    }

    /** `handleCtaMagnet` over the call-to-action's rectangle. */
    method HandleCtaMagnet(r: Rect, clientX: real, clientY: real)
      requires HasArea(r)
      modifies this`ctaPointer
      ensures prefersReducedMotion ==> ctaPointer == old(ctaPointer)
      ensures !prefersReducedMotion ==> ctaPointer == PointerTarget(r, clientX, clientY, CtaMagnet)
    {
      if prefersReducedMotion {
        return;
      }
      var offsetX := ((clientX - r.left) / r.width - 0.5) * CtaMagnet;
      var offsetY := ((clientY - r.top) / r.height - 0.5) * CtaMagnet;
      ctaPointer := Offset(offsetX, offsetY);
    }

    /** `resetCtaMagnet`, the call-to-action's mouse-leave handler. */
    method ResetCtaMagnet()
      modifies this`ctaPointer
      ensures ctaPointer == Offset(0.0, 0.0)
    {
      ctaPointer := Offset(0.0, 0.0);
    }
  }
}
