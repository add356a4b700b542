/**
 * hooks/use-device-capabilities.ts: the viewport is classified as mobile,
 * tablet or desktop, and two policies decide whether the decorative 3D
 * scene mounts and whether heavy animations run. The window width, the
 * reduced-motion media query and the WebGL probe are inputs.
 */
module DeviceCapabilities {

  datatype Capabilities = Capabilities(
    isMobile: bool,
    isTablet: bool,
    isDesktop: bool,
    hasGoodGPU: bool,
    prefersReducedMotion: bool,
    supportsWebGL: bool)

  const MobileBreakpoint: int := 768
  const DesktopBreakpoint: int := 1024

  /** Exactly one device class holds. */
  predicate OneClass(c: Capabilities) {
    (c.isMobile && !c.isTablet && !c.isDesktop) ||
    (!c.isMobile && c.isTablet && !c.isDesktop) ||
    (!c.isMobile && !c.isTablet && c.isDesktop)
  }

  /** The GPU estimate is the one the classifier derives. */
  predicate GpuConsistent(c: Capabilities) {
    c.hasGoodGPU == (c.isDesktop && c.supportsWebGL)
  }

  /** The profile in force before the first check runs. */
  const DefaultCapabilities: Capabilities := Capabilities(
    isMobile := false,
    isTablet := false,
    isDesktop := true,
    hasGoodGPU := true,
    prefersReducedMotion := false,
    supportsWebGL := true)

  /** One run of `checkCapabilities`: a whole new record from the three readings. */
  function Classify(width: int, prefersReducedMotion: bool, supportsWebGL: bool): (c: Capabilities)
    ensures OneClass(c) && GpuConsistent(c)
    ensures c.prefersReducedMotion == prefersReducedMotion && c.supportsWebGL == supportsWebGL
  {
    var isMobile := width < MobileBreakpoint;
    var isTablet := width >= MobileBreakpoint && width < DesktopBreakpoint;
    var isDesktop := width >= DesktopBreakpoint;
    Capabilities(isMobile, isTablet, isDesktop, isDesktop && supportsWebGL,
                 prefersReducedMotion, supportsWebGL)
  }

  function ShouldRender3D(c: Capabilities): bool {
    c.supportsWebGL && !c.prefersReducedMotion && (c.isDesktop || c.isTablet)
  }

  function ShouldUseHeavyAnimations(c: Capabilities): bool {
    !c.prefersReducedMotion && !c.isMobile
  }

  /** The breakpoints: below 768 is mobile, from 768 below 1024 tablet, from 1024 desktop. */
  lemma Breakpoints(width: int, reduced: bool, webgl: bool)
    ensures Classify(width, reduced, webgl).isMobile <==> width < 768
    ensures Classify(width, reduced, webgl).isTablet <==> 768 <= width < 1024
    ensures Classify(width, reduced, webgl).isDesktop <==> 1024 <= width
    ensures Classify(width, reduced, webgl).hasGoodGPU <==> 1024 <= width && webgl
  {
  }

  lemma DefaultIsDesktop()
    ensures OneClass(DefaultCapabilities) && GpuConsistent(DefaultCapabilities)
    ensures DefaultCapabilities.isDesktop && DefaultCapabilities.supportsWebGL
    ensures !DefaultCapabilities.prefersReducedMotion
    ensures ShouldRender3D(DefaultCapabilities)
  {
  }

  /**
   * On a one-class profile the 3D gate holds exactly when WebGL works,
   * motion is not reduced and the device is not mobile.
   */
  lemma Render3DCharacterised(c: Capabilities)
    requires OneClass(c)
    ensures ShouldRender3D(c) <==> c.supportsWebGL && !c.prefersReducedMotion && !c.isMobile
  {
  }

  /** A mobile width never mounts the 3D scene, whatever WebGL and motion say. */
  lemma MobileNeverRenders3D(width: int, reduced: bool, webgl: bool)
    requires width < MobileBreakpoint
    ensures !ShouldRender3D(Classify(width, reduced, webgl))
    ensures !ShouldUseHeavyAnimations(Classify(width, reduced, webgl))
  {
  }

  /** Whenever the 3D scene mounts, heavy animations are on too. */
  lemma Render3DImpliesHeavy(c: Capabilities)
    requires OneClass(c)
    ensures ShouldRender3D(c) ==> ShouldUseHeavyAnimations(c)
  {
  }

  /**
   * The hook's state: `capabilities`, which starts at the default profile
   * and which every check (at mount and on each resize) replaces.
   */
  class CapabilityMonitor {
    var capabilities: Capabilities

    predicate Valid()
      reads this
    {
      OneClass(capabilities) && GpuConsistent(capabilities)
    }

    constructor ()
      ensures capabilities == DefaultCapabilities && Valid()
    {
      capabilities := DefaultCapabilities;
    }

    /** `checkCapabilities`: nothing of the previous record survives. */
    method Check(width: int, prefersReducedMotion: bool, supportsWebGL: bool)
      modifies this
      ensures capabilities == Classify(width, prefersReducedMotion, supportsWebGL)
      ensures Valid()
    {
      var isMobile := width < MobileBreakpoint;
      var isTablet := width >= MobileBreakpoint && width < DesktopBreakpoint;
      var isDesktop := width >= DesktopBreakpoint;
      var hasGoodGPU := isDesktop && supportsWebGL;
      capabilities := Capabilities(isMobile, isTablet, isDesktop, hasGoodGPU,
                                   prefersReducedMotion, supportsWebGL);
    }
  }
}
