/**
 * components/effects/Adaptive3D.tsx: render the children (the 3D scene) when
 * the capability profile allows it, the fallback otherwise. A rendered
 * fragment is an optional node; `null` is `None`.
 */
module Adaptive3D {
  import opened Wrappers
  import opened DeviceCapabilities

  /** The fallback when none is given. */
  function DefaultFallback<Node>(): Option<Node> {
    None
  }

  function Adaptive3D<Node>(caps: Capabilities, children: Node, fallback: Option<Node>): (shown: Option<Node>)
    ensures ShouldRender3D(caps) ==> shown == Some(children)
    ensures !ShouldRender3D(caps) ==> shown == fallback
  {
    if !ShouldRender3D(caps) then fallback else Some(children)
  }

  /** With the default fallback the "no" path renders nothing. */
  lemma DefaultFallbackRendersNothing<Node>(caps: Capabilities, children: Node)
    ensures Adaptive3D(caps, children, DefaultFallback()).Some? <==> ShouldRender3D(caps)
  {
  }

  /** A mobile-width profile always gets the fallback. */
  lemma MobileGetsFallback<Node>(width: int, reduced: bool, webgl: bool, children: Node, fallback: Option<Node>)
    requires width < MobileBreakpoint
    ensures Adaptive3D(Classify(width, reduced, webgl), children, fallback) == fallback
  {
    MobileNeverRenders3D(width, reduced, webgl);
  }
}
