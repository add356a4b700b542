/**
 * components/effects/CursorGlow.tsx: a glow that follows the cursor. Window
 * `mousemove` sets the cursor target and shows the glow, `mouseleave` hides
 * it. Nothing is registered and nothing rendered under reduced motion.
 */
module CursorGlow {

  datatype Listener = MouseMove | MouseLeave

  class CursorGlow {
    var prefersReducedMotion: bool
    var isVisible: bool
    var cursorX: real
    var cursorY: real
    /** The window listeners currently registered by this component. */
    var listeners: set<Listener>

    /** The effect's listeners are in place exactly when motion is not reduced. */
    predicate Valid()
      reads this
    {
      listeners == (if prefersReducedMotion then {} else {MouseMove, MouseLeave})
    }

    /** Mount: initial state, then the effect runs. */
    constructor (prefersReducedMotion: bool)
      ensures Valid()
      ensures this.prefersReducedMotion == prefersReducedMotion
      ensures !isVisible && cursorX == -100.0 && cursorY == -100.0
      ensures !Rendered()
    {
      this.prefersReducedMotion := prefersReducedMotion;
      isVisible := false;
      cursorX := -100.0;
      cursorY := -100.0;
      listeners := if prefersReducedMotion then {} else {MouseMove, MouseLeave};
    }

    /** The component renders the glow (anything but `null`). */
    predicate Rendered()
      reads this
    {
      !prefersReducedMotion && isVisible
    }

    /** A window `mousemove`, delivered only while its listener is registered. */
    method OnMouseMove(clientX: real, clientY: real)
      requires Valid()
      modifies this`isVisible, this`cursorX, this`cursorY
      ensures Valid()
      ensures MouseMove in listeners ==> cursorX == clientX && cursorY == clientY && isVisible
      ensures MouseMove !in listeners ==>
                cursorX == old(cursorX) && cursorY == old(cursorY) && isVisible == old(isVisible)
      ensures !prefersReducedMotion ==> Rendered()
    {
      if MouseMove in listeners {
        cursorX := clientX;
        cursorY := clientY;
        isVisible := true;
      }
    }

    /** A window `mouseleave`, delivered only while its listener is registered. */
    method OnMouseLeave()
      requires Valid()
      modifies this`isVisible
      ensures Valid()
      ensures MouseLeave in listeners ==> !isVisible
      ensures MouseLeave !in listeners ==> isVisible == old(isVisible)
      ensures !Rendered()
    {
      if MouseLeave in listeners {
        isVisible := false;
      }
    }

    /** The effect's cleanup: both listeners it added are removed. */
    method Cleanup()
      modifies this`listeners
      ensures listeners == old(listeners) - {MouseMove, MouseLeave}
    {
      listeners := listeners - {MouseMove, MouseLeave};
    }

    /** The preference changes: the effect is cleaned up and re-run. */
    method SetReducedMotion(reduced: bool)
      requires Valid()
      modifies this`prefersReducedMotion, this`listeners
      ensures Valid() && prefersReducedMotion == reduced
      ensures reduced ==> !Rendered()
    {
      Cleanup();
      prefersReducedMotion := reduced;
      if !reduced {
        listeners := listeners + {MouseMove, MouseLeave};
      }
    }
  }
}
