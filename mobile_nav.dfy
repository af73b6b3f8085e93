/**
 * The mobile menu (script.js, section 6): the menu button opens the overlay,
 * and the close button, a click on the overlay's backdrop or on any of its
 * links hides it. Opening and hiding keep the overlay's `display`, its
 * `aria-hidden` and the menu button's `aria-expanded` in agreement.
 */
module MobileNav {

  /** The three attributes the menu handlers write. */
  datatype NavView = NavView(display: string, ariaHidden: string, ariaExpanded: string)

  /** The view of an open (`true`) or hidden (`false`) menu. */
  function ViewFor(open: bool): (v: NavView)
    ensures Consistent(v)
    ensures v.display == "block" <==> open
    ensures v.ariaExpanded == "true" <==> open
    ensures v.ariaHidden == "true" <==> !open
  {
    if open then NavView("block", "false", "true") else NavView("none", "true", "false")
  }

  /** Shown to the eye, shown to assistive technology and announced as expanded, all together. */
  predicate Consistent(v: NavView)
  {
    || (v.display == "block" && v.ariaHidden == "false" && v.ariaExpanded == "true")
    || (v.display == "none" && v.ariaHidden == "true" && v.ariaExpanded == "false")
  }

  /** A consistent view is the view of exactly one state. */
  lemma ConsistentViews(v: NavView)
    requires Consistent(v)
    ensures v == ViewFor(v.display == "block")
    ensures v != ViewFor(v.display != "block")
  {
  }

  class Menu {
    const hasNav: bool          // `#mobileNav` exists
    const hasMenuButton: bool   // `.menuBtn` exists
    var view: NavView

    constructor (hasNav: bool, hasMenuButton: bool, initial: NavView)
      ensures this.hasNav == hasNav && this.hasMenuButton == hasMenuButton && view == initial
    {
      this.hasNav := hasNav;
      this.hasMenuButton := hasMenuButton;
      view := initial;
    }

    /** `openNav`: a no-op unless both the overlay and the menu button exist. */
    method Open()
      modifies this`view
      ensures hasNav && hasMenuButton ==> view == ViewFor(true)
      ensures !(hasNav && hasMenuButton) ==> view == old(view)
    {
      if !hasNav || !hasMenuButton {
        return;
      }
      view := NavView("block", "false", "true");
    }

    /** `hideNav`: a no-op unless both the overlay and the menu button exist. */
    method Hide()
      modifies this`view
      ensures hasNav && hasMenuButton ==> view == ViewFor(false)
      ensures !(hasNav && hasMenuButton) ==> view == old(view)
    {
      if !hasNav || !hasMenuButton {
        return;
      }
      view := NavView("none", "true", "false");
    }

    /** A click inside the overlay hides it only when it lands on the backdrop itself
        (the listener exists only when the overlay does). The close button and the
        overlay's links call `Hide` directly. */
    method OnOverlayClick(targetIsOverlay: bool)
      requires hasNav
      modifies this`view
      ensures targetIsOverlay && hasMenuButton ==> view == ViewFor(false)
      ensures !(targetIsOverlay && hasMenuButton) ==> view == old(view)
    {
      if targetIsOverlay {
        Hide();
      }
    }
  }
}
