// The scroll rule both navbar scripts share: a `scrolled` style past 50
// pixels, and hiding while the page moves down past a threshold.

module Navbar {
  /** Scroll offset past which the navbar takes its `scrolled` style. */
  const ScrolledAbove: real := 50.0

  /** The navbar's scroll state. `hideAbove` is 100 pixels on the main page
      and 200 in the enhanced script. */
  class ScrollNavbar {
    const hideAbove: real
    var lastScrollY: real
    var scrolled: bool
    var hidden: bool

    /** The navbar only hides past a threshold at which it is already
        styled as scrolled. */
    ghost predicate Valid()
      reads this
    {
      hideAbove >= ScrolledAbove && (hidden ==> scrolled)
    }

    /** Set up with the page's scroll offset at load time. */
    constructor (hideAbove: real, scrollY: real)
      requires hideAbove >= ScrolledAbove
      ensures Valid()
      ensures this.hideAbove == hideAbove && lastScrollY == scrollY && !scrolled && !hidden
    {
      this.hideAbove := hideAbove;
      lastScrollY := scrollY;
      scrolled, hidden := false, false;
    }

    /** The scroll listener, run with the new offset `y`. */
    method OnScroll(y: real)
      requires Valid()
      modifies this
      ensures Valid()
      ensures scrolled <==> y > ScrolledAbove
      ensures hidden <==> y > old(lastScrollY) && y > hideAbove
      ensures lastScrollY == y
    {
      scrolled := y > ScrolledAbove;
      hidden := y > lastScrollY && y > hideAbove;
      lastScrollY := y;
    }
  }
}
