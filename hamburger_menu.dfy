/** The hamburger navigation of main.js: the `active` class of the nav menu
    and of the overlay, and the hamburger's icon text. */
module HamburgerMenu {

  const Bars := "☰"
  const Cross := "✕"

  /** `nav.classList.contains('active')`, `overlay.classList.contains('active')`
      and `hamburger.innerHTML`. */
  datatype Menu = Menu(navActive: bool, overlayActive: bool, icon: string)

  /** What every close handler leaves behind. */
  const Closed := Menu(false, false, Bars)

  /** The three parts agree: nav and overlay are open together, and the icon
      is the cross exactly when they are. */
  predicate Consistent(m: Menu)
  {
    m.navActive == m.overlayActive && m.icon == (if m.navActive then Cross else Bars)
  }

  /** `toggleMenu`: toggle both classes, then pick the icon from the nav. */
  function Toggle(m: Menu): (r: Menu)
    ensures r.navActive == !m.navActive && r.overlayActive == !m.overlayActive
    ensures r.icon == (if r.navActive then Cross else Bars)
    ensures Consistent(m) ==> Consistent(r)
  {
    var nav := !m.navActive;
    Menu(nav, !m.overlayActive, if nav then Cross else Bars)
  }

  /** The events the menu listens to. A click on the hamburger stops
      propagation, so the document listener does not see it. */
  datatype Event =
    | HamburgerClick
    | LinkTimer                                 // 100 ms after a click on a nav link
    | OverlayClick(onOverlay: bool)             // `event.target === overlay`
    | DocumentClick(inNav: bool, inHamburger: bool)

  /** The menu after one event. */
  function Handle(m: Menu, e: Event): Menu
  {
    match e
    case HamburgerClick => Toggle(m)
    case LinkTimer => Closed
    case OverlayClick(onOverlay) => if onOverlay then Closed else m
    case DocumentClick(inNav, inHamburger) =>
      if !inNav && !inHamburger && m.navActive then Closed else m
  }

  function HandleAll(m: Menu, es: seq<Event>): Menu
    decreases |es|
  {
    if es == [] then m else HandleAll(Handle(m, es[0]), es[1..])
  }

  /** Toggling twice restores a consistent menu. */
  lemma ToggleTwice(m: Menu)
    requires Consistent(m)
    ensures Toggle(Toggle(m)) == m
  {
  }

  /** No sequence of clicks can separate the nav from the overlay or show
      the wrong icon. */
  lemma {:induction false} AlwaysConsistent(m: Menu, es: seq<Event>)
    requires Consistent(m)
    ensures Consistent(HandleAll(m, es))
    decreases |es|
  {
    if es != [] {
      AlwaysConsistent(Handle(m, es[0]), es[1..]);
    }
  }

  /** Every close path (the link timer, a click on the overlay itself, an
      outside click on an open menu) leaves nav and overlay inactive and the
      bars icon showing. */
  lemma ClosePathsClose(m: Menu, inNav: bool, inHamburger: bool)
    ensures Handle(m, LinkTimer) == Closed && Consistent(Closed) && !Closed.navActive
    ensures Handle(m, OverlayClick(true)) == Closed
    ensures m.navActive && !inNav && !inHamburger ==> Handle(m, DocumentClick(inNav, inHamburger)) == Closed
  {
  }

  /** A document click closes the menu only when it is open and the click
      lands outside both the nav and the hamburger. */
  lemma OutsideClickCloses(m: Menu, inNav: bool, inHamburger: bool)
    requires Consistent(m)
    ensures Handle(m, DocumentClick(inNav, inHamburger)) != m <==>
              m.navActive && !inNav && !inHamburger
  {
  }

  /** The DOM state of the menu. The nav and overlay start without the
      `active` class; the icon starts as whatever the header partial holds. */
  class NavMenu {
    var navActive: bool
    var overlayActive: bool
    var icon: string

    function State(): Menu
      reads this
    {
      Menu(navActive, overlayActive, icon)
    }

    constructor (initialIcon: string)
      ensures State() == Menu(false, false, initialIcon)
    {
      navActive, overlayActive, icon := false, false, initialIcon;
    }

    method ToggleMenu()
      modifies this
      ensures State() == Toggle(old(State()))
    {
      navActive := !navActive;
      overlayActive := !overlayActive;
      icon := if navActive then Cross else Bars;
    }

    method Close()
      modifies this
      ensures State() == Closed
    {
      navActive := false;
      overlayActive := false;
      icon := Bars;
    }

    method OnHamburgerClick()
      modifies this
      ensures State() == Handle(old(State()), HamburgerClick)
    {
      ToggleMenu();
    }

    method OnLinkTimer()
      modifies this
      ensures State() == Handle(old(State()), LinkTimer)
    {
      Close();
    }

    method OnOverlayClick(onOverlay: bool)
      modifies this
      ensures State() == Handle(old(State()), OverlayClick(onOverlay))
    {
      if onOverlay {
        Close();
      }
    }

    method OnDocumentClick(inNav: bool, inHamburger: bool)
      modifies this
      ensures State() == Handle(old(State()), DocumentClick(inNav, inHamburger))
    {
      if !inNav && !inHamburger && navActive {
        Close();
      }
    }
  }
}
