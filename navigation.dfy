/** The fixed navigation bar: whether the mobile menu is open, and whether
    the page has been scrolled far enough for the bar to take a solid
    background. */
module Navigation {

  /** A menu entry: the text of its button (`label`, a reserved word in
      Dafny, is called `title` here) and the fragment of the section it
      scrolls to. */
  datatype MenuItem = MenuItem(title: string, href: string)

  /** The entries of the menu, in display order. Every entry links to a
      fragment of the page, and no text occurs twice (it is the button's
      key). */
  function MenuItems(): (items: seq<MenuItem>)
    ensures |items| == 6
    ensures forall j :: 0 <= j < |items| ==> |items[j].href| > 1 && items[j].href[0] == '#'
    ensures forall i, j :: 0 <= i < j < |items| ==> items[i].title != items[j].title
  {
    [
      MenuItem("Home", "#hero"),
      MenuItem("Products", "#products"),
      MenuItem("About", "#about"),
      MenuItem("How It Works", "#how-it-works"),
      MenuItem("Gallery", "#gallery"),
      MenuItem("Contact", "#contact")
    ]
  }

  /** The scroll offset, in pixels, beyond which the bar counts as scrolled. */
  const ScrollThreshold: real := 50.0

  /** `window.scrollY > 50`: at the top of the page the bar is never
      counted as scrolled. */
  predicate PastThreshold(scrollY: real): (past: bool)
    ensures scrollY <= 0.0 ==> !past
    ensures past <==> scrollY > ScrollThreshold
  {
    scrollY > ScrollThreshold
  }

  /** The threshold is strict: 50 pixels exactly is not scrolled, anything
      beyond it is, and scrolling further down never clears it. */
  lemma ThresholdIsStrict(scrollY: real, further: real)
    ensures !PastThreshold(50.0)
    ensures PastThreshold(scrollY) <==> scrollY > 50.0
    ensures PastThreshold(scrollY) && scrollY <= further ==> PastThreshold(further)
  {
  }

  class NavigationBar {
    var isMenuOpen: bool
    var isScrolled: bool

    /** The menu starts closed and the bar starts unscrolled. */
    constructor ()
      ensures !isMenuOpen && !isScrolled
    {
      isMenuOpen := false;
      isScrolled := false;
    }

    /** The mobile menu panel is drawn exactly while the menu is open. */
    predicate MobileMenuShown(): (shown: bool)
      reads this
      ensures shown <==> isMenuOpen
    {
      isMenuOpen
    }

    /** A scroll event at offset `scrollY`. */
    method HandleScroll(scrollY: real)
      modifies this
      ensures isScrolled == PastThreshold(scrollY)
      ensures isMenuOpen == old(isMenuOpen)
    {
      isScrolled := PastThreshold(scrollY);
    }

    /** The burger button. */
    method ToggleMenu()
      modifies this
      ensures isMenuOpen == !old(isMenuOpen)
      ensures MobileMenuShown() <==> !old(MobileMenuShown())
      ensures isScrolled == old(isScrolled)
    {
      isMenuOpen := !isMenuOpen;
    }

    /** A click on a menu entry: the menu closes whatever its state, then
        the page scrolls to the entry's section. */
    method HandleMenuItemClick(href: string)
      modifies this
      ensures !isMenuOpen && !MobileMenuShown()
      ensures isScrolled == old(isScrolled)
    {
      isMenuOpen := false;
    }
  }

  /** Two presses of the burger button leave the menu as it was. */
  method ToggleTwice(bar: NavigationBar)
    modifies bar
    ensures bar.isMenuOpen == old(bar.isMenuOpen)
    ensures bar.isScrolled == old(bar.isScrolled)
  {
    bar.ToggleMenu();
    bar.ToggleMenu();
  }

  /** A fresh bar: open the menu, pick an entry, and scroll to 50 and then
      51 pixels. The menu is closed again, and the bar is scrolled only
      after the second scroll. */
  method MenuScenario() returns (openAfterClick: bool, scrolledAt50: bool, scrolledAt51: bool)
    ensures !openAfterClick && !scrolledAt50 && scrolledAt51
  {
    var bar := new NavigationBar();
    bar.ToggleMenu();
    bar.HandleMenuItemClick(MenuItems()[4].href);
    openAfterClick := bar.isMenuOpen;
    bar.HandleScroll(50.0);
    scrolledAt50 := bar.isScrolled;
    bar.HandleScroll(51.0);
    scrolledAt51 := bar.isScrolled;
  }
}
