/**
 * The site header: which entry of the fixed two-level link table is
 * highlighted for the current location, and the two flags the header keeps,
 * `isScrolled` (set from the window's scroll offset) and `isMobileMenuOpen`
 * (toggled by the menu button, cleared by every link of the mobile menu).
 */
module Navigation {
  import opened Wrappers

  /** A link of a dropdown. */
  datatype NavItem = NavItem(name: string, path: string)

  /** A top-level entry: a plain link, or a dropdown when it has children. */
  datatype NavLink = NavLink(name: string, path: string, children: Option<seq<NavItem>>)

  /** The header's link table. The Contact entry is commented out, so it is not here. */
  const NavLinks: seq<NavLink> := [
    NavLink("Home", "/", None),
    NavLink("About", "/about", None),
    NavLink("Programs", "/programs", Some([
      NavItem("Overview", "/programs"),
      NavItem("Ages 7–11", "/programs/ages-7-11"),
      NavItem("Ages 12–16", "/programs/ages-12-16")])),
    NavLink("Curriculum", "/curriculum", Some([
      NavItem("Overview", "/curriculum"),
      NavItem("Entrepreneurship", "/curriculum/entrepreneurship"),
      NavItem("Economics", "/curriculum/economics"),
      NavItem("Marketing", "/curriculum/marketing"),
      NavItem("Design Thinking", "/curriculum/design-thinking")])),
    NavLink("Parents", "/parents", None),
    NavLink("Schools", "/schools", None)
  ]

  /** A path is active when it is exactly the current location's pathname. */
  predicate IsActive(pathname: string, path: string)
  {
    pathname == path
  }

  /** `children.some(c => isActive(c.path))`, scanning from the first child. */
  predicate SomeChildActive(pathname: string, children: seq<NavItem>)
    decreases |children|
  {
    children != [] && (IsActive(pathname, children[0].path) || SomeChildActive(pathname, children[1..]))
  }

  /** Whether the desktop header highlights the entry: a dropdown when its own
      path or one of its children's paths is active, a plain link when its path is. */
  predicate IsHighlighted(pathname: string, link: NavLink)
  {
    match link.children
    case Some(children) => IsActive(pathname, link.path) || SomeChildActive(pathname, children)
    case None => IsActive(pathname, link.path)
  }

  /** The paths an entry stands for: its own and its children's. */
  function EntryPaths(link: NavLink): set<string>
  {
    {link.path} + match link.children
                  case Some(children) => set i | 0 <= i < |children| :: children[i].path
                  case None => {}
  }

  /** The scan finds an active child exactly when some child's path is the pathname. */
  lemma {:induction false} SomeChildActiveIff(pathname: string, children: seq<NavItem>)
    ensures SomeChildActive(pathname, children)
      <==> exists i :: 0 <= i < |children| && children[i].path == pathname
    decreases |children|
  {
    if children != [] {
      SomeChildActiveIff(pathname, children[1..]);
      if SomeChildActive(pathname, children[1..]) {
        var i :| 0 <= i < |children[1..]| && children[1..][i].path == pathname;
        assert children[i + 1].path == pathname;
      }
      if exists i :: 0 <= i < |children| && children[i].path == pathname {
        var i :| 0 <= i < |children| && children[i].path == pathname;
        if i > 0 {
          assert children[1..][i - 1].path == pathname;
        }
      }
    }
  }

  /** An entry is highlighted exactly when the pathname is one of its paths:
      matching is exact, never by prefix. */
  lemma HighlightedIffOwnsPath(pathname: string, link: NavLink)
    ensures IsHighlighted(pathname, link) <==> pathname in EntryPaths(link)
  {
    match link.children
    case Some(children) =>
      SomeChildActiveIff(pathname, children);
      if pathname in set i | 0 <= i < |children| :: children[i].path {
        var i :| 0 <= i < |children| && children[i].path == pathname;
      }
    case None =>
  }

  /** Every path the header links to. */
  const NavPaths: set<string> := {
    "/", "/about",
    "/programs", "/programs/ages-7-11", "/programs/ages-12-16",
    "/curriculum", "/curriculum/entrepreneurship", "/curriculum/economics",
    "/curriculum/marketing", "/curriculum/design-thinking",
    "/parents", "/schools"
  }

  lemma {:induction false} EntryPathsOfTable()
    ensures EntryPaths(NavLinks[0]) == {"/"}
    ensures EntryPaths(NavLinks[1]) == {"/about"}
    ensures EntryPaths(NavLinks[2]) == {"/programs", "/programs/ages-7-11", "/programs/ages-12-16"}
    ensures EntryPaths(NavLinks[3]) == {"/curriculum", "/curriculum/entrepreneurship",
                                        "/curriculum/economics", "/curriculum/marketing",
                                        "/curriculum/design-thinking"}
    ensures EntryPaths(NavLinks[4]) == {"/parents"}
    ensures EntryPaths(NavLinks[5]) == {"/schools"}
  {
    var programs := NavLinks[2].children.value;
    var curriculum := NavLinks[3].children.value;
    assert (set i | 0 <= i < |programs| :: programs[i].path)
      == {programs[0].path, programs[1].path, programs[2].path};
    assert (set i | 0 <= i < |curriculum| :: curriculum[i].path)
      == {curriculum[0].path, curriculum[1].path, curriculum[2].path,
          curriculum[3].path, curriculum[4].path};
  }

  /** No path belongs to two top-level entries. */
  lemma EntryPathsDisjoint()
    ensures forall i, j | 0 <= i < j < |NavLinks| :: EntryPaths(NavLinks[i]) !! EntryPaths(NavLinks[j])
  {
  }

  /** For any location, at most one top-level entry is highlighted, and one is
      exactly when the location is one of the header's paths. */
  lemma HighlightIsUnique(pathname: string)
    ensures forall i, j | 0 <= i < |NavLinks| && 0 <= j < |NavLinks| ::
      IsHighlighted(pathname, NavLinks[i]) && IsHighlighted(pathname, NavLinks[j]) ==> i == j
    ensures (exists i :: 0 <= i < |NavLinks| && IsHighlighted(pathname, NavLinks[i]))
      <==> pathname in NavPaths
  {
    forall i | 0 <= i < |NavLinks|
      ensures IsHighlighted(pathname, NavLinks[i]) <==> pathname in EntryPaths(NavLinks[i])
    {
      HighlightedIffOwnsPath(pathname, NavLinks[i]);
    }
    EntryPathsDisjoint();
    EntryPathsOfTable();
    if pathname in NavPaths {
      var i :| 0 <= i < |NavLinks| && pathname in EntryPaths(NavLinks[i]);
      assert IsHighlighted(pathname, NavLinks[i]);
    }
  }

  /** The contact page highlights no entry. */
  lemma ContactHighlightsNothing()
    ensures forall i | 0 <= i < |NavLinks| :: !IsHighlighted("/contact", NavLinks[i])
  {
    HighlightIsUnique("/contact");
  }

  /** The header's own state. */
  datatype NavState = NavState(isScrolled: bool, isMobileMenuOpen: bool)

  /** Both flags start false. */
  const InitialNav: NavState := NavState(false, false)

  /** The threshold above which the header counts as scrolled. */
  const ScrollThreshold: real := 10.0

  /** What happens to the header: a scroll event at offset `scrollY`, a press
      of the menu button, or a click on a link of the mobile menu (a child
      link, a plain top-level link or the call-to-action link). All of these
      links share one handler that ignores where the link leads, so the click
      carries no target. The links are rendered only while the menu is open;
      a click is nonetheless defined in every state, since closing an already
      closed menu changes nothing. */
  datatype NavEvent =
    | Scroll(scrollY: real)
    | MenuButton
    | MobileLinkClick

  function NavStep(s: NavState, ev: NavEvent): NavState
  {
    match ev
    case Scroll(y) => s.(isScrolled := y > ScrollThreshold)
    case MenuButton => s.(isMobileMenuOpen := !s.isMobileMenuOpen)
    case MobileLinkClick => s.(isMobileMenuOpen := false)
  }

  /** The state after the events, in order. */
  function NavRun(s: NavState, evs: seq<NavEvent>): NavState
    decreases |evs|
  {
    if evs == [] then s else NavRun(NavStep(s, evs[0]), evs[1..])
  }

  lemma {:induction false} NavRunAppend(s: NavState, a: seq<NavEvent>, b: seq<NavEvent>)
    ensures NavRun(s, a + b) == NavRun(NavRun(s, a), b)
    decreases |a|
  {
    if a == [] {
      assert a + b == b;
    } else {
      assert (a + b)[1..] == a[1..] + b;
      NavRunAppend(NavStep(s, a[0]), a[1..], b);
    }
  }

  /** Two presses of the menu button restore the menu. */
  lemma MenuButtonTwiceRestores(s: NavState)
    ensures NavRun(s, [MenuButton, MenuButton]) == s
  {
    assert [MenuButton, MenuButton][1..] == [MenuButton];
  }

  /** After `n` presses the menu is open exactly when it was open and `n` is
      even, or it was closed and `n` is odd. */
  lemma {:induction false} MenuButtonParity(s: NavState, n: nat)
    ensures NavRun(s, seq(n, _ => MenuButton))
      == s.(isMobileMenuOpen := if n % 2 == 0 then s.isMobileMenuOpen else !s.isMobileMenuOpen)
    decreases n
  {
    if n > 0 {
      var presses := seq(n, _ => MenuButton);
      assert presses[1..] == seq(n - 1, _ => MenuButton);
      MenuButtonParity(NavStep(s, MenuButton), n - 1);
    }
  }

  /** Whatever came before, a click on a mobile link leaves the menu closed. */
  lemma MobileLinkCloses(s: NavState, evs: seq<NavEvent>)
    ensures !NavRun(s, evs + [MobileLinkClick]).isMobileMenuOpen
  {
    NavRunAppend(s, evs, [MobileLinkClick]);
  }

  /** The scrolled flag follows the last scroll event only: after any events
      that include a scroll, it holds exactly when the last scroll offset is
      above the threshold; without one it keeps its value. The menu events do
      not touch it. */
  lemma {:induction false} ScrolledFollowsLastScroll(s: NavState, evs: seq<NavEvent>)
    ensures NavRun(s, evs).isScrolled
      == if exists i :: 0 <= i < |evs| && evs[i].Scroll?
         then evs[LastScroll(evs)].scrollY > ScrollThreshold
         else s.isScrolled
    decreases |evs|
  {
    if evs != [] {
      var rest := evs[1..];
      ScrolledFollowsLastScroll(NavStep(s, evs[0]), rest);
      if exists i :: 0 <= i < |rest| && rest[i].Scroll? {
        var i :| 0 <= i < |rest| && rest[i].Scroll?;
        assert evs[i + 1].Scroll?;
        LastScrollInTail(evs);
      } else if evs[0].Scroll? {
        LastScrollIsHead(evs);
      } else {
        forall i | 0 <= i < |evs|
          ensures !evs[i].Scroll?
        {
          if i > 0 { assert rest[i - 1] == evs[i]; }
        }
      }
    }
  }

  /** The index of the last scroll event. */
  function LastScroll(evs: seq<NavEvent>): (k: nat)
    requires exists i :: 0 <= i < |evs| && evs[i].Scroll?
    ensures k < |evs| && evs[k].Scroll?
    ensures forall j | k < j < |evs| :: !evs[j].Scroll?
    decreases |evs|
  {
    if evs[|evs| - 1].Scroll? then |evs| - 1
    else
      var i :| 0 <= i < |evs| && evs[i].Scroll?;
      assert evs[..|evs| - 1][i] == evs[i];
      LastScroll(evs[..|evs| - 1])
  }

  lemma LastScrollInTail(evs: seq<NavEvent>)
    requires |evs| > 0
    requires exists i :: 0 <= i < |evs[1..]| && evs[1..][i].Scroll?
    ensures exists i :: 0 <= i < |evs| && evs[i].Scroll?
    ensures LastScroll(evs) == LastScroll(evs[1..]) + 1
  {
  }

  lemma LastScrollIsHead(evs: seq<NavEvent>)
    requires |evs| > 0 && evs[0].Scroll?
    requires !exists i :: 0 <= i < |evs[1..]| && evs[1..][i].Scroll?
    ensures LastScroll(evs) == 0
  {
    forall j | 0 < j < |evs|
      ensures !evs[j].Scroll?
    {
      assert evs[1..][j - 1] == evs[j];
    }
  }

  /** Scrolling never opens or closes the menu, and the menu never changes the
      scrolled flag. */
  lemma ScrollAndMenuIndependent(s: NavState, ev: NavEvent)
    ensures ev.Scroll? ==> NavStep(s, ev).isMobileMenuOpen == s.isMobileMenuOpen
    ensures !ev.Scroll? ==> NavStep(s, ev).isScrolled == s.isScrolled
  {
  }

  /** The header component's state and its event handlers. */
  class NavigationBar {
    var isScrolled: bool
    var isMobileMenuOpen: bool

    function State(): NavState
      reads this
    {
      NavState(isScrolled, isMobileMenuOpen)
    }

    constructor ()
      ensures State() == InitialNav
    {
      isScrolled, isMobileMenuOpen := false, false;
    }

    /** The window's scroll listener. */
    method HandleScroll(scrollY: real)
      modifies this
      ensures State() == NavStep(old(State()), Scroll(scrollY))
      ensures isScrolled <==> scrollY > ScrollThreshold
    {
      isScrolled := scrollY > ScrollThreshold;
    }

    /** The menu button's click handler. */
    method ToggleMobileMenu()
      modifies this
      ensures State() == NavStep(old(State()), MenuButton)
      ensures isMobileMenuOpen == !old(isMobileMenuOpen)
    {
      isMobileMenuOpen := !isMobileMenuOpen;
    }

    /** The click handler of every link in the mobile menu. */
    method MobileLinkClicked()
      modifies this
      ensures State() == NavStep(old(State()), MobileLinkClick)
      ensures !isMobileMenuOpen && isScrolled == old(isScrolled)
    {
      isMobileMenuOpen := false;
    }
  }
}
