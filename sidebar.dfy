/** The navigation sidebar: collapsed or open, following the screen width
    until the user toggles it, drawn as a drawer on tiny screens, and its
    state remembered in local storage. */
module Sidebar {
  import opened Js
  import opened Wrappers
  import opened Browser

  const COLLAPSED_KEY := "sidebar:collapsed"
  const MOBILE_WIDTH := 1024
  const TINY_WIDTH := 640

  /** `JSON.stringify` of a boolean. */
  function JsonBool(b: bool): string {
    if b then "true" else "false"
  }

  /** A saved value `JSON.parse` reads as a boolean, or none at all; other
      text is not read as a collapse state. */
  predicate SavedIsBoolean(local: Store) {
    !Holds(local, COLLAPSED_KEY) || local[COLLAPSED_KEY] == "true" || local[COLLAPSED_KEY] == "false"
  }

  /** The first value of `collapsed`: the saved boolean when one is saved, else false. */
  function SavedCollapsed(local: Store): (c: bool)
    requires SavedIsBoolean(local)
    ensures c <==> Holds(local, COLLAPSED_KEY) && local[COLLAPSED_KEY] == "true"
  {
    Holds(local, COLLAPSED_KEY) && local[COLLAPSED_KEY] == JsonBool(true)
  }

  /** The sidebar's state and the two media queries it watches. */
  datatype Layout = Layout(collapsed: bool, pinnedByUser: bool, isMobile: bool, isTiny: bool)
  {
    /** `drawerOpen`. */
    predicate DrawerOpen() {
      isTiny && !collapsed
    }

    /** What holds once the effects have run: a tiny screen is a mobile one,
        and until the user toggles, the sidebar is collapsed exactly on mobile screens. */
    predicate Settled() {
      (isTiny ==> isMobile) && (!pinnedByUser ==> collapsed == isMobile)
    }
  }

  /** What the persistence effect writes is read back as the same state. */
  lemma SavedStateRoundTrip(local: Store, collapsed: bool)
    ensures SavedIsBoolean(local[COLLAPSED_KEY := JsonBool(collapsed)])
    ensures SavedCollapsed(local[COLLAPSED_KEY := JsonBool(collapsed)]) == collapsed
  {
  }

  /** The layout of the first render on a screen `width` pixels wide. */
  function FirstRender(local: Store, width: nat): (l: Layout)
    requires SavedIsBoolean(local)
    ensures l.collapsed == SavedCollapsed(local) && !l.pinnedByUser
    ensures l.isMobile <==> width <= MOBILE_WIDTH
    ensures l.isTiny <==> width <= TINY_WIDTH
  {
    Layout(SavedCollapsed(local), false, width <= MOBILE_WIDTH, width <= TINY_WIDTH)
  }

  /** The effect that follows the screen: without a pin, collapsed becomes `isMobile`. */
  function Followed(l: Layout): (m: Layout)
    ensures !l.pinnedByUser ==> m == l.(collapsed := l.isMobile)
    ensures l.pinnedByUser ==> m == l
  {
    if l.pinnedByUser then l else l.(collapsed := l.isMobile)
  }

  /** After the first effects, the saved state is gone: the sidebar is
      collapsed exactly on a mobile screen, whatever was saved. */
  lemma MountForgetsSavedState(local: Store, width: nat)
    requires SavedIsBoolean(local)
    ensures Followed(FirstRender(local, width)).Settled()
    ensures Followed(FirstRender(local, width)).collapsed <==> width <= MOBILE_WIDTH
  {
  }

  /** `toggleSidebar`: the user pins the sidebar and flips it. */
  function Toggled(l: Layout): (m: Layout)
    ensures m.pinnedByUser && m.collapsed == !l.collapsed
    ensures m.isMobile == l.isMobile && m.isTiny == l.isTiny
  {
    l.(pinnedByUser := true, collapsed := !l.collapsed)
  }

  /** Escape closes an open drawer and does nothing otherwise. */
  function Escaped(l: Layout): (m: Layout)
    ensures l.DrawerOpen() ==> m == l.(collapsed := true)
    ensures !l.DrawerOpen() ==> m == l
  {
    if l.DrawerOpen() then l.(collapsed := true) else l
  }

  /** A click on the backdrop collapses the sidebar. */
  function BackdropClicked(l: Layout): (m: Layout)
    ensures m == l.(collapsed := true)
  {
    l.(collapsed := true)
  }

  /** A new window width: the media queries are re-evaluated, and without a
      pin the sidebar follows. */
  function Resized(l: Layout, width: nat): (m: Layout)
    ensures m.isMobile <==> width <= MOBILE_WIDTH
    ensures m.isTiny <==> width <= TINY_WIDTH
    ensures m.pinnedByUser == l.pinnedByUser
    ensures m.pinnedByUser ==> m.collapsed == l.collapsed
    ensures !m.pinnedByUser ==> m.collapsed == m.isMobile
  {
    Followed(l.(isMobile := width <= MOBILE_WIDTH, isTiny := width <= TINY_WIDTH))
  }

  /** Two toggles give back the collapse state, now pinned. */
  lemma ToggleTwice(l: Layout)
    ensures Toggled(Toggled(l)) == l.(pinnedByUser := true)
  {
  }

  /** Every event keeps the settled state, and none removes a pin. */
  lemma EventsKeepSettled(l: Layout, width: nat)
    requires l.Settled()
    ensures Toggled(l).Settled() && Escaped(l).Settled() && Resized(l, width).Settled()
    ensures l.isTiny ==> BackdropClicked(l).Settled()
    ensures l.pinnedByUser ==> Toggled(l).pinnedByUser && Escaped(l).pinnedByUser
                               && BackdropClicked(l).pinnedByUser && Resized(l, width).pinnedByUser
  {
  }

  /** Until the user toggles it, the drawer stays shut: on a tiny screen an
      unpinned sidebar is collapsed, so Escape and the backdrop change nothing. */
  lemma UnpinnedDrawerIsShut(l: Layout)
    requires l.Settled() && !l.pinnedByUser
    ensures !l.DrawerOpen()
    ensures Escaped(l) == l
    ensures l.isTiny ==> BackdropClicked(l) == l
  {
  }

  /** The Users link: shown exactly when the decoded user's `is_admin` is truthy. */
  predicate ShowsUsersLink(user: Option<Object>) {
    user.Some? && Truthy(Get(user.value, "is_admin"))
  }

  /** Without a decoded user, or with one whose `is_admin` is false, missing
      or null, there is no Users link; an admin sees it. */
  lemma UsersLinkForAdminsOnly(user: Object)
    ensures !ShowsUsersLink(None)
    ensures ShowsUsersLink(Some(user)) <==> "is_admin" in user && Truthy(user["is_admin"])
    ensures !ShowsUsersLink(Some(user["is_admin" := Bool(false)]))
    ensures ShowsUsersLink(Some(user["is_admin" := Bool(true)]))
  {
  }

  /** The mounted sidebar component. */
  class SidebarView {
    var collapsed: bool
    var pinnedByUser: bool
    var isMobile: bool
    var isTiny: bool
    const window: Window

    function State(): Layout
      reads this
    {
      Layout(collapsed, pinnedByUser, isMobile, isTiny)
    }

    /** The effects have run: the state is settled and local storage holds it. */
    predicate Valid()
      reads this, window
    {
      State().Settled() && COLLAPSED_KEY in window.local && window.local[COLLAPSED_KEY] == JsonBool(collapsed)
    }

    /** The first render. */
    constructor (window: Window, width: nat)
      requires SavedIsBoolean(window.local)
      ensures this.window == window
      ensures State() == FirstRender(window.local, width)
    {
      this.window := window;
      collapsed := Truthy(Item(window.local, COLLAPSED_KEY)) && window.local[COLLAPSED_KEY] == "true";
      pinnedByUser := false;
      isMobile := width <= MOBILE_WIDTH;
      isTiny := width <= TINY_WIDTH;
    }

    /** The persistence effect: a changed state is written to local storage. */
    method Persist(before: bool)
      modifies window`local
      ensures collapsed != before ==> window.local == old(window.local)[COLLAPSED_KEY := JsonBool(collapsed)]
      ensures collapsed == before ==> window.local == old(window.local)
    {
      if collapsed != before {
        window.local := window.local[COLLAPSED_KEY := JsonBool(collapsed)];
      }
    }

    /** The effects after the first render: the sidebar follows the screen,
        and the state is written to local storage. */
    method Mount()
      requires isTiny ==> isMobile
      modifies this`collapsed, window`local
      ensures State() == Followed(old(State()))
      ensures window.local == old(window.local)[COLLAPSED_KEY := JsonBool(collapsed)]
      ensures Valid()
    {
      window.local := window.local[COLLAPSED_KEY := JsonBool(collapsed)];
      if !pinnedByUser {
        collapsed := isMobile;
      }
      window.local := window.local[COLLAPSED_KEY := JsonBool(collapsed)];
    }

    method ToggleSidebar()
      requires Valid()
      modifies this`collapsed, this`pinnedByUser, window`local
      ensures State() == Toggled(old(State()))
      ensures window.local == old(window.local)[COLLAPSED_KEY := JsonBool(collapsed)]
      ensures Valid()
    {
      var before := collapsed;
      pinnedByUser := true;
      collapsed := !collapsed;
      Persist(before);
    }

    /** The Escape key; it is listened for only while the drawer is open. */
    method Escape()
      requires Valid()
      modifies this`collapsed, window`local
      ensures State() == Escaped(old(State()))
      ensures window.local == old(window.local)[COLLAPSED_KEY := JsonBool(collapsed)]
      ensures Valid()
    {
      var before := collapsed;
      if isTiny && !collapsed {
        collapsed := true;
      }
      Persist(before);
    }

    /** A click on the backdrop, which is drawn only on tiny screens. */
    method BackdropClick()
      requires Valid() && isTiny
      modifies this`collapsed, window`local
      ensures State() == BackdropClicked(old(State()))
      ensures window.local == old(window.local)[COLLAPSED_KEY := JsonBool(collapsed)]
      ensures Valid()
    {
      var before := collapsed;
      collapsed := true;
      Persist(before);
    }

    /** The window is resized to `width` pixels. */
    method Resize(width: nat)
      requires Valid()
      modifies this`collapsed, this`isMobile, this`isTiny, window`local
      ensures State() == Resized(old(State()), width)
      ensures window.local == old(window.local)[COLLAPSED_KEY := JsonBool(collapsed)]
      ensures Valid()
    {
      var before := collapsed;
      isMobile := width <= MOBILE_WIDTH;
      isTiny := width <= TINY_WIDTH;
      if !pinnedByUser {
        collapsed := isMobile;
      }
      Persist(before);
    }
  }
}
