/** The navigation bar: the mobile menu toggle and the highlighting of the
    link that belongs to the section being read. */
module Navigation {
  import opened Optional

  /** A `section[id]` element of the page: its id and its `offsetTop`, the
      distance in pixels from the top of its offset parent. */
  datatype Section = Section(id: string, offsetTop: int)

  /** The page is scrolled far enough for `s` to count as reached: the
      section's top is at most 200 pixels below the top of the window. */
  predicate Reached(s: Section, scrollY: int) {
    scrollY >= s.offsetTop - 200
  }

  /** The position, in document order, of the last reached section. */
  function LastReached(sections: seq<Section>, scrollY: int): (m: Option<nat>)
    ensures m.Some? ==> m.value < |sections| && Reached(sections[m.value], scrollY)
    ensures m.Some? ==> forall j :: m.value < j < |sections| ==> !Reached(sections[j], scrollY)
    ensures m.None? <==> forall j :: 0 <= j < |sections| ==> !Reached(sections[j], scrollY)
  {
    if |sections| == 0 then None
    else if Reached(sections[|sections| - 1], scrollY) then Some(|sections| - 1)
    else LastReached(sections[..|sections| - 1], scrollY)
  }

  /** The id of the section being read: the last reached one, or the empty
      string when none is reached. */
  function CurrentId(sections: seq<Section>, scrollY: int): string {
    match LastReached(sections, scrollY)
    case Some(i) => sections[i].id
    case None => ""
  }

  /** The section loop of the scroll handler: every reached section
      overwrites `current`, so the last one wins. */
  method ActiveSectionId(sections: seq<Section>, scrollY: int) returns (current: string)
    ensures current == CurrentId(sections, scrollY)
    ensures current == "" || exists j :: 0 <= j < |sections| && sections[j].id == current
  {
    current := "";
    var i := 0;
    while i < |sections|
      invariant 0 <= i <= |sections|
      invariant current == CurrentId(sections[..i], scrollY)
    {
      assert sections[..i + 1][..i] == sections[..i];
      if scrollY >= sections[i].offsetTop - 200 {
        current := sections[i].id;
      }
      i := i + 1;
    }
    assert sections[..i] == sections;
  }

  /** Scrolling further down never moves the highlight back to an earlier
      section, whatever the order of the sections' offsets. */
  lemma {:induction false} LastReachedMonotone(sections: seq<Section>, y1: int, y2: int)
    requires y1 <= y2
    ensures LastReached(sections, y1).Some? ==> LastReached(sections, y2).Some?
    ensures LastReached(sections, y1).Some? ==> LastReached(sections, y1).value <= LastReached(sections, y2).value
  {
    if |sections| > 0 && !Reached(sections[|sections| - 1], y2) {
      LastReachedMonotone(sections[..|sections| - 1], y1, y2);
    }
  }

  /** With the sections in ascending offset order, the section being read
      is the one whose band [top - 200, next top - 200) holds the scroll
      position. */
  lemma CurrentIsBand(sections: seq<Section>, scrollY: int, i: nat)
    requires forall a, b :: 0 <= a < b < |sections| ==> sections[a].offsetTop <= sections[b].offsetTop
    requires i < |sections| && Reached(sections[i], scrollY)
    requires i + 1 == |sections| || !Reached(sections[i + 1], scrollY)
    ensures LastReached(sections, scrollY) == Some(i)
  {
  }

  /** An `a.nav-link` of the menu: its `href` and whether it carries the
      `active` class. */
  class NavLink {
    const href: string
    var active: bool

    constructor (href: string)
      ensures this.href == href && !active
    {
      this.href := href;
      active := false;
    }
  }

  /** The link loop of the scroll handler: every link loses `active`, and
      gets it back exactly when its `href` is `#` followed by `current`. */
  method UpdateActiveLinks(links: seq<NavLink>, current: string)
    modifies set l | l in links
    ensures forall l :: l in links ==> l.active == (l.href == "#" + current)
  {
    var i := 0;
    while i < |links|
      invariant 0 <= i <= |links|
      invariant forall j :: 0 <= j < i ==> links[j].active == (links[j].href == "#" + current)
    {
      links[i].active := false;
      if links[i].href == "#" + current {
        links[i].active := true;
      }
      i := i + 1;
    }
  }

  /** The active-link scroll handler: exactly the links pointing at the
      section being read are highlighted; when no section is reached, the
      links whose `href` is the bare `#` are. */
  method OnScroll(sections: seq<Section>, links: seq<NavLink>, scrollY: int)
    modifies set l | l in links
    ensures forall l :: l in links ==> l.active == (l.href == "#" + CurrentId(sections, scrollY))
    ensures LastReached(sections, scrollY).None? ==> forall l :: l in links ==> l.active == (l.href == "#")
  {
    var current := ActiveSectionId(sections, scrollY);
    UpdateActiveLinks(links, current);
  }

  /** The hamburger button and the menu it opens. */
  class Menu {
    var hamburgerActive: bool
    var navMenuActive: bool

    /** The button and the menu are open together or closed together. */
    predicate InSync()
      reads this
    {
      hamburgerActive == navMenuActive
    }

    constructor ()
      ensures InSync() && !hamburgerActive && !navMenuActive
    {
      hamburgerActive := false;
      navMenuActive := false;
    }

    /** A click on the hamburger toggles `active` on both elements. */
    method Toggle()
      modifies this
      ensures hamburgerActive == !old(hamburgerActive) && navMenuActive == !old(navMenuActive)
      ensures old(InSync()) ==> InSync()
    {
      hamburgerActive := !hamburgerActive;
      navMenuActive := !navMenuActive;
    }

    /** A click on any navigation link closes the menu. */
    method LinkClicked()
      modifies this
      ensures !hamburgerActive && !navMenuActive && InSync()
    {
      hamburgerActive := false;
      navMenuActive := false;
    }
  }
}
