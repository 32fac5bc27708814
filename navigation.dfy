/**
 * Scroll-position tracking of the navigation bar (main.js:170-223).
 *
 * The page geometry that the browser reports -- each section's offset and
 * height, the scroll offset, the viewport height and the document height --
 * becomes plain inputs. A navigation link is its `href` and whether it carries
 * the `active` class.
 */
module Navigation {
  import opened Wrappers

  /** The id the page falls back to near its top and between sections. */
  const Home := "home"

  /** Within this many pixels of the top the page always counts as home. */
  const TopZone: real := 100.0
  /** The probe point sits this far below the top of the viewport. */
  const ProbeOffset: real := 150.0
  /** Within this many pixels of the bottom the last section wins. */
  const BottomSlack: real := 50.0

  /** A `section[id]` element: its id, `offsetTop` and `offsetHeight`. */
  datatype Section = Section(id: string, top: real, height: real)

  /** The section spans the probe point: its top is at or above it, its bottom below it. */
  predicate Contains(s: Section, pos: real) {
    s.top <= pos < s.top + s.height
  }

  /** The viewport reaches within `BottomSlack` of the end of the document. */
  predicate NearBottom(scrollY: real, innerHeight: real, scrollHeight: real) {
    scrollY + innerHeight >= scrollHeight - BottomSlack
  }

  /**
   * main.js:178-202. `None` stands for the TypeError the script raises when
   * the bottom-of-page rule asks for the last section of an empty list.
   */
  method GetCurrentSection(sections: seq<Section>, scrollY: real, innerHeight: real, scrollHeight: real)
    returns (current: Option<string>)
    // near the top of the page: home, whatever else holds
    ensures scrollY < TopZone ==> current == Some(Home)
    // near the bottom of the page: the last section, or the error when there is none
    ensures scrollY >= TopZone && NearBottom(scrollY, innerHeight, scrollHeight) ==>
      current == if |sections| == 0 then None else Some(sections[|sections| - 1].id)
    // otherwise: the last section in document order spanning the probe point ...
    ensures scrollY >= TopZone && !NearBottom(scrollY, innerHeight, scrollHeight) ==>
      current.Some? &&
      ((exists i :: 0 <= i < |sections| && Contains(sections[i], scrollY + ProbeOffset)
          && current.value == sections[i].id
          && (forall j :: i < j < |sections| ==> !Contains(sections[j], scrollY + ProbeOffset)))
      // ... or home when none spans it
      || ((forall i :: 0 <= i < |sections| ==> !Contains(sections[i], scrollY + ProbeOffset))
          && current.value == Home))
  {
    var scrollPos := scrollY + ProbeOffset;
    if scrollY < TopZone {
      return Some(Home);
    }
    var found := Home;
    ghost var at := -1;
    var i := 0;
    while i < |sections|
      invariant 0 <= i <= |sections|
      invariant -1 <= at < i
      invariant at == -1 ==> found == Home
      invariant at == -1 ==> forall k :: 0 <= k < i ==> !Contains(sections[k], scrollPos)
      invariant at >= 0 ==> Contains(sections[at], scrollPos) && found == sections[at].id
      invariant forall k :: at < k < i ==> !Contains(sections[k], scrollPos)
    {
      var top := sections[i].top;
      var bottom := top + sections[i].height;
      if scrollPos >= top && scrollPos < bottom {
        found := sections[i].id;
        at := i;
      }
      i := i + 1;
    }
    if scrollY + innerHeight >= scrollHeight - BottomSlack {
      if |sections| == 0 {
        return None;
      }
      found := sections[|sections| - 1].id;
    }
    current := Some(found);
  }

  /** A link of `.nav-links` or `.mobile-nav-links` whose `href` starts with `#`. */
  datatype Link = Link(href: string, active: bool)

  /** `href.substring(1)`: the section id the link points at. */
  function Target(href: string): string {
    if |href| == 0 then "" else href[1..]
  }

  /** The link after one pass of main.js:211-222: active exactly when it targets `id`. */
  function Mark(link: Link, id: string): Link {
    Link(link.href, Target(link.href) == id)
  }

  /** Every link marked for `id`, in order. */
  function Highlight(links: seq<Link>, id: string): seq<Link> {
    if links == [] then [] else [Mark(links[0], id)] + Highlight(links[1..], id)
  }

  /** Exactly the links that point at `id` carry the active class. */
  predicate Synced(links: seq<Link>, id: string) {
    forall i :: 0 <= i < |links| ==> (links[i].active <==> Target(links[i].href) == id)
  }

  /** Highlighting keeps every link's href and position and makes it active iff it targets `id`. */
  lemma {:induction false} HighlightMarks(links: seq<Link>, id: string)
    ensures |Highlight(links, id)| == |links|
    ensures forall i :: 0 <= i < |links| ==> Highlight(links, id)[i] == Mark(links[i], id)
    ensures Synced(Highlight(links, id), id)
  {
    if links != [] {
      HighlightMarks(links[1..], id);
      var h := Highlight(links, id);
      forall i | 0 <= i < |links| ensures h[i] == Mark(links[i], id) {
        if i > 0 {
          assert h[i] == Highlight(links[1..], id)[i - 1];
        }
      }
    }
  }

  /** Highlighting twice for the same id is highlighting once. */
  lemma {:induction false} HighlightIdempotent(links: seq<Link>, id: string)
    ensures Highlight(Highlight(links, id), id) == Highlight(links, id)
  {
    if links != [] {
      var h := Highlight(links, id);
      assert h[0] == Mark(links[0], id) && h[1..] == Highlight(links[1..], id);
      HighlightIdempotent(links[1..], id);
    }
  }

  /** The navigation state: the id last highlighted and the links, desktop ones then mobile ones. */
  class NavBar {
    var activeSection: string
    var links: seq<Link>

    constructor (navLinks: seq<Link>, mobileLinks: seq<Link>)
      ensures activeSection == "" && links == navLinks + mobileLinks
    {
      activeSection := "";
      links := navLinks + mobileLinks;
    }

    /** main.js:205-223 */
    method UpdateActiveNavLink(sectionId: string)
      modifies this
      // the same id again: nothing changes
      ensures old(activeSection) == sectionId ==> activeSection == sectionId && links == old(links)
      // a new id: it is recorded and exactly the links pointing at it are active
      ensures old(activeSection) != sectionId ==>
        activeSection == sectionId && links == Highlight(old(links), sectionId)
      ensures old(activeSection) != sectionId || old(Synced(links, activeSection)) ==>
        Synced(links, activeSection)
    {
      if activeSection == sectionId {
        return;
      }
      activeSection := sectionId;
      var i := 0;
      while i < |links|
        invariant 0 <= i <= |links| && |links| == |old(links)|
        invariant activeSection == sectionId
        invariant forall k :: 0 <= k < i ==> links[k] == Mark(old(links)[k], sectionId)
        invariant forall k :: i <= k < |links| ==> links[k] == old(links)[k]
      {
        var linkSection := Target(links[i].href);
        links := links[i := Link(links[i].href, linkSection == sectionId)];
        i := i + 1;
      }
      HighlightMarks(old(links), sectionId);
      assert forall k :: 0 <= k < |links| ==> links[k] == Highlight(old(links), sectionId)[k];
    }
  }
}
