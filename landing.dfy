/** The logic of the landing page, `src/app/landing.tsx`: the rotating word
    of the hero title (`TextRotate`), and the header's menu, scroll flag and
    in-page anchor links (`HeroHeader`). */
module Landing {
  import opened Common

  /** `TextRotate` starts on its first text. */
  const InitialTextIndex := 0

  /** One tick of `TextRotate`'s interval:
      `prevIndex === texts.length - 1 ? 0 : prevIndex + 1`. */
  function Rotate(prevIndex: int, len: int): (r: int)
    ensures r == 0 || r == prevIndex + 1
    ensures 0 <= prevIndex < len ==> 0 <= r < len
  {
    if prevIndex == len - 1 then 0 else prevIndex + 1
  }

  /** The index after `steps` ticks. */
  function RotateTimes(index: int, len: int, steps: nat): int
  {
    if steps == 0 then index else Rotate(RotateTimes(index, len, steps - 1), len)
  }

  /** For a non-empty list of texts, one tick stays in range and is the
      successor modulo the number of texts. */
  lemma RotateIsModular(prevIndex: int, len: int)
    requires 0 <= prevIndex < len
    ensures 0 <= Rotate(prevIndex, len) < len
    ensures Rotate(prevIndex, len) == (prevIndex + 1) % len
  {
    if prevIndex < len - 1 {
      assert (prevIndex + 1) % len == prevIndex + 1;
    } else {
      assert prevIndex + 1 == len;
    }
  }

  /** Within one cycle the index moves `steps` places forward and wraps past
      the last text at most once. */
  lemma {:induction false} RotateWithinCycle(index: int, len: int, steps: nat)
    requires 0 <= index < len && steps <= len
    ensures RotateTimes(index, len, steps) == if index + steps < len then index + steps else index + steps - len
  {
    if steps > 0 {
      RotateWithinCycle(index, len, steps - 1);
    }
  }

  /** After as many ticks as there are texts, the first text is back. */
  lemma RotateFullCycle(index: int, len: int)
    requires 0 <= index < len
    ensures RotateTimes(index, len, len) == index
  {
    RotateWithinCycle(index, len, len);
  }

  /** With no texts, `texts.length - 1` is -1, which the index never equals:
      it grows by one on every tick and never wraps. */
  lemma {:induction false} EmptyTextsNeverWrap(steps: nat)
    ensures RotateTimes(InitialTextIndex, 0, steps) == steps
  {
    if steps > 0 {
      EmptyTextsNeverWrap(steps - 1);
    }
  }

  /** The header's menu links. */
  const MenuHrefs: seq<string> := ["#features-section", "#pricing-section", "/docs", "#preview-section"]

  /** The element id `handleNavClick` looks up: `href.substring(1)`, for an
      href that starts with `#`; other hrefs are not intercepted. */
  function AnchorTarget(href: string): (r: Option<string>)
    ensures r.Some? <==> |href| > 0 && href[0] == '#'
    ensures r.Some? ==> href == "#" + r.value
  {
    if |href| > 0 && href[0] == '#' then Some(href[1..]) else None
  }

  /** Every in-page anchor resolves to the id it names. */
  lemma AnchorRoundTrip(id: string)
    ensures AnchorTarget("#" + id) == Some(id)
  {
    assert ("#" + id)[1..] == id;
  }

  /** The three `#` menu links are intercepted, "/docs" is left to the router. */
  lemma MenuAnchors()
    ensures AnchorTarget(MenuHrefs[0]) == Some("features-section")
    ensures AnchorTarget(MenuHrefs[1]) == Some("pricing-section")
    ensures AnchorTarget(MenuHrefs[2]) == None
    ensures AnchorTarget(MenuHrefs[3]) == Some("preview-section")
  {
    AnchorRoundTrip("features-section");
    AnchorRoundTrip("pricing-section");
    AnchorRoundTrip("preview-section");
    assert MenuHrefs[0] == "#" + "features-section";
    assert MenuHrefs[1] == "#" + "pricing-section";
    assert MenuHrefs[3] == "#" + "preview-section";
  }

  class HeroHeader {
    var menuState: bool
    var isScrolled: bool

    constructor ()
      ensures !menuState && !isScrolled
    {
      menuState, isScrolled := false, false;
    }

    /** The scroll listener: the header is "scrolled" past 50 pixels. */
    method HandleScroll(scrollY: real)
      modifies this`isScrolled
      ensures isScrolled <==> scrollY > 50.0
    {
      isScrolled := scrollY > 50.0;
    }

    /** The menu button flips the menu. */
    method ToggleMenu()
      modifies this`menuState
      ensures menuState == !old(menuState)
    {
      menuState := !menuState;
    }

    /** `handleNavClick`: for a `#` href, the default navigation is prevented
        and, when the page has an element with that id, it is scrolled to and
        the menu closes. `pageIds` are the ids of the page's elements. */
    method HandleNavClick(href: string, pageIds: set<string>) returns (prevented: bool, scrollTo: Option<string>)
      modifies this`menuState
      ensures prevented <==> |href| > 0 && href[0] == '#'
      ensures scrollTo.Some? <==> prevented && href[1..] in pageIds
      ensures scrollTo.Some? ==> "#" + scrollTo.value == href
      ensures menuState == (if scrollTo.Some? then false else old(menuState))
    {
      prevented, scrollTo := false, None;
      var target := AnchorTarget(href);
      if target.Some? {
        prevented := true;
        if target.value in pageIds {
          scrollTo := target;
          menuState := false;
        }
      }
    }
  }
}
