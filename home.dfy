/** The page shell (src/pages/Home.tsx): the view-state controller that owns
    the theme, the active section and the mobile-menu flag, persists the
    theme, and derives the active section from the scroll position. */
module HomePage {
  import opened Wrappers

  /** The five section ids in rendering order; the scroll tracker searches
      them in this order. */
  const SectionIds: seq<string> := ["hero", "projects", "skills", "about", "contact"]

  /** Pixels added to the vertical scroll offset before matching a section. */
  const Lookahead: int := 100

  /** The two tokens stored under the "theme" key. */
  const DarkToken: string := "dark"
  const LightToken: string := "light"

  /** Geometry of a rendered section element: `offsetTop` and `offsetHeight`. */
  datatype Box = Box(top: int, height: int)

  /** What `document.getElementById` can see: the box of every element that
      is present, by id. An id that is not a key has no element. */
  type Document = map<string, Box>

  /** The half-open range `[top, top + height)` contains `pos`. */
  predicate Contains(b: Box, pos: int)
  {
    b.top <= pos < b.top + b.height
  }

  /** Section `id` has an element and its range contains `pos`. */
  predicate Matches(dom: Document, id: string, pos: int)
  {
    id in dom && Contains(dom[id], pos)
  }

  /** `k` is the first position in `ids` whose section matches `pos`. */
  predicate IsFirstMatch(ids: seq<string>, dom: Document, pos: int, k: int)
  {
    && 0 <= k < |ids|
    && Matches(dom, ids[k], pos)
    && forall j :: 0 <= j < k ==> !Matches(dom, ids[j], pos)
  }

  /** The section the scroll tracker selects for position `pos`, if any:
      sections without an element are skipped, and the search stops at the
      first match. */
  function FindSection(ids: seq<string>, dom: Document, pos: int): (r: Option<string>)
    ensures r.Some? ==> r.value in ids && Matches(dom, r.value, pos)
  {
    if ids == [] then None
    else if Matches(dom, ids[0], pos) then Some(ids[0])
    else FindSection(ids[1..], dom, pos)
  }

  /** The first matching section is the one selected; nothing after it is
      consulted. */
  lemma {:induction false} FindSectionIsFirstMatch(ids: seq<string>, dom: Document, pos: int, k: int)
    requires IsFirstMatch(ids, dom, pos, k)
    ensures FindSection(ids, dom, pos) == Some(ids[k])
  {
    if k > 0 {
      assert !Matches(dom, ids[0], pos);
      forall j | 0 <= j < k - 1
        ensures !Matches(dom, ids[1..][j], pos)
      {
        assert ids[1..][j] == ids[j + 1];
      }
      assert ids[1..][k - 1] == ids[k];
      FindSectionIsFirstMatch(ids[1..], dom, pos, k - 1);
    }
  }

  /** Conversely, a selected section is the first match. */
  lemma {:induction false} FindSectionFound(ids: seq<string>, dom: Document, pos: int)
    requires FindSection(ids, dom, pos).Some?
    ensures exists k :: IsFirstMatch(ids, dom, pos, k) && ids[k] == FindSection(ids, dom, pos).value
  {
    if !Matches(dom, ids[0], pos) {
      FindSectionFound(ids[1..], dom, pos);
      var k :| IsFirstMatch(ids[1..], dom, pos, k) && ids[1..][k] == FindSection(ids[1..], dom, pos).value;
      assert IsFirstMatch(ids, dom, pos, k + 1) by {
        forall j | 0 <= j < k + 1
          ensures !Matches(dom, ids[j], pos)
        {
          if j > 0 {
            assert ids[j] == ids[1..][j - 1];
          }
        }
      }
    } else {
      assert IsFirstMatch(ids, dom, pos, 0);
    }
  }

  /** No section is selected exactly when no present section's range
      contains `pos`. */
  lemma {:induction false} FindSectionNone(ids: seq<string>, dom: Document, pos: int)
    ensures FindSection(ids, dom, pos) == None <==> forall j :: 0 <= j < |ids| ==> !Matches(dom, ids[j], pos)
  {
    if ids != [] {
      FindSectionNone(ids[1..], dom, pos);
      assert forall j :: 0 < j < |ids| ==> ids[j] == ids[1..][j - 1];
    }
  }

  /** Skipping a prefix in which nothing matches does not change the result. */
  lemma {:induction false} FindSectionSkip(ids: seq<string>, dom: Document, pos: int, i: int)
    requires 0 <= i <= |ids|
    requires forall j :: 0 <= j < i ==> !Matches(dom, ids[j], pos)
    ensures FindSection(ids, dom, pos) == FindSection(ids[i..], dom, pos)
  {
    if i > 0 {
      assert ids[1..][i - 1..] == ids[i..];
      forall j | 0 <= j < i - 1
        ensures !Matches(dom, ids[1..][j], pos)
      {
        assert ids[1..][j] == ids[j + 1];
      }
      FindSectionSkip(ids[1..], dom, pos, i - 1);
    }
  }

  /** The theme chosen at start-up from the saved "theme" entry (`None` when
      the key is not set) and the platform's prefers-dark hint. An empty
      saved string is falsy and counts as not set. */
  function ThemeFromStorage(saved: Option<string>, prefersDark: bool): (dark: bool)
    ensures saved.Some? && saved.value != "" ==> (dark <==> saved.value == DarkToken)
    ensures saved.None? || saved.value == "" ==> dark == prefersDark
  {
    if saved.Some? && saved.value != "" then saved.value == DarkToken else prefersDark
  }

  /** The token written under the "theme" key; loading it gives the same
      theme back, whatever the platform hint. */
  function ThemeToken(dark: bool): (token: string)
    ensures token == DarkToken || token == LightToken
    ensures forall prefersDark :: ThemeFromStorage(Some(token), prefersDark) == dark
  {
    if dark then DarkToken else LightToken
  }

  /** The page's view state. The fields are the component's three state
      cells; React setters are modelled as assignments. */
  class Portfolio {
    var isDark: bool
    var activeSection: string
    var isMobileMenuOpen: bool

    /** The active section is always one of the five section ids. */
    ghost predicate Valid()
      reads this
    {
      activeSection in SectionIds
    }

    /** Initial state: dark theme, "hero" active, menu closed. */
    constructor ()
      ensures Valid()
      ensures isDark && activeSection == "hero" && !isMobileMenuOpen
    {
      isDark := true;
      activeSection := "hero";
      isMobileMenuOpen := false;
    }

    /** The mount effect that reads the saved theme. */
    method LoadTheme(saved: Option<string>, prefersDark: bool)
      modifies this`isDark
      ensures Valid() <==> old(Valid())
      ensures isDark == ThemeFromStorage(saved, prefersDark)
      ensures activeSection == old(activeSection) && isMobileMenuOpen == old(isMobileMenuOpen)
    {
      if saved.Some? && saved.value != "" {
        isDark := saved.value == DarkToken;
      } else {
        isDark := prefersDark;
      }
    }

    /** The effect run whenever the theme changes: the document's "dark"
        class flag and the token written to storage. */
    method PersistTheme() returns (darkClass: bool, stored: string)
      ensures darkClass == isDark
      ensures stored == ThemeToken(isDark)
    {
      darkClass := isDark;
      stored := if isDark then DarkToken else LightToken;
    }

    /** The theme button. */
    method ToggleTheme()
      modifies this`isDark
      ensures Valid() <==> old(Valid())
      ensures isDark == !old(isDark)
      ensures activeSection == old(activeSection) && isMobileMenuOpen == old(isMobileMenuOpen)
    {
      isDark := !isDark;
    }

    /** The mobile-menu button. */
    method ToggleMobileMenu()
      modifies this`isMobileMenuOpen
      ensures Valid() <==> old(Valid())
      ensures isMobileMenuOpen == !old(isMobileMenuOpen)
      ensures isDark == old(isDark) && activeSection == old(activeSection)
    {
      isMobileMenuOpen := !isMobileMenuOpen;
    }

    /** The body of the debounced scroll handler: the first section, in
        order, whose present element contains `scrollY + Lookahead` becomes
        active; when none does, the active section is left alone. */
    method HandleScroll(dom: Document, scrollY: int)
      requires Valid()
      modifies this`activeSection
      ensures Valid()
      ensures activeSection == match FindSection(SectionIds, dom, scrollY + Lookahead)
                               case Some(s) => s
                               case None => old(activeSection)
      ensures isDark == old(isDark) && isMobileMenuOpen == old(isMobileMenuOpen)
    {
      var scrollPosition := scrollY + Lookahead;
      ghost var found := false;
      var i := 0;
      while i < |SectionIds|
        invariant 0 <= i <= |SectionIds|
        invariant activeSection == old(activeSection) && !found
        invariant forall j :: 0 <= j < i ==> !Matches(dom, SectionIds[j], scrollPosition)
      {
        var section := SectionIds[i];
        if section in dom {
          var element := dom[section];
          if scrollPosition >= element.top && scrollPosition < element.top + element.height {
            FindSectionIsFirstMatch(SectionIds, dom, scrollPosition, i);
            activeSection := section;
            found := true;
            break;
          }
        }
        i := i + 1;
      }
      if !found {
        FindSectionNone(SectionIds, dom, scrollPosition);
      }
    }
  }

  /** Two presses of the theme button restore the theme and touch nothing else. */
  method ToggleThemeTwice(page: Portfolio)
    modifies page
    ensures page.isDark == old(page.isDark)
    ensures page.activeSection == old(page.activeSection)
    ensures page.isMobileMenuOpen == old(page.isMobileMenuOpen)
  {
    page.ToggleTheme();
    page.ToggleTheme();
  }

  /** A page view loads a theme, optionally toggles it and persists it; the
      next page view loads what was stored and shows the same theme, whatever
      its platform hint. */
  method ThemeSurvivesReload(saved: Option<string>, prefersDark: bool, toggle: bool, nextPrefersDark: bool)
    returns (shown: bool, reloaded: bool)
    ensures reloaded == shown
    ensures shown == (ThemeFromStorage(saved, prefersDark) != toggle)
  {
    var page := new Portfolio();
    page.LoadTheme(saved, prefersDark);
    if toggle {
      page.ToggleTheme();
    }
    var _, stored := page.PersistTheme();
    shown := page.isDark;
    var next := new Portfolio();
    next.LoadTheme(Some(stored), nextPrefersDark);
    reloaded := next.isDark;
  }

  /** Hero occupies [0, 800) and projects [800, 1600): at scroll offset 750
      the lookahead position 850 lies in projects, which becomes active. */
  method LookaheadExample() returns (active: string)
    ensures active == "projects"
  {
    var page := new Portfolio();
    var dom: Document := map["hero" := Box(0, 800), "projects" := Box(800, 800)];
    page.HandleScroll(dom, 750);
    assert IsFirstMatch(SectionIds, dom, 850, 1);
    FindSectionIsFirstMatch(SectionIds, dom, 850, 1);
    active := page.activeSection;
  }
}
