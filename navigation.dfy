/** The section navigation (src/components/ui/navigation.tsx): the table of
    nav items, the smooth-scroll action, the highlighting of the active item
    and the visibility of the mobile list. */
module Navigation {
  import opened Wrappers
  import opened HomePage

  datatype NavItem = NavItem(id: string, text: string)

  /** The nav items, in display order. */
  const NavItems: seq<NavItem> := [
    NavItem("hero", "Home"),
    NavItem("projects", "Projects"),
    NavItem("skills", "Skills"),
    NavItem("about", "About"),
    NavItem("contact", "Contact")
  ]

  /** The navigation lists the scroll tracker's sections, in the same order. */
  lemma NavItemsFollowSections()
    ensures |NavItems| == |SectionIds|
    ensures forall i :: 0 <= i < |NavItems| ==> NavItems[i].id == SectionIds[i]
  {
  }

  /** No two sections share an id. */
  lemma SectionIdsDistinct()
    ensures forall i, j :: 0 <= i < j < |SectionIds| ==> SectionIds[i] != SectionIds[j]
  {
  }

  /** `scrollToSection`: when the target element exists, smooth-scroll to it
      (`scrolled`) and close the mobile menu through the page's setter; when
      it does not, do nothing. The active section is never written here. */
  method ScrollToSection(page: Portfolio, dom: Document, sectionId: string) returns (scrolled: bool)
    modifies page`isMobileMenuOpen
    ensures page.Valid() <==> old(page.Valid())
    ensures scrolled <==> sectionId in dom
    ensures page.isMobileMenuOpen == (if sectionId in dom then false else old(page.isMobileMenuOpen))
    ensures page.activeSection == old(page.activeSection) && page.isDark == old(page.isDark)
  {
    scrolled := false;
    if sectionId in dom {
      scrolled := true;
      page.isMobileMenuOpen := false;
    }
  }

  /** Navigating twice to the same present section leaves the menu closed,
      as navigating once does. */
  method ScrollToSectionTwice(page: Portfolio, dom: Document, sectionId: string)
    requires sectionId in dom
    modifies page`isMobileMenuOpen
    ensures !page.isMobileMenuOpen
    ensures page.activeSection == old(page.activeSection) && page.isDark == old(page.isDark)
  {
    var _ := ScrollToSection(page, dom, sectionId);
    var _ := ScrollToSection(page, dom, sectionId);
  }

  /** One rendered nav button: its item and whether it is highlighted. */
  datatype ItemView = ItemView(item: NavItem, highlighted: bool)

  /** The rendered navigation: the desktop list, and the mobile list when it
      is shown. */
  datatype NavView = NavView(desktop: seq<ItemView>, mobile: Option<seq<ItemView>>)

  function ItemViews(activeSection: string): (views: seq<ItemView>)
    ensures |views| == |NavItems|
    ensures forall i :: 0 <= i < |views| ==>
              views[i].item == NavItems[i] && (views[i].highlighted <==> activeSection == NavItems[i].id)
  {
    seq(|NavItems|, i requires 0 <= i < |NavItems| => ItemView(NavItems[i], activeSection == NavItems[i].id))
  }

  /** The whole navigation for a given active section and menu flag: both
      lists show the same items with the same highlighting, and the mobile
      list is present exactly while the menu is open. */
  function Render(activeSection: string, menuOpen: bool): (v: NavView)
    ensures v.desktop == ItemViews(activeSection)
    ensures v.mobile.Some? <==> menuOpen
    ensures v.mobile.Some? ==> v.mobile.value == v.desktop
  {
    var items := ItemViews(activeSection);
    NavView(items, if menuOpen then Some(items) else None)
  }

  /** When the active section is one of the ids, exactly one item is
      highlighted: the one with that id. */
  lemma ExactlyOneHighlighted(activeSection: string)
    requires activeSection in SectionIds
    ensures exists i :: 0 <= i < |NavItems| && ItemViews(activeSection)[i].highlighted &&
              forall j :: 0 <= j < |NavItems| && ItemViews(activeSection)[j].highlighted ==> j == i
  {
    NavItemsFollowSections();
    SectionIdsDistinct();
    var i :| 0 <= i < |SectionIds| && SectionIds[i] == activeSection;
    assert ItemViews(activeSection)[i].highlighted;
  }

  /** Otherwise no item is highlighted. */
  lemma NoneHighlighted(activeSection: string)
    requires activeSection !in SectionIds
    ensures forall j :: 0 <= j < |NavItems| ==> !ItemViews(activeSection)[j].highlighted
  {
    NavItemsFollowSections();
  }

  /** Since the page keeps its active section among the ids, the rendered
      desktop navigation always highlights exactly one item. */
  lemma PageHighlightsOneItem(page: Portfolio)
    requires page.Valid()
    ensures exists i :: 0 <= i < |NavItems| && Render(page.activeSection, page.isMobileMenuOpen).desktop[i].highlighted &&
              forall j :: 0 <= j < |NavItems| && Render(page.activeSection, page.isMobileMenuOpen).desktop[j].highlighted ==> j == i
  {
    ExactlyOneHighlighted(page.activeSection);
    assert Render(page.activeSection, page.isMobileMenuOpen).desktop == ItemViews(page.activeSection);
  }
}
