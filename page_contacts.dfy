/**
 * The contacts page, built on the older navigation layout: the tab bar has
 * cap images at both ends, and each tab picks a background image as well as a class.
 */
module ContactsPage {
  import opened Navigation

  const Page := "Contacts"

  /** A tab's rendering: its class (cell and link) and its background image. */
  datatype TabStyle = TabStyle(cls: string, background: string)

  /** A menu item with the link it points to. */
  datatype Link = Link(name: string, href: string)

  const TopTabs: seq<Link> := [
    Link("Home", "/index.php"), Link("About", "/about.php"), Link("Download", "/downloads.php"),
    Link("Documentation", "/wiki"), Link("Forums", "/forums")]

  /**
   * The sidebar. The Javadoc link compares the page with the bare word Javadoc,
   * which this PHP generation reads as the string "Javadoc".
   */
  const Sidebar: seq<Link> := SiteItems + ContactItems

  const SiteItems: seq<Link> := [
    Link("Home", "/"), Link("About", "/about.php"), Link("Download", "/downloads.php"),
    Link("Features", "/features.php"), Link("Documentation", "/wiki"), Link("Patches", "/patches.php"),
    Link("Javadoc", "/api-2.0"), Link("Samples", "/samples-pack/index.php"), Link("License", "/license.php"),
    Link("Press", "/press.php"), Link("Release notes", "/release_notes.php?version=2.3"), Link("Quotes", "/quotes.php"),
    Link("Screenshots", "/screenshots.php"), Link("News", "/news.php")]
  const ContactItems: seq<Link> := [Link("Contacts", "/contacts.php"), Link("Services", "/services.php")]

  /** The left cap: the plain start image on the home page, the "active" one elsewhere. */
  function LeftCap(page: string): (image: string)
    ensures image == "btn_start.gif" <==> page == "Home"
    ensures image == "btn_active_start.gif" <==> page != "Home"
  {
    if page == "Home" then "btn_start.gif" else "btn_active_start.gif"
  }

  /** The right cap: the plain end image on the forums page, the "active" one elsewhere. */
  function RightCap(page: string): (image: string)
    ensures image == "btn_end.gif" <==> page == "Forums"
    ensures image == "btn_active_end.gif" <==> page != "Forums"
  {
    if page == "Forums" then "btn_end.gif" else "btn_active_end.gif"
  }

  /** A tab's class and background: the active tab uses btn_main.gif, the others tab_active_main.gif. */
  function Style(page: string, tab: Link): (s: TabStyle)
    ensures s.cls == TabActive <==> page == tab.name
    ensures s.cls == TabInactive <==> page != tab.name
    ensures s.background == "btn_main.gif" <==> s.cls == TabActive
    ensures s.background == "tab_active_main.gif" <==> s.cls == TabInactive
  {
    if page == tab.name then TabStyle(TabActive, "btn_main.gif")
    else TabStyle(TabInactive, "tab_active_main.gif")
  }

  /** A sidebar entry is active exactly when its name is the page. */
  function SidebarClass(page: string, item: Link): (cls: string)
    ensures cls == ItemClass(page, Entry(item.name, [item.name]))
  {
    if page == item.name then ItemActive else ItemInactive
  }

  /** The names of the active tabs and of the active sidebar entries. */
  function ActiveLinks(page: string, links: seq<Link>): (names: seq<string>)
    ensures forall n :: n in names ==> n == page
  {
    if links == [] then [] else (if links[0].name == page then [page] else []) + ActiveLinks(page, links[1..])
  }

  /** Documentation is both a tab and a sidebar entry, and both lead to the wiki. */
  lemma DocumentationLinks()
    ensures TopTabs[3].name == Sidebar[4].name == "Documentation"
    ensures TopTabs[3].href == Sidebar[4].href == "/wiki"
  {
  }

  /** Only the Javadoc entry answers to "Javadoc". */
  lemma JavadocEntry()
    ensures SidebarClass("Javadoc", Sidebar[6]) == ItemActive
  {
  }

  /** On the contacts page both caps are the "active" images, no tab is active and only Contacts is. */
  lemma ContactsActivity()
    ensures LeftCap(Page) == "btn_active_start.gif" && RightCap(Page) == "btn_active_end.gif"
    ensures ActiveLinks(Page, TopTabs) == []
    ensures ActiveLinks(Page, Sidebar) == [Page]
  {
    TabsInactive();
    SiteItemsInactive();
    ContactItemsActivity();
    ActiveLinksAppend(Page, SiteItems, ContactItems);
  }

  lemma {:induction false} ActiveLinksAppend(page: string, a: seq<Link>, b: seq<Link>)
    ensures ActiveLinks(page, a + b) == ActiveLinks(page, a) + ActiveLinks(page, b)
  {
    if a != [] {
      assert (a + b)[1..] == a[1..] + b;
      ActiveLinksAppend(page, a[1..], b);
    } else {
      assert a + b == b;
    }
  }

  // The activity of each part of the menus on this page, by evaluation.
  lemma TabsInactive() ensures ActiveLinks(Page, TopTabs) == [] {}
  lemma SiteItemsInactive() ensures ActiveLinks(Page, SiteItems) == [] {}
  lemma ContactItemsActivity() ensures ActiveLinks(Page, ContactItems) == [Page] {}
}
