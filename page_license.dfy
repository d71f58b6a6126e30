/** The license page: its identifier and its menus, in page order. */
module LicensePage {
  import opened Navigation

  const Page := "License"

  const TopTabs: seq<Tab> := [
    Tab("Home", "header_item_start"), Tab("About", ""), Tab("Features", ""),
    Tab("Download", ""), Tab("Documentation", ""), Tab("Forums", "header_item_end")]

  // The sidebar, group by group (the page separates the groups with rules).
  const Site: seq<Entry> := [
    Entry("Home", ["Home"]), Entry("About", ["About"]), Entry("Download", ["Download"]),
    Entry("Features", ["Features"]), Entry("Patches", ["Patches"]), Entry("Samples", ["Samples"]),
    Entry("License", ["License"]), Entry("Source code", ["Source code"])]
  const Docs: seq<Entry> := [
    Entry("All docs", ["All docs"]),
    Entry("v6.1 (alpha)", ["v6.1 (alpha)", "v6.1"]), Entry("v6.0", ["v6.0", "v6.0"]),
    Entry("v5.2", ["v5.2", "v5.2"]), Entry("v5.1", ["v5.1", "v5.1"])]
  const Javadoc: seq<Entry> := [
    Entry("All Javadoc", ["All Javadoc"]),
    Entry("v6.1 (alpha)", []), Entry("v6.0", []), Entry("v5.2", []), Entry("v5.1", [])]
  const DotNet: seq<Entry> := [
    Entry("All .Net APIs", ["All .Net APIs"]),
    Entry("v6.0", []), Entry("v5.2", []), Entry("v5.1", []), Entry("v5.0", [])]
  const Tracker: seq<Entry> := [
    Entry("Issue tracker", ["Issue tracker"]),
    Entry("bugs", []), Entry("features", []), Entry("enhancements", []),
    Entry("next version", []), Entry("maintenance", [])]
  const Community: seq<Entry> := [
    Entry("Press", ["Press"]), Entry("Release notes", ["Release notes"]), Entry("Quotes", ["Quotes"]),
    Entry("Screenshots", ["Screenshots"]), Entry("CI", ["CI"]), Entry("News", ["News"])]
  const Contact: seq<Entry> := [Entry("Contacts", ["Contacts"]), Entry("Services", ["Services"])]

  const Sidebar: seq<Entry> := Site + Docs + Javadoc + DotNet + Tracker + Community + Contact

  /** The page identifier in effect: the page declares its own, so the request is ignored. */
  lemma PageIsLicense(requested: Option<string>)
    ensures ResolvePage(Some(Page), requested) == "License"
    ensures ShowsTopFrame(ResolvePage(Some(Page), requested))
  {
  }

  /** The alpha documentation entry answers to two identifiers; the API and tracker sub-entries to none. */
  lemma DocEntries(p: string)
    ensures ItemClass(p, Docs[1]) == ItemActive <==> p == "v6.1 (alpha)" || p == "v6.1"
    ensures forall i :: 1 <= i < 5 ==> ItemClass(p, Javadoc[i]) == ItemInactive && ItemClass(p, DotNet[i]) == ItemInactive
    ensures forall i :: 1 <= i < 6 ==> ItemClass(p, Tracker[i]) == ItemInactive
  {
  }

  /** On the license page no top tab is active and the License entry is the only active one. */
  lemma LicenseActivity()
    ensures ActiveTabs(Page, TopTabs) == []
    ensures ActiveEntries(Page, Sidebar) == ["License"]
  {
    TabsInactive();
    SiteActivity(); DocsActivity(); JavadocActivity(); DotNetActivity();
    TrackerActivity(); CommunityActivity(); ContactActivity();
    ActiveEntriesOfGroups(Page, Site, Docs, Javadoc, DotNet, Tracker, Community, Contact, [Page]);
  }

  // The activity of each group on this page, by evaluation.
  lemma TabsInactive() ensures ActiveTabs(Page, TopTabs) == [] {}
  lemma SiteActivity() ensures ActiveEntries(Page, Site) == [Page] {}
  lemma DocsActivity() ensures ActiveEntries(Page, Docs) == [] {}
  lemma JavadocActivity() ensures ActiveEntries(Page, Javadoc) == [] {}
  lemma DotNetActivity() ensures ActiveEntries(Page, DotNet) == [] {}
  lemma TrackerActivity() ensures ActiveEntries(Page, Tracker) == [] {}
  lemma CommunityActivity() ensures ActiveEntries(Page, Community) == [] {}
  lemma ContactActivity() ensures ActiveEntries(Page, Contact) == [] {}
}
