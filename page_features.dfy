/** The features page: the seven-tab navigation variant and the version-specific documentation links. */
module FeaturesPage {
  import opened Navigation
  import opened SiteLinks

  const Page := "Features"
  const JppfVersion := "6.2"

  const TopTabs: seq<Tab> := [
    Tab("Home", "header_item_start"), Tab("About", ""), Tab("Features", ""), Tab("Download", ""),
    Tab("Documentation", ""), Tab("On Github", ""), Tab("Forums", "header_item_end")]

  const Site: seq<Entry> := [
    Entry("Home", ["Home"]), Entry("About", ["About"]), Entry("Download", ["Download"]),
    Entry("Features", ["Features"]), Entry("Patches", ["Patches"]), Entry("Samples", ["Samples"]),
    Entry("License", ["License"]), Entry("On Github", ["On Github"])]
  const Docs: seq<Entry> := [
    Entry("All docs", ["All docs"]),
    Entry("v6.2 (beta)", ["v6.2 (beta)", "v6.2-beta"]), Entry("v6.1", ["v6.1", "v6.1"]),
    Entry("v6.0", ["v6.0", "v6.0"]), Entry("v5.2", ["v5.2", "v5.2"])]
  const Javadoc: seq<Entry> := [
    Entry("All Javadoc", ["All Javadoc"]),
    Entry("v6.2 (beta)", []), Entry("v6.1", []), Entry("v6.0", []), Entry("v5.2", [])]
  const DotNet: seq<Entry> := [
    Entry("All .Net APIs", ["All .Net APIs"]),
    Entry("v6.0", []), Entry("v5.2", []), Entry("v5.1", []), Entry("v5.0", [])]
  const Tracker: seq<Entry> := [
    Entry("Github issues", ["Github issues"]), Entry("Issue tracker", ["Issue tracker"]),
    Entry("next version", []), Entry("maintenance", [])]
  const Community: seq<Entry> := [
    Entry("Press", ["Press"]), Entry("Release notes", ["Release notes"]), Entry("Quotes", ["Quotes"]),
    Entry("Screenshots", ["Screenshots"]), Entry("CI", ["CI"]), Entry("News", ["News"])]
  const Contact: seq<Entry> := [Entry("Contacts", ["Contacts"]), Entry("Services", ["Services"])]

  const Sidebar: seq<Entry> := Site + Docs + Javadoc + DotNet + Tracker + Community + Contact

  /** Only the first and the last of the seven tabs carry a position suffix. */
  lemma TabPositions()
    ensures |TopTabs| == 7
    ensures TopTabs[0].position == "header_item_start" && TopTabs[6].position == "header_item_end"
    ensures forall i :: 1 <= i < 6 ==> TopTabs[i].position == ""
    ensures DistinctNames(TopTabs)
  {
  }

  /** The beta entry answers to two identifiers; the v6.1 entry repeats one, so it answers to "v6.1" only. */
  lemma DocEntries(p: string)
    ensures ItemClass(p, Docs[1]) == ItemActive <==> p == "v6.2 (beta)" || p == "v6.2-beta"
    ensures ItemClass(p, Docs[2]) == ItemActive <==> p == "v6.1"
  {
  }

  /** The page's documentation links point into the 6.2 documentation. */
  lemma VersionedDocLinks(title: string)
    ensures StartsWith(DocLink(JppfVersion, title), "/doc/6.2/")
    ensures DocLink(JppfVersion, "Introduction") == "/doc/6.2/index.php?title=Introduction"
  {
    DocLinkParts(JppfVersion, title);
  }

  /** On the features page exactly the Features tab and the Features entry are active. */
  lemma FeaturesActivity()
    ensures ActiveTabs(Page, TopTabs) == ["Features"]
    ensures ActiveEntries(Page, Sidebar) == ["Features"]
  {
    TabsActivity();
    SiteActivity(); DocsActivity(); JavadocActivity(); DotNetActivity();
    TrackerActivity(); CommunityActivity(); ContactActivity();
    ActiveEntriesOfGroups(Page, Site, Docs, Javadoc, DotNet, Tracker, Community, Contact, [Page]);
  }

  // The activity of each group on this page, by evaluation.
  lemma TabsActivity() ensures ActiveTabs(Page, TopTabs) == [Page] {}
  lemma SiteActivity() ensures ActiveEntries(Page, Site) == [Page] {}
  lemma DocsActivity() ensures ActiveEntries(Page, Docs) == [] {}
  lemma JavadocActivity() ensures ActiveEntries(Page, Javadoc) == [] {}
  lemma DotNetActivity() ensures ActiveEntries(Page, DotNet) == [] {}
  lemma TrackerActivity() ensures ActiveEntries(Page, Tracker) == [] {}
  lemma CommunityActivity() ensures ActiveEntries(Page, Community) == [] {}
  lemma ContactActivity() ensures ActiveEntries(Page, Contact) == [] {}
}
