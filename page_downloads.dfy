/** The download page: navigation with matchable tracker entries, GitHub and SourceForge links. */
module DownloadsPage {
  import opened Navigation
  import opened SiteLinks

  const Page := "Download"

  const TopTabs: seq<Tab> := [
    Tab("Home", "header_item_start"), Tab("About", ""), Tab("Features", ""),
    Tab("Download", ""), Tab("Documentation", ""), Tab("Forums", "header_item_end")]

  const Site: seq<Entry> := [
    Entry("Home", ["Home"]), Entry("About", ["About"]), Entry("Download", ["Download"]),
    Entry("Features", ["Features"]), Entry("Patches", ["Patches"]), Entry("Samples", ["Samples"]),
    Entry("License", ["License"]), Entry("Source code", ["Source code"])]
  const Docs: seq<Entry> := [
    Entry("All docs", ["All docs"]), Entry("v6.1 (alpha)", ["v6.1 (alpha)"]),
    Entry("v6.0", ["v6.0"]), Entry("v5.2", ["v5.2"]), Entry("v5.1", ["v5.1"])]
  const Javadoc: seq<Entry> := [
    Entry("All Javadoc", ["All Javadoc"]),
    Entry("v6.1 (alpha)", []), Entry("v6.0", []), Entry("v5.2", []), Entry("v5.1", [])]
  const DotNet: seq<Entry> := [
    Entry("All .Net APIs", ["All .Net APIs"]),
    Entry("v6.1 (alpha)", []), Entry("v6.0", []), Entry("v5.2", []), Entry("v5.1", [])]
  const Tracker: seq<Entry> := [
    Entry("Issue tracker", ["Issue tracker"]),
    Entry("bugs", ["bugs"]), Entry("features", ["features"]), Entry("enhancements", ["enhancements"]),
    Entry("next version", ["next version"]), Entry("maintenance", ["maintenance"])]
  const Community: seq<Entry> := [
    Entry("Press", ["Press"]), Entry("Release notes", ["Release notes"]), Entry("Quotes", ["Quotes"]),
    Entry("Screenshots", ["Screenshots"]), Entry("CI", ["CI"]), Entry("News", ["News"])]
  const Contact: seq<Entry> := [Entry("Contacts", ["Contacts"]), Entry("Services", ["Services"])]

  const Sidebar: seq<Entry> := Site + Docs + Javadoc + DotNet + Tracker + Community + Contact

  // The current release, hosted on GitHub.
  const Tag1 := "v_6_0"
  const Ver1 := "6.0"
  const GitHubBase := ReleaseBase("https://github.com/jppf-grid/JPPF", Tag1)
  // The previous release, hosted on SourceForge.
  const Ver2 := "5.2.9"

  /** Tracker entries answer to their own names; equality is case-sensitive, so "features" is not "Features". */
  lemma TrackerEntries()
    ensures ItemClass("features", Tracker[2]) == ItemActive
    ensures ItemClass("Features", Tracker[2]) == ItemInactive
    ensures ItemClass("features", Site[3]) == ItemInactive
  {
  }

  /** The release folder of the current version on GitHub. */
  lemma CurrentReleaseBase()
    ensures GitHubBase == "https://github.com/jppf-grid/JPPF/releases/download/v_6_0/"
  {
  }

  /** The web installer of the current version. */
  lemma CurrentInstallerLink()
    ensures WebInstallerUrl(Ver1) == "/download/6.0/JPPF-6.0-Web-Installer.jar"
  {
  }

  /** The full source archive of the current version. */
  lemma CurrentArchiveLink()
    ensures ArchiveUrl(Tag1) == "https://github.com/lolocohen/JPPF/archive/v_6_0.zip"
  {
  }

  /** On the download page exactly the Download tab and the Download entry are active. */
  lemma DownloadActivity()
    ensures ActiveTabs(Page, TopTabs) == ["Download"]
    ensures ActiveEntries(Page, Sidebar) == ["Download"]
  {
    TabsActivity();
    SiteActivity(); DocsActivity(); JavadocActivity(); DotNetActivity();
    TrackerActivity(); CommunityActivity(); ContactActivity();
    ActiveEntriesOfGroups(Page, Site, Docs, Javadoc, DotNet, Tracker, Community, Contact, [Page]);
  }

  // The activity of each group on this page, by evaluation.
  lemma TabsActivity() ensures ActiveTabs(Page, TopTabs) == [Page] {}
  lemma SiteActivity() ensures ActiveEntries(Page, Site) == [Page] {}
  lemma DocsActivity() ensures ActiveEntries(Page, Docs) == [] {}
  lemma JavadocActivity() ensures ActiveEntries(Page, Javadoc) == [] {}
  lemma DotNetActivity() ensures ActiveEntries(Page, DotNet) == [] {}
  lemma TrackerActivity() ensures ActiveEntries(Page, Tracker) == [] {}
  lemma CommunityActivity() ensures ActiveEntries(Page, Community) == [] {}
  lemma ContactActivity() ensures ActiveEntries(Page, Contact) == [] {}
}
