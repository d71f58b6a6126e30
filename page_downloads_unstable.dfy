/** The preview-release download page: fixed tag, version and base, and its navigation. */
module UnstableDownloadsPage {
  import opened Navigation
  import opened SiteLinks

  const Page := "Download"
  const Tag1 := "v_6_0_beta"
  const Ver1 := "6.0-beta"
  const Base := ReleaseBase("https://github.com/lolocohen/JPPF", Tag1)

  const TopTabs: seq<Tab> := [
    Tab("Home", "header_item_start"), Tab("About", ""), Tab("Features", ""),
    Tab("Download", ""), Tab("Documentation", ""), Tab("Forums", "header_item_end")]

  const Site: seq<Entry> := [
    Entry("Home", ["Home"]), Entry("About", ["About"]), Entry("Download", ["Download"]),
    Entry("Features", ["Features"]), Entry("Patches", ["Patches"]), Entry("Samples", ["Samples"]),
    Entry("License", ["License"]), Entry("Source code", ["Source code"])]
  const Docs: seq<Entry> := [
    Entry("All docs", ["All docs"]), Entry("v6.0 (beta)", ["v6.0 (beta)"]),
    Entry("v5.2", ["v5.2"]), Entry("v5.1", ["v5.1"]), Entry("v4.2", ["v4.2"])]
  const Javadoc: seq<Entry> := [
    Entry("All Javadoc", ["All Javadoc"]),
    Entry("v6.0 (beta)", []), Entry("v5.2", []), Entry("v5.1", []), Entry("v5.0", [])]
  const DotNet: seq<Entry> := [
    Entry("All .Net APIs", ["All .Net APIs"]),
    Entry("v6.0 (beta)", []), Entry("v5.2", []), Entry("v5.1", []), Entry("v5.0", [])]
  const Tracker: seq<Entry> := [
    Entry("Issue tracker", ["Issue tracker"]),
    Entry("bugs", ["bugs"]), Entry("features", ["features"]), Entry("enhancements", ["enhancements"]),
    Entry("next version", ["next version"]), Entry("maintenance", ["maintenance"])]
  const Community: seq<Entry> := [
    Entry("Press", ["Press"]), Entry("Release notes", ["Release notes"]), Entry("Quotes", ["Quotes"]),
    Entry("Screenshots", ["Screenshots"]), Entry("CI", ["CI"]), Entry("News", ["News"])]
  const Contact: seq<Entry> := [Entry("Contacts", ["Contacts"]), Entry("Services", ["Services"])]

  const Sidebar: seq<Entry> := Site + Docs + Javadoc + DotNet + Tracker + Community + Contact

  /** The beta documentation entry answers to its exact title only. */
  lemma BetaDocEntry(p: string)
    ensures ItemClass(p, Docs[1]) == ItemActive <==> p == "v6.0 (beta)"
  {
  }

  /** Every artifact link of the page lies in the preview folder and names the preview version. */
  lemma PreviewArtifactLink(artifact: string)
    ensures StartsWith(ArtifactUrl(Base, Ver1, artifact), Base + "JPPF-6.0-beta-")
  {
    ArtifactUrlParts(Base, Ver1, artifact);
  }

  /** The source archive of the preview tag. */
  lemma PreviewArchiveLink()
    ensures ArchiveUrl(Tag1) == "https://github.com/lolocohen/JPPF/archive/v_6_0_beta.zip"
  {
  }

  /** On this page exactly the Download tab and the Download entry are active. */
  lemma UnstableDownloadActivity()
    ensures ActiveTabs(Page, TopTabs) == ["Download"]
    ensures ActiveEntries(Page, Sidebar) == ["Download"]
  {
    TabsActivity();
    SiteActivity(); DocsActivity(); JavadocActivity(); DotNetActivity();
    TrackerActivity(); CommunityActivity(); ContactActivity();
    ActiveEntriesOfGroups(Page, Site, Docs, Javadoc, DotNet, Tracker, Community, Contact, [Page]);
  }

  // The activity of each group on this page, by evaluation.
  lemma TabsActivity() ensures ActiveTabs(Page, TopTabs) == [Page] {}
  lemma SiteActivity() ensures ActiveEntries(Page, Site) == [Page] {}
  lemma DocsActivity() ensures ActiveEntries(Page, Docs) == [] {}
  lemma JavadocActivity() ensures ActiveEntries(Page, Javadoc) == [] {}
  lemma DotNetActivity() ensures ActiveEntries(Page, DotNet) == [] {}
  lemma TrackerActivity() ensures ActiveEntries(Page, Tracker) == [] {}
  lemma CommunityActivity() ensures ActiveEntries(Page, Community) == [] {}
  lemma ContactActivity() ensures ActiveEntries(Page, Contact) == [] {}
}
