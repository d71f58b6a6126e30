/**
 * The home page: the shared navigation rules for "Home", the page title, the
 * documentation links and the numbered "latest news" list.
 */
module HomePage {
  import opened Navigation
  import opened Text

  const Page := "Home"

  const TopTabs: seq<Tab> := [
    Tab("Home", "header_item_start"), Tab("About", ""), Tab("Features", ""),
    Tab("Download", ""), Tab("Documentation", ""), Tab("Forums", "header_item_end")]

  const Site: seq<Entry> := [
    Entry("Home", ["Home"]), Entry("About", ["About"]), Entry("Download", ["Download"]),
    Entry("6.1 alpha", ["6.1 alpha", "download-unstable"]),
    Entry("Features", ["Features"]), Entry("Patches", ["Patches"]), Entry("Samples", ["Samples"]),
    Entry("License", ["License"]), Entry("Source code", ["Source code"])]
  const Docs: seq<Entry> := [
    Entry("All docs", ["All docs"]),
    Entry("v6.1 (alpha)", ["v6.1 (alpha)", "v6.1"]), Entry("v6.0", ["v6.0", "v6.0"]),
    Entry("v5.2", ["v5.2", "v5.2"]), Entry("v5.1", ["v5.1", "v5.1"])]
  const Javadoc: seq<Entry> := [
    Entry("All Javadoc", ["All Javadoc"]),
    Entry("v6.1 (alpha)", []), Entry("v6.0", []), Entry("v5.2", []), Entry("v5.1", [])]
  const DotNet: seq<Entry> := [
    Entry("All .Net APIs", ["All .Net APIs"]),
    Entry("v6.0", []), Entry("v5.2", []), Entry("v5.1", []), Entry("v5.0", [])]
  const Tracker: seq<Entry> := [
    Entry("Issue tracker", ["Issue tracker"]),
    Entry("bugs", []), Entry("features", []), Entry("enhancements", []),
    Entry("next version", []), Entry("maintenance", [])]
  const Community: seq<Entry> := [
    Entry("Press", ["Press"]), Entry("Release notes", ["Release notes"]), Entry("Quotes", ["Quotes"]),
    Entry("Screenshots", ["Screenshots"]), Entry("CI", ["CI"]), Entry("News", ["News"])]
  const Contact: seq<Entry> := [Entry("Contacts", ["Contacts"]), Entry("Services", ["Services"])]

  const Sidebar: seq<Entry> := Site + Docs + Javadoc + DotNet + Tracker + Community + Contact

  /** The title element's text. */
  function Title(page: string): (t: string)
    ensures |t| == 5 + |page| && t[..5] == "JPPF " && t[5..] == page
  {
    "JPPF " + page
  }

  /** The home page is titled "JPPF Home" and gets the top frame. */
  lemma HomeTitle(requested: Option<string>)
    ensures Title(ResolvePage(Some(Page), requested)) == "JPPF Home"
    ensures ShowsTopFrame(ResolvePage(Some(Page), requested))
  {
  }

  /** The Home tab gets the active class with the start suffix, and the Home entry the active item class. */
  lemma HomeClasses()
    ensures TabClass(Page, TopTabs[0]) == "headerMenuItem2 header_item_start"
    ensures ItemClass(Page, Site[0]) == "aboutMenuItem"
  {
  }

  /** The unstable-download entry answers to its title and to the page name. */
  lemma UnstableEntry(p: string)
    ensures ItemClass(p, Site[3]) == ItemActive <==> p == "6.1 alpha" || p == "download-unstable"
  {
  }

  /** On the home page the Home tab (with its start suffix) and the Home entry are the only active ones. */
  lemma HomeActivity()
    ensures ActiveTabs(Page, TopTabs) == ["Home"]
    ensures ActiveEntries(Page, Sidebar) == ["Home"]
  {
    TabsActivity();
    SiteActivity(); DocsActivity(); JavadocActivity(); DotNetActivity();
    TrackerActivity(); CommunityActivity(); ContactActivity();
    ActiveEntriesOfGroups(Page, Site, Docs, Javadoc, DotNet, Tracker, Community, Contact, [Page]);
  }

  // The activity of each group on this page, by evaluation.
  lemma TabsActivity() ensures ActiveTabs(Page, TopTabs) == [Page] {}
  lemma SiteActivity() ensures ActiveEntries(Page, Site) == [Page] {}
  lemma DocsActivity() ensures ActiveEntries(Page, Docs) == [] {}
  lemma JavadocActivity() ensures ActiveEntries(Page, Javadoc) == [] {}
  lemma DotNetActivity() ensures ActiveEntries(Page, DotNet) == [] {}
  lemma TrackerActivity() ensures ActiveEntries(Page, Tracker) == [] {}
  lemma CommunityActivity() ensures ActiveEntries(Page, Community) == [] {}
  lemma ContactActivity() ensures ActiveEntries(Page, Contact) == [] {}

  // ---------------------------------------------------------------------------
  // Latest news

  /** A row of the news table: its date (month, day, year) and its title. */
  datatype NewsRow = NewsRow(month: nat, day: nat, year: nat, title: string)

  /** What the database calls give the page: a failure (connect, select or query) or the rows. */
  datatype QueryResult = QueryFailed(message: string) | QueryRows(rows: seq<NewsRow>)

  /** The page either dies with a message or renders the news lines. */
  datatype NewsBlock = Died(message: string) | Rendered(lines: seq<string>)

  const MaxNews := 5
  const AnchorPrefix := "<a href='news.php#news"

  /** The "n/j/Y" date format: month, day and year without leading zeros, separated by slashes. */
  function DateText(r: NewsRow): (s: string)
    ensures s == NatStr(r.month) + "/" + NatStr(r.day) + "/" + NatStr(r.year)
    ensures (s[0] == '0') <==> r.month == 0
  {
    NatStr(r.month) + "/" + NatStr(r.day) + "/" + NatStr(r.year)
  }

  /** The link that opens the k-th line: it targets the anchor news{k} of the news page. */
  function Anchor(k: nat): string
  {
    AnchorPrefix + NatStr(k) + "'"
  }

  /** The k-th printed line (1-based): the anchor link to news{k}, then the date, a space and the title. */
  function NewsLine(k: nat, r: NewsRow): string
  {
    Anchor(k) + " style='font-size: 10pt'><span style='white-space: nowrap'>"
      + DateText(r) + " " + r.title + "</span></a><br>"
  }

  /** The lines of the news block: one per row, for the first five rows at most. */
  function NewsLines(rows: seq<NewsRow>): (lines: seq<string>)
    ensures |lines| == if |rows| < MaxNews then |rows| else MaxNews
  {
    var n := if |rows| < MaxNews then |rows| else MaxNews;
    seq(n, k requires 0 <= k < n => NewsLine(k + 1, rows[k]))
  }

  /** The news loop: fetch the next row while there is one and fewer than five lines were printed. */
  method PrintNews(rows: seq<NewsRow>) returns (lines: seq<string>)
    ensures lines == NewsLines(rows)
  {
    lines := [];
    var i := 1;
    var next := 0;
    while next < |rows| && i <= MaxNews
      invariant 1 <= i <= MaxNews + 1 && next == i - 1 <= |rows|
      invariant lines == seq(i - 1, k requires 0 <= k < i - 1 => NewsLine(k + 1, rows[k]))
    {
      var line := rows[next];
      next := next + 1;
      lines := lines + [NewsLine(i, line)];
      i := i + 1;
    }
  }

  /** The news block: a failed database step aborts the page, otherwise the rows are printed. */
  function RenderNews(q: QueryResult): (b: NewsBlock)
    ensures q.QueryFailed? <==> b.Died?
    ensures q.QueryRows? ==> b == Rendered(NewsLines(q.rows))
  {
    match q
    case QueryFailed(m) => Died(m)
    case QueryRows(rows) => Rendered(NewsLines(rows))
  }

  /** Every line starts with its anchor link. */
  lemma NewsLineAnchor(k: nat, r: NewsRow)
    ensures |NewsLine(k, r)| > |Anchor(k)| && NewsLine(k, r)[..|Anchor(k)|] == Anchor(k)
  {
  }

  /** The anchors run news1, news2, ... in row order, so no two lines share an anchor. */
  lemma NewsAnchorsDistinct(rows: seq<NewsRow>, k: nat, l: nat)
    requires k < l < |NewsLines(rows)|
    ensures NewsLines(rows)[k] != NewsLines(rows)[l]
  {
    // at most five lines, so each anchor number is a single digit
    var p := |AnchorPrefix|;
    NewsLineAnchor(k + 1, rows[k]);
    NewsLineAnchor(l + 1, rows[l]);
    assert Anchor(k + 1)[p] == DigitChar(k + 1);
    assert Anchor(l + 1)[p] == DigitChar(l + 1);
  }

  /** A row is not older than another. */
  predicate NotOlder(r: NewsRow, s: NewsRow)
  {
    r.year > s.year || (r.year == s.year && (r.month > s.month || (r.month == s.month && r.day >= s.day)))
  }

  predicate DateDescending(rows: seq<NewsRow>)
  {
    forall i, j :: 0 <= i < j < |rows| ==> NotOlder(rows[i], rows[j])
  }

  /** Newest first: for rows sorted by date descending, the lines show the newest rows, in that order. */
  lemma NewestFirst(rows: seq<NewsRow>)
    requires DateDescending(rows)
    ensures forall k :: 0 <= k < |NewsLines(rows)| ==> NewsLines(rows)[k] == NewsLine(k + 1, rows[k])
    ensures forall k, j :: 0 <= k < |NewsLines(rows)| <= j < |rows| ==> NotOlder(rows[k], rows[j])
  {
  }
}
