/**
 * Navigation rules shared by the JPPF web pages: the default page identifier,
 * the top frame rule, the CSS class of each top-bar tab and of each sidebar entry.
 */
module Navigation {

  datatype Option<T> = None | Some(value: T)

  /** A top-bar tab: the page identifier that activates it and its position suffix. */
  datatype Tab = Tab(name: string, position: string)

  /**
   * A sidebar entry: its title and the page identifiers that make it active.
   * An entry with no identifiers is never active (its class is a constant in the page).
   */
  datatype Entry = Entry(title: string, ids: seq<string>)

  const HomePage := "Home"
  const ForumsPage := "Forums"
  const TabActive := "headerMenuItem2"
  const TabInactive := "headerMenuItem"
  const ItemActive := "aboutMenuItem"
  const ItemInactive := "aboutMenuItem2"

  /**
   * The page identifier after the defaulting block: a page that declared its own
   * identifier keeps it; otherwise the "page" request parameter is used, and a
   * missing or empty parameter becomes "Home".
   */
  function ResolvePage(declared: Option<string>, requested: Option<string>): (page: string)
    ensures declared.Some? ==> page == declared.value
    ensures declared.None? ==> page != ""
    ensures declared.None? && requested.Some? && requested.value != "" ==> page == requested.value
    ensures declared.None? && page != HomePage ==> requested == Some(page)
  {
    match declared
    case Some(p) => p
    case None =>
      if requested.None? || requested.value == "" then HomePage else requested.value
  }

  /** The top frame block is emitted for every page except the forums. */
  predicate ShowsTopFrame(page: string)
  {
    page != ForumsPage
  }

  /**
   * The class of a top-bar tab, used both for its table cell and for its link:
   * the active or inactive name, a space, then the position suffix.
   */
  function TabClass(page: string, tab: Tab): (cls: string)
    ensures |cls| > |TabInactive| && cls[..|TabInactive|] == TabInactive
    ensures cls[|TabInactive|] == '2' <==> page == tab.name
    ensures page == tab.name ==> cls[|TabActive|..] == " " + tab.position
    ensures page != tab.name ==> cls[|TabInactive|..] == " " + tab.position
  {
    (if page == tab.name then TabActive else TabInactive) + " " + tab.position
  }

  /**
   * The class of a sidebar entry. Note the naming is the reverse of the top bar:
   * the ACTIVE entry gets the name without the trailing '2'.
   */
  function ItemClass(page: string, entry: Entry): (cls: string)
    ensures cls == ItemActive <==> page in entry.ids
    ensures cls == ItemInactive <==> page !in entry.ids
    ensures entry.ids == [] ==> cls == ItemInactive
  {
    if page in entry.ids then ItemActive else ItemInactive
  }

  /** The names of the tabs that are active for `page`, in menu order. */
  function ActiveTabs(page: string, tabs: seq<Tab>): (names: seq<string>)
    ensures |names| <= |tabs|
    ensures forall l :: l in names ==> l == page
  {
    if tabs == [] then []
    else (if tabs[0].name == page then [page] else []) + ActiveTabs(page, tabs[1..])
  }

  /** The titles of the sidebar entries that are active for `page`, in menu order. */
  function ActiveEntries(page: string, entries: seq<Entry>): (titles: seq<string>)
    ensures |titles| <= |entries|
  {
    if entries == [] then []
    else (if page in entries[0].ids then [entries[0].title] else []) + ActiveEntries(page, entries[1..])
  }

  /** The names of a menu are pairwise distinct. */
  predicate DistinctNames(tabs: seq<Tab>)
  {
    forall i, j :: 0 <= i < j < |tabs| ==> tabs[i].name != tabs[j].name
  }

  /** Tab activity is exactly equality with the name, so the active tabs are found by name. */
  lemma {:induction false} ActiveTabsByLabel(page: string, tabs: seq<Tab>)
    ensures |ActiveTabs(page, tabs)| > 0 <==> exists i :: 0 <= i < |tabs| && tabs[i].name == page
  {
    if tabs != [] {
      ActiveTabsByLabel(page, tabs[1..]);
      if tabs[0].name != page {
        forall i | 0 <= i < |tabs| && tabs[i].name == page
          ensures exists k :: 0 <= k < |tabs[1..]| && tabs[1..][k].name == page
        {
          assert tabs[1..][i - 1] == tabs[i];
        }
      }
    }
  }

  /** With distinct names, at most one tab is active, and it is the one labelled `page`. */
  lemma {:induction false} AtMostOneActiveTab(page: string, tabs: seq<Tab>)
    requires DistinctNames(tabs)
    ensures |ActiveTabs(page, tabs)| <= 1
  {
    if tabs != [] {
      assert DistinctNames(tabs[1..]) by {
        forall i, j | 0 <= i < j < |tabs[1..]| ensures tabs[1..][i].name != tabs[1..][j].name {
          assert tabs[1..][i] == tabs[i + 1] && tabs[1..][j] == tabs[j + 1];
        }
      }
      AtMostOneActiveTab(page, tabs[1..]);
      if tabs[0].name == page {
        ActiveTabsByLabel(page, tabs[1..]);
        assert !exists i :: 0 <= i < |tabs[1..]| && tabs[1..][i].name == page;
      }
    }
  }

  /** The active entries of a menu made of two groups are those of each group, in order. */
  lemma {:induction false} ActiveEntriesAppend(page: string, a: seq<Entry>, b: seq<Entry>)
    ensures ActiveEntries(page, a + b) == ActiveEntries(page, a) + ActiveEntries(page, b)
  {
    if a != [] {
      assert (a + b)[1..] == a[1..] + b;
      ActiveEntriesAppend(page, a[1..], b);
    } else {
      assert a + b == b;
    }
  }

  /** The active tabs of a bar made of two groups are those of each group, in order. */
  lemma {:induction false} ActiveTabsAppend(page: string, a: seq<Tab>, b: seq<Tab>)
    ensures ActiveTabs(page, a + b) == ActiveTabs(page, a) + ActiveTabs(page, b)
  {
    if a != [] {
      assert (a + b)[1..] == a[1..] + b;
      ActiveTabsAppend(page, a[1..], b);
    } else {
      assert a + b == b;
    }
  }

  /** An entry with no identifiers never appears among the active entries. */
  lemma {:induction false} ActiveEntriesMatch(page: string, entries: seq<Entry>)
    ensures forall t :: t in ActiveEntries(page, entries) ==>
              exists i :: 0 <= i < |entries| && entries[i].title == t && page in entries[i].ids
  {
    if entries != [] {
      ActiveEntriesMatch(page, entries[1..]);
      forall t | t in ActiveEntries(page, entries)
        ensures exists i :: 0 <= i < |entries| && entries[i].title == t && page in entries[i].ids
      {
        if t in ActiveEntries(page, entries[1..]) {
          var k :| 0 <= k < |entries[1..]| && entries[1..][k].title == t && page in entries[1..][k].ids;
          assert entries[k + 1] == entries[1..][k];
        } else {
          assert entries[0].title == t && page in entries[0].ids;
        }
      }
    }
  }

  /** The active entries of a sidebar made of seven groups, from those of each group. */
  lemma ActiveEntriesOfGroups(page: string, g0: seq<Entry>, g1: seq<Entry>, g2: seq<Entry>, g3: seq<Entry>,
                              g4: seq<Entry>, g5: seq<Entry>, g6: seq<Entry>, active: seq<string>)
    requires ActiveEntries(page, g0) == active
    requires ActiveEntries(page, g1) == ActiveEntries(page, g2) == ActiveEntries(page, g3) == []
    requires ActiveEntries(page, g4) == ActiveEntries(page, g5) == ActiveEntries(page, g6) == []
    ensures ActiveEntries(page, g0 + g1 + g2 + g3 + g4 + g5 + g6) == active
  {
    ActiveEntriesAppend(page, g0 + g1 + g2 + g3 + g4 + g5, g6);
    ActiveEntriesAppend(page, g0 + g1 + g2 + g3 + g4, g5);
    ActiveEntriesAppend(page, g0 + g1 + g2 + g3, g4);
    ActiveEntriesAppend(page, g0 + g1 + g2, g3);
    ActiveEntriesAppend(page, g0 + g1, g2);
    ActiveEntriesAppend(page, g0, g1);
  }
}
