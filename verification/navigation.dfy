/** Page navigation in app.py: the `nav` query parameter set by the home
    page's cards, and the sidebar menu's default position. */
module Navigation {
  import opened Seqs

  /** The sidebar menu, in order. */
  const Pages: seq<string> := ["Home", "Data Source", "Auto Exploration", "Data Copilot", "Manual Exploration", "Dashboard"]

  /** The pages a `nav` query parameter may open. */
  const NavPages: seq<string> := ["Auto Exploration", "Data Copilot", "Manual Exploration"]

  /** The page shown and the query parameters left in the URL. */
  datatype NavState = NavState(page: string, params: map<string, string>)

  /** The navigation handler at the top of app.py. */
  function HandleNav(s: NavState): (r: NavState)
    ensures "nav" in s.params && s.params["nav"] in NavPages ==> r == NavState(s.params["nav"], map[])
    ensures !("nav" in s.params && s.params["nav"] in NavPages) ==> r == s
    ensures r.page in NavPages || r.page == s.page
  {
    if "nav" in s.params && s.params["nav"] in NavPages then NavState(s.params["nav"], map[]) else s
  }

  /** A rerun after handling the parameter changes nothing further. */
  lemma HandleNavIdempotent(s: NavState)
    ensures HandleNav(HandleNav(s)) == HandleNav(s)
  {
  }

  /** Only a listed page changes the page; anything else in `nav` is left in
      the URL and ignored. */
  lemma NavChangesPageOnlyToListed(s: NavState)
    ensures HandleNav(s).page != s.page ==> "nav" in s.params && HandleNav(s).page == s.params["nav"] && HandleNav(s).page in NavPages
    ensures HandleNav(s).params != s.params ==> HandleNav(s).params == map[]
  {
  }

  /** `pages.index(page)`, or 0 when the page is not in the menu. */
  function MenuIndex(page: string): (i: nat)
    ensures i < |Pages|
    ensures page in Pages ==> Pages[i] == page
    ensures page !in Pages ==> i == 0
  {
    IndexOr(Pages, page, 0)
  }

  /** The menu highlights the current page whenever the page is one of its
      entries, and each entry has its own position. */
  lemma MenuIndexRoundTrip(i: nat)
    requires i < |Pages|
    ensures MenuIndex(Pages[i]) == i
  {
    var j := MenuIndex(Pages[i]);
    assert Pages[i] !in Pages[..j];
  }

  /** Every page the `nav` parameter can open is in the menu. */
  lemma NavPagesInMenu()
    ensures forall p :: p in NavPages ==> p in Pages && MenuIndex(p) != 0
  {
    assert NavPages[0] == Pages[2] && NavPages[1] == Pages[3] && NavPages[2] == Pages[4];
    MenuIndexRoundTrip(2);
    MenuIndexRoundTrip(3);
    MenuIndexRoundTrip(4);
  }
}
