/**
 * The route controller's decision logic: the feature-flag page table, page
 * lookup by exact route pattern, the parsed URL query and its base query,
 * the rule that resets pagination, and the rewriting of one sidebar href.
 *
 * The query-string library is not part of this model: `parse` and
 * `stringify` are uninterpreted function arguments, and a query is a flat
 * string map.
 */
module Navigation {
  import opened Wrappers
  import opened Strings

  type Query = map<string, string>

  /** The screen component a page renders. */
  datatype Container = DevDocs | Dashboard | Analytics | AnalyticsSettings | AnalyticsReport

  /** One entry of the page table: route pattern and the host menu ids it opens and closes. */
  datatype Page = Page(container: Container, path: string, wpOpenMenu: string, wpClosedMenu: string)

  /** The feature flags `devdocs`, `analytics-dashboard` and `analytics`. */
  datatype Features = Features(devdocs: bool, analyticsDashboard: bool, analytics: bool)

  const WooCommerceMenu: string := "toplevel_page_woocommerce"
  const AnalyticsMenu: string := "toplevel_page_wc-admin-path--analytics-revenue"

  /** The pages each feature flag contributes, in table order. */
  const DevDocsPages: seq<Page> := [
    Page(DevDocs, "/devdocs", WooCommerceMenu, AnalyticsMenu),
    Page(DevDocs, "/devdocs/:component", WooCommerceMenu, AnalyticsMenu)]
  const DashboardPages: seq<Page> := [
    Page(Dashboard, "/", WooCommerceMenu, AnalyticsMenu)]
  const AnalyticsPages: seq<Page> := [
    Page(Analytics, "/analytics", AnalyticsMenu, WooCommerceMenu),
    Page(AnalyticsSettings, "/analytics/settings", AnalyticsMenu, WooCommerceMenu),
    Page(AnalyticsReport, "/analytics/:report", AnalyticsMenu, WooCommerceMenu)]

  /** `getPages`: the table is built by pushing each enabled group in a fixed order. */
  method GetPages(features: Features) returns (pages: seq<Page>)
    ensures pages ==
      (if features.devdocs then DevDocsPages else [])
      + (if features.analyticsDashboard then DashboardPages else [])
      + (if features.analytics then AnalyticsPages else [])
    ensures forall p :: p in pages ==> FlagOf(features, p.container)
    ensures forall i, j :: 0 <= i < j < |pages| ==> pages[i].path != pages[j].path
  {
    pages := [];
    if features.devdocs {
      pages := pages + [DevDocsPages[0]];
      pages := pages + [DevDocsPages[1]];
    }
    if features.analyticsDashboard {
      pages := pages + [DashboardPages[0]];
    }
    if features.analytics {
      pages := pages + [AnalyticsPages[0]];
      pages := pages + [AnalyticsPages[1]];
      pages := pages + [AnalyticsPages[2]];
    }
    assert pages == PageTable(features);
    PageTableFlags(features);
    PageTablePathsDistinct(features);
  }

  /** The table `GetPages` builds, for use in specifications. */
  function PageTable(features: Features): seq<Page> {
    (if features.devdocs then DevDocsPages else [])
      + (if features.analyticsDashboard then DashboardPages else [])
      + (if features.analytics then AnalyticsPages else [])
  }

  /** Every page in the table belongs to an enabled feature. */
  lemma PageTableFlags(features: Features)
    ensures forall p :: p in PageTable(features) ==> FlagOf(features, p.container)
  {
  }

  /** No two pages of the table share a route pattern. */
  lemma PageTablePathsDistinct(features: Features)
    ensures var t := PageTable(features);
      forall i, j :: 0 <= i < j < |t| ==> t[i].path != t[j].path
  {
    assert |DevDocsPages[0].path| == 8 && |DevDocsPages[1].path| == 19 && |DashboardPages[0].path| == 1;
    assert |AnalyticsPages[0].path| == 10 && |AnalyticsPages[1].path| == 19 && |AnalyticsPages[2].path| == 18;
    assert DevDocsPages[1].path[1] == 'd' && AnalyticsPages[1].path[1] == 'a';
    var d := if features.devdocs then DevDocsPages else [];
    var h := if features.analyticsDashboard then DashboardPages else [];
    var a := if features.analytics then AnalyticsPages else [];
    assert PageTable(features) == d + h + a;
    GroupsDistinct(d, h, a);
  }

  /** Three groups with pairwise distinct patterns, each free of repeats, concatenate without repeats. */
  lemma GroupsDistinct(d: seq<Page>, h: seq<Page>, a: seq<Page>)
    requires forall i, j :: 0 <= i < j < |d| ==> d[i].path != d[j].path
    requires forall i, j :: 0 <= i < j < |a| ==> a[i].path != a[j].path
    requires |h| <= 1
    requires forall x, y :: x in d && y in h ==> x.path != y.path
    requires forall x, y :: x in d && y in a ==> x.path != y.path
    requires forall x, y :: x in h && y in a ==> x.path != y.path
    ensures var t := d + h + a;
      forall i, j :: 0 <= i < j < |t| ==> t[i].path != t[j].path
  {
    var t := d + h + a;
    forall i, j | 0 <= i < j < |t| ensures t[i].path != t[j].path {
      if j < |d| {
        assert t[i] == d[i] && t[j] == d[j];
      } else if j < |d| + |h| {
        assert t[j] in h;
        if i >= |d| { assert false; }
        assert t[i] in d;
      } else {
        assert t[j] == a[j - |d| - |h|];
        if i < |d| {
          assert t[i] in d;
        } else if i < |d| + |h| {
          assert t[i] in h;
        } else {
          assert t[i] == a[i - |d| - |h|];
        }
      }
    }
  }

  /** The flag that enables the pages of a container. */
  predicate FlagOf(features: Features, c: Container) {
    match c
    case DevDocs => features.devdocs
    case Dashboard => features.analyticsDashboard
    case _ => features.analytics
  }

  /** Every page of every table opens and closes two distinct, non-empty menus other than `#wpwrap`. */
  lemma PageMenusDistinct(features: Features, p: Page)
    requires p in PageTable(features)
    ensures p.wpOpenMenu != "" && p.wpClosedMenu != "" && p.wpOpenMenu != p.wpClosedMenu
    ensures p.wpOpenMenu != "wpwrap" && p.wpClosedMenu != "wpwrap"
  {
  }

  /** `find(pages, { path })`: the first page whose route pattern equals `path`. */
  function FindPage(pages: seq<Page>, path: string): (r: Option<Page>)
    ensures r.None? <==> forall i :: 0 <= i < |pages| ==> pages[i].path != path
    ensures r.Some? ==> exists i :: (0 <= i < |pages| && pages[i] == r.value && r.value.path == path
      && forall j :: 0 <= j < i ==> pages[j].path != path)
  {
    if pages == [] then None
    else if pages[0].path == path then Some(pages[0])
    else
      var r := FindPage(pages[1..], path);
      assert forall i :: 1 <= i < |pages| ==> pages[i] == pages[1..][i - 1];
      r
  }

  /** Pages before the first one with the pattern do not affect the lookup. */
  lemma {:induction false} FindPageSkips(pre: seq<Page>, rest: seq<Page>, path: string)
    requires forall i :: 0 <= i < |pre| ==> pre[i].path != path
    ensures FindPage(pre + rest, path) == FindPage(rest, path)
  {
    if pre != [] {
      assert (pre + rest)[0] == pre[0];
      assert (pre + rest)[1..] == pre[1..] + rest;
      FindPageSkips(pre[1..], rest, path);
    } else {
      assert pre + rest == rest;
    }
  }

  /** The first page of a non-empty table whose pattern matches is the one found. */
  lemma FindPageHead(pages: seq<Page>, path: string)
    requires pages != [] && pages[0].path == path
    ensures FindPage(pages, path) == Some(pages[0])
  {
  }

  /** The pages enabled before the analytics group. */
  function PagesBeforeAnalytics(features: Features): (pre: seq<Page>)
    ensures forall i :: 0 <= i < |pre| ==> pre[i].path == "/devdocs" || pre[i].path == "/devdocs/:component" || pre[i].path == "/"
  {
    (if features.devdocs then DevDocsPages else []) + (if features.analyticsDashboard then DashboardPages else [])
  }

  /** `/analytics/settings` is served by the settings page, not the `:report` pattern after it. */
  lemma SettingsBeforeReport(features: Features)
    requires features.analytics
    ensures FindPage(PageTable(features), "/analytics/settings") == Some(AnalyticsPages[1])
    ensures FindPage(PageTable(features), "/analytics/:report") == Some(AnalyticsPages[2])
  {
    var table, pre := PageTable(features), PagesBeforeAnalytics(features);
    assert table == pre + AnalyticsPages;
    assert table[|pre| + 1] == AnalyticsPages[1] && table[|pre| + 2] == AnalyticsPages[2];
    PageTablePathsDistinct(features);
    FoundWhenDistinct(table, |pre| + 1);
    FoundWhenDistinct(table, |pre| + 2);
  }

  /** In a table without repeated patterns, every page is found by its own pattern. */
  lemma FoundWhenDistinct(table: seq<Page>, k: nat)
    requires k < |table|
    requires forall i, j :: 0 <= i < j < |table| ==> table[i].path != table[j].path
    ensures FindPage(table, table[k].path) == Some(table[k])
  {
    assert table == table[..k] + table[k..];
    FoundInGroup(table[..k], table[k..], 0);
  }

  /** Behind pages of other patterns, the `k`-th page of a group is found by its pattern when no earlier one shares it. */
  lemma {:induction false} FoundInGroup(pre: seq<Page>, group: seq<Page>, k: nat)
    requires k < |group|
    requires forall i :: 0 <= i < |pre| ==> pre[i].path != group[k].path
    requires forall j :: 0 <= j < k ==> group[j].path != group[k].path
    ensures FindPage(pre + group, group[k].path) == Some(group[k])
  {
    var path := group[k].path;
    var skipped := pre + group[..k];
    assert pre + group == skipped + group[k..];
    FindPageSkips(skipped, group[k..], path);
    FindPageHead(group[k..], path);
  }

  /** A path no pattern equals finds no page: the not-found state. */
  lemma UnknownPathNotFound(features: Features)
    ensures FindPage(PageTable(features), "/unknown").None?
  {
    var t := PageTable(features);
    assert forall i :: 0 <= i < |t| ==> (t[i].path in
      {"/devdocs", "/devdocs/:component", "/", "/analytics", "/analytics/settings", "/analytics/:report"});
  }

  /** `getQuery`: an absent or empty search string is the empty query; otherwise parse what follows `?`. */
  function GetQuery(search: Option<string>, parse: string -> Query): (q: Query)
    ensures search.None? || search.value == "" ==> q == map[]
    ensures search.Some? && search.value != "" ==> q == parse(search.value[1..])
  {
    if search.None? || search.value == "" then map[] else parse(search.value[1..])
  }

  /** `getBaseQuery`: the query with its `page` key deleted and every other key kept. */
  function GetBaseQuery(search: Option<string>, parse: string -> Query): (q: Query)
    ensures q.Keys == GetQuery(search, parse).Keys - {"page"}
    ensures forall k :: k in q ==> q[k] == GetQuery(search, parse)[k]
  {
    GetQuery(search, parse) - {"page"}
  }

  /** The numeric value of a string of decimal digits. */
  function DigitsValue(s: string): (n: nat)
    requires forall i :: 0 <= i < |s| ==> '0' <= s[i] <= '9'
  {
    if s == [] then 0
    else 10 * DigitsValue(s[..|s| - 1]) + (s[|s| - 1] - '0') as nat
  }

  predicate AllDigits(s: string) {
    s != [] && forall i :: 0 <= i < |s| ==> '0' <= s[i] <= '9'
  }

  /** `query.page > 1` under JavaScript's string-to-number conversion, for digit strings. */
  predicate PageAboveOne(q: Query) {
    "page" in q && AllDigits(q["page"]) && DigitsValue(q["page"]) > 1
  }

  /** As JavaScript's number conversion does, leading zeros do not change the page number. */
  lemma {:induction false} LeadingZeroIgnored(s: string)
    requires AllDigits(s)
    ensures AllDigits("0" + s) && DigitsValue("0" + s) == DigitsValue(s)
  {
    var z := "0" + s;
    if |s| == 1 {
      assert z[..|z| - 1] == "0";
      assert s[..|s| - 1] == [];
    } else {
      var init := s[..|s| - 1];
      assert AllDigits(init);
      LeadingZeroIgnored(init);
      assert z[..|z| - 1] == "0" + init;
      assert z[|z| - 1] == s[|s| - 1];
    }
  }

  /** Page `1` is not above one; page `2` and page `02` are. */
  lemma PageAboveOneExamples()
    ensures !PageAboveOne(map["page" := "1"])
    ensures PageAboveOne(map["page" := "2"])
    ensures PageAboveOne(map["page" := "02"])
  {
    assert DigitsValue("1") == 1 && DigitsValue("2") == 2;
    LeadingZeroIgnored("2");
  }

  /** `componentDidUpdate`: replace history with `page: 1` when a paged query's filters change. */
  function ResetsPage(prevSearch: Option<string>, search: Option<string>, parse: string -> Query): (reset: bool)
    ensures reset ==> PageAboveOne(GetQuery(prevSearch, parse))
  {
    PageAboveOne(GetQuery(prevSearch, parse))
      && GetBaseQuery(prevSearch, parse) != GetBaseQuery(search, parse)
  }

  /** Two queries disagree on key `k` (present in one only, or with different values). */
  predicate QueryDiffersAt(a: Query, b: Query, k: string) {
    (k in a) != (k in b) || (k in a && k in b && a[k] != b[k])
  }

  /** The reset fires exactly when the previous page is above 1 and some key other than `page` changed. */
  lemma ResetsPageIff(prevSearch: Option<string>, search: Option<string>, parse: string -> Query)
    ensures ResetsPage(prevSearch, search, parse) <==>
      PageAboveOne(GetQuery(prevSearch, parse))
      && exists k :: k != "page" && QueryDiffersAt(GetQuery(prevSearch, parse), GetQuery(search, parse), k)
  {
    var a, b := GetQuery(prevSearch, parse), GetQuery(search, parse);
    var before, after := GetBaseQuery(prevSearch, parse), GetBaseQuery(search, parse);
    if before != after {
      var k := DifferingKey(before, after);
      assert k != "page" && QueryDiffersAt(a, b, k);
    } else {
      forall k | k != "page" ensures !QueryDiffersAt(a, b, k) {
        assert (k in a) == (k in before) && (k in b) == (k in after);
      }
    }
  }

  /** Some key on which two different queries disagree. */
  lemma DifferingKey(a: Query, b: Query) returns (k: string)
    requires a != b
    ensures QueryDiffersAt(a, b, k)
  {
    if a.Keys != b.Keys {
      if exists x :: x in a && x !in b {
        k :| k in a && k !in b;
      } else {
        k :| k in b && k !in a;
      }
    } else {
      k :| k in a && a[k] != b[k];
    }
  }

  /** A change of `page` alone never resets it. */
  lemma PageOnlyChangeKeepsPage(prevSearch: Option<string>, search: Option<string>, parse: string -> Query)
    requires GetQuery(prevSearch, parse) - {"page"} == GetQuery(search, parse) - {"page"}
    ensures !ResetsPage(prevSearch, search, parse)
  {
  }

  /** `?page=3&filter=A` followed by `?page=3&filter=B` resets; followed by itself it does not. */
  lemma FilterChangeResetsPage(parse: string -> Query)
    requires parse("page=3&filter=A") == map["page" := "3", "filter" := "A"]
    requires parse("page=3&filter=B") == map["page" := "3", "filter" := "B"]
    ensures ResetsPage(Some("?page=3&filter=A"), Some("?page=3&filter=B"), parse)
    ensures !ResetsPage(Some("?page=3&filter=A"), Some("?page=3&filter=A"), parse)
  {
    var prev := "?page=3&filter=A";
    assert prev[1..] == "page=3&filter=A";
    assert "?page=3&filter=B"[1..] == "page=3&filter=B";
    var q := GetQuery(Some(prev), parse);
    assert DigitsValue("3") == 3;
    assert PageAboveOne(q);
    assert QueryDiffersAt(q, GetQuery(Some("?page=3&filter=B"), parse), "filter");
  }

  /** `query.path || 'dashboard'`: a missing or empty path falls back to the dashboard. */
  function PathOf(q: Query): (path: string)
    ensures path != ""
    ensures "path" in q && q["path"] != "" ==> path == q["path"]
    ensures ("path" !in q || q["path"] == "") ==> path == "dashboard"
  {
    if "path" in q && q["path"] != "" then q["path"] else "dashboard"
  }

  /** The prefix the screen name is taken out of. */
  const AnalyticsPrefix: string := "/analytics"

  /**
   * The screen: the path with its first `/analytics`, then its first `/`, removed.
   * A path under `/analytics/` gives the rest of the path, and no path gives `dashboard`.
   */
  function Screen(q: Query): (screen: string)
    ensures var p := PathOf(q);
      |p| > |AnalyticsPrefix| && p[..|AnalyticsPrefix| + 1] == AnalyticsPrefix + "/" ==>
        screen == p[|AnalyticsPrefix| + 1..]
    ensures ("path" !in q || q["path"] == "") ==> screen == "dashboard"
  {
    var p := PathOf(q);
    ScreenOfAnalyticsPath(p);
    ScreenOfDashboard();
    RemoveFirst(RemoveFirst(p, AnalyticsPrefix), "/")
  }

  /** Under `/analytics/`, both removals take off the leading text. */
  lemma ScreenOfAnalyticsPath(p: string)
    ensures |p| > |AnalyticsPrefix| && p[..|AnalyticsPrefix| + 1] == AnalyticsPrefix + "/" ==>
      RemoveFirst(RemoveFirst(p, AnalyticsPrefix), "/") == p[|AnalyticsPrefix| + 1..]
  {
    var n := |AnalyticsPrefix|;
    if |p| > n && p[..n + 1] == AnalyticsPrefix + "/" {
      assert p[0..n] == p[..n + 1][..n];
      assert IndexFrom(p, AnalyticsPrefix, 0) == Some(0);
      var rest := RemoveFirst(p, AnalyticsPrefix);
      assert rest == p[n..];
      assert rest[0..1] == [p[..n + 1][n]];
      assert IndexFrom(rest, "/", 0) == Some(0);
    }
  }

  /** `dashboard` holds neither `/analytics` nor `/`. */
  lemma ScreenOfDashboard()
    ensures RemoveFirst(RemoveFirst("dashboard", AnalyticsPrefix), "/") == "dashboard"
  {
    assert IndexFrom("dashboard", AnalyticsPrefix, 0).None?;
    assert '/' !in "dashboard";
    AbsentNotFound("dashboard", '/', 0);
  }

  /** A character that does not occur is not found. */
  lemma {:induction false} AbsentNotFound(s: string, c: char, from: nat)
    requires c !in s
    ensures IndexFrom(s, [c], from).None?
    decreases |s| - from
  {
    if from + 1 <= |s| {
      assert s[from..from + 1] == [s[from]];
      AbsentNotFound(s, c, from + 1);
    }
  }

  /** The screens whose links keep their own query: the default value passed to the filter hook. */
  const DefaultExcludedScreens: seq<string> := ["devdocs", "stock", "settings", "customers"]

  /** The query a rewritten sidebar link carries: its own, overridden by `nextQuery` unless excluded. */
  function RewrittenQuery(href: string, nextQuery: Query, excluded: seq<string>, parse: string -> Query): (r: Query)
    ensures var own := parse(AfterLast(href, '?'));
      Screen(own) in excluded ==> r == own
    ensures var own := parse(AfterLast(href, '?'));
      Screen(own) !in excluded ==>
        && r.Keys == own.Keys + nextQuery.Keys
        && (forall k :: k in nextQuery ==> r[k] == nextQuery[k])
        && (forall k :: k in own && k !in nextQuery ==> r[k] == own[k])
  {
    var own := parse(AfterLast(href, '?'));
    if Screen(own) in excluded then own else own + nextQuery
  }

  /**
   * `updateLinkHref` as a value: `None` when the item is left untouched,
   * otherwise the new href, which the click handler also pushes.
   */
  function LinkRewrite(href: string, nextQuery: Query, excluded: seq<string>,
                       parse: string -> Query, stringify: Query -> string): (r: Option<string>)
    ensures r.None? <==> !IsWcAdminHref(href)
    ensures r.Some? ==> r.value == "admin.php?" + stringify(RewrittenQuery(href, nextQuery, excluded, parse))
  {
    if IsWcAdminHref(href) then
      Some("admin.php?" + stringify(RewrittenQuery(href, nextQuery, excluded, parse)))
    else
      None
  }

  /**
   * A link to the analytics settings screen keeps its own query when
   * `settings` is excluded, and takes `nextQuery` in otherwise.
   */
  lemma SettingsLinkExclusion(rest: string, nextQuery: Query, excluded: seq<string>, parse: string -> Query)
    requires '?' !in rest
    requires parse(WcAdminQuery + rest) == map["page" := "wc-admin", "path" := "/analytics/settings"]
    ensures var href := WcAdminPattern + rest;
      var own := map["page" := "wc-admin", "path" := "/analytics/settings"];
      && IsWcAdminHref(href)
      && ("settings" in excluded ==> RewrittenQuery(href, nextQuery, excluded, parse) == own)
      && ("settings" !in excluded ==> RewrittenQuery(href, nextQuery, excluded, parse) == own + nextQuery)
  {
    WcAdminPrefix(rest);
    SearchOfAdminLink(rest);
    ScreenOfSettings();
  }

  /** With the default exclusions, a link to the analytics settings keeps its own query. */
  lemma DefaultKeepsSettingsQuery(rest: string, nextQuery: Query, parse: string -> Query)
    requires '?' !in rest
    requires parse(WcAdminQuery + rest) == map["page" := "wc-admin", "path" := "/analytics/settings"]
    ensures RewrittenQuery(WcAdminPattern + rest, nextQuery, DefaultExcludedScreens, parse) ==
      map["page" := "wc-admin", "path" := "/analytics/settings"]
  {
    assert DefaultExcludedScreens[2] == "settings";
    SettingsLinkExclusion(rest, nextQuery, DefaultExcludedScreens, parse);
  }

  /** Every href starting with the admin page's address passes the test. */
  lemma WcAdminPrefix(rest: string)
    ensures IsWcAdminHref(WcAdminPattern + rest)
  {
    var href := WcAdminPattern + rest;
    assert href[0..|WcAdminPattern|] == WcAdminPattern;
    assert OccursAt(href, WcAdminPattern, 0);
    ContainsLiteralIsWcAdmin(href);
  }

  /** The query text of an admin-page href is everything after its `?`. */
  lemma SearchOfAdminLink(rest: string)
    requires '?' !in rest
    ensures AfterLast(WcAdminPattern + rest, '?') == WcAdminQuery + rest
  {
    var tail := WcAdminQuery + rest;
    PatternParts();
    assert WcAdminPattern + rest == AdminPage + ['?'] + tail;
    assert '?' !in tail by {
      assert forall i :: 0 <= i < |WcAdminQuery| ==> WcAdminQuery[i] != '?';
      assert forall i :: |WcAdminQuery| <= i < |tail| ==> tail[i] == rest[i - |WcAdminQuery|];
    }
    AfterLastIsTail(AdminPage, '?', tail);
  }

  /** The text after the last separator of `a + [sep] + b`, when `b` holds no separator, is `b`. */
  lemma {:induction false} AfterLastIsTail(a: string, sep: char, b: string)
    requires sep !in b
    ensures AfterLast(a + [sep] + b, sep) == b
  {
    if b != [] {
      var s := a + [sep] + b;
      assert s[..|s| - 1] == a + [sep] + b[..|b| - 1];
      AfterLastIsTail(a, sep, b[..|b| - 1]);
    } else {
      assert (a + [sep] + b)[|a|] == sep;
    }
  }

  lemma ScreenOfSettings()
    ensures Screen(map["page" := "wc-admin", "path" := "/analytics/settings"]) == "settings"
  {
    var p := "/analytics/settings";
    assert p[..|AnalyticsPrefix| + 1] == AnalyticsPrefix + "/";
    assert p[|AnalyticsPrefix| + 1..] == "settings";
  }

  /** An href that does not even contain the admin-page marker is never rewritten. */
  lemma NonAdminLinkUntouched(href: string, nextQuery: Query, excluded: seq<string>,
                              parse: string -> Query, stringify: Query -> string)
    requires !IsWcAdminHref(href)
    ensures LinkRewrite(href, nextQuery, excluded, parse, stringify).None?
    ensures !Contains(href, WcAdminPattern)
  {
    if Contains(href, WcAdminPattern) {
      ContainsLiteralIsWcAdmin(href);
    }
  }
}
