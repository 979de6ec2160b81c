/**
 * The host administration menu as the route controller edits it: an array of
 * elements in document order, each with an id, a tag, an href, a click
 * handler (the href it pushes onto history), the index of its parent element
 * and its set of CSS classes.
 *
 * `wpNavMenuUrlUpdate` rewrites the hrefs of the anchors inside the page's
 * two menus; `wpNavMenuClassChange` runs six passes over the class sets.
 * Each pass is a method proved against a function on the element sequence;
 * `Render` ties the page lookup to the two updates.
 */
module WpMenu {
  import opened Wrappers
  import opened Strings
  import opened Navigation

  /** One element of the menu document; `parent` is -1 for a root. */
  datatype Node = Node(
    id: string,
    tag: string,
    href: string,
    onclick: Option<string>,
    parent: int,
    classes: set<string>)

  const Current: string := "current"
  const HasCurrentSubmenu: string := "wp-has-current-submenu"
  const MenuOpen: string := "wp-menu-open"
  const Selected: string := "selected"
  const NotCurrentSubmenu: string := "wp-not-current-submenu"
  const MenuTop: string := "menu-top"
  const ResponsiveOpen: string := "wp-responsive-open"
  const WrapId: string := "wpwrap"

  /** Document order: every element's parent comes before it. */
  predicate WellFormed(s: seq<Node>) {
    forall k :: 0 <= k < |s| ==> -1 <= s[k].parent < k
  }

  /** `b` is `a` with at most hrefs, click handlers and classes changed. */
  predicate SameTree(a: seq<Node>, b: seq<Node>) {
    |a| == |b| &&
    forall k :: 0 <= k < |a| ==> a[k].id == b[k].id && a[k].tag == b[k].tag && a[k].parent == b[k].parent
  }

  /** `b` is `a` with at most classes changed. */
  predicate ClassesOnly(a: seq<Node>, b: seq<Node>) {
    |a| == |b| && forall k :: 0 <= k < |a| ==> a[k].(classes := b[k].classes) == b[k]
  }

  lemma ClassesOnlyIsSameTree(a: seq<Node>, b: seq<Node>)
    requires ClassesOnly(a, b)
    ensures SameTree(a, b)
    ensures forall k :: 0 <= k < |a| ==> a[k].href == b[k].href
  {
    forall k | 0 <= k < |a|
      ensures a[k].id == b[k].id && a[k].tag == b[k].tag && a[k].parent == b[k].parent && a[k].href == b[k].href
    {
      assert a[k].(classes := b[k].classes) == b[k];
    }
  }

  // ---------------------------------------------------------------------------
  // Selectors

  /** Element `j`, or one of its ancestors, has id `id` (`j == -1` is outside the document). */
  predicate InsideId(s: seq<Node>, j: int, id: string)
    requires WellFormed(s) && -1 <= j < |s|
    decreases j + 1
  {
    0 <= j && (s[j].id == id || InsideId(s, s[j].parent, id))
  }

  /** `#open a, #closed a`: an anchor below one of the page's two menus. */
  predicate InPageMenus(s: seq<Node>, k: int, page: Page)
    requires WellFormed(s) && 0 <= k < |s|
  {
    s[k].tag == "a"
      && (InsideId(s, s[k].parent, page.wpOpenMenu) || InsideId(s, s[k].parent, page.wpClosedMenu))
  }

  /** `querySelectorAll('#open a, #closed a')`, as a flag per element. */
  function MenuAnchors(s: seq<Node>, page: Page): (r: seq<bool>)
    requires WellFormed(s)
    ensures |r| == |s| && forall k :: 0 <= k < |s| ==> r[k] == InPageMenus(s, k, page)
  {
    seq(|s|, k requires 0 <= k < |s| => InPageMenus(s, k, page))
  }

  /** Selection by id and ancestry does not see hrefs, handlers or classes. */
  lemma {:induction false} SameTreeInsideId(a: seq<Node>, b: seq<Node>, j: int, id: string)
    requires WellFormed(a) && SameTree(a, b) && -1 <= j < |a|
    ensures WellFormed(b)
    ensures InsideId(a, j, id) == InsideId(b, j, id)
    decreases j + 1
  {
    assert forall k :: 0 <= k < |b| ==> b[k].parent == a[k].parent;
    if 0 <= j {
      SameTreeInsideId(a, b, a[j].parent, id);
    }
  }

  /** The address the current items are matched against. */
  function PageUrl(url: string): (address: string)
    ensures |WcAdminPattern| <= |address| && address[..|WcAdminPattern|] == WcAdminPattern
    ensures url == "/" <==> address == WcAdminPattern
  {
    if url == "/" then "admin.php?page=wc-admin" else "admin.php?page=wc-admin&path=" + url
  }

  /**
   * `a[href$="pageUrl"], a[href*="pageUrl?"]` for the root url, and
   * `a[href*="pageUrl"]` otherwise.
   */
  predicate HrefSelects(href: string, url: string) {
    if url == "/" then EndsWith(href, PageUrl(url)) || Contains(href, PageUrl(url) + "?")
    else Contains(href, PageUrl(url))
  }

  /** `li > a[...]`: element `k` is an anchor whose parent is a list item and whose href selects. */
  predicate IsCurrentItem(s: seq<Node>, k: int, url: string)
    requires 0 <= k < |s|
  {
    s[k].tag == "a" && 0 <= s[k].parent < |s| && s[s[k].parent].tag == "li" && HrefSelects(s[k].href, url)
  }

  /** Every current item's link is one the URL update rewrites: it passes the wc-admin test. */
  lemma CurrentItemIsWcAdminLink(s: seq<Node>, k: int, url: string)
    requires 0 <= k < |s| && IsCurrentItem(s, k, url)
    ensures IsWcAdminHref(s[k].href)
  {
    var href, address := s[k].href, PageUrl(url);
    assert address == WcAdminPattern + address[|WcAdminPattern|..];
    if url == "/" {
      if EndsWith(href, address) {
        EndsWithContains(href, address);
      } else {
        ContainsPrefixOf(href, WcAdminPattern, "?");
      }
    } else {
      ContainsPrefixOf(href, WcAdminPattern, address[|WcAdminPattern|..]);
    }
    ContainsLiteralIsWcAdmin(href);
  }

  /** Element `j` is the parent of one of the first `upTo` elements that is a current item. */
  predicate ParentOfCurrentBefore(s: seq<Node>, j: int, url: string, upTo: int) {
    exists k :: 0 <= k < upTo && k < |s| && s[k].parent == j && IsCurrentItem(s, k, url)
  }

  /** Element `j` is the parent of a current item. */
  predicate IsCurrentParent(s: seq<Node>, j: int, url: string) {
    ParentOfCurrentBefore(s, j, url, |s|)
  }

  lemma ClassesOnlyCurrentParent(a: seq<Node>, b: seq<Node>, url: string)
    requires ClassesOnly(a, b)
    ensures forall j :: IsCurrentParent(a, j, url) == IsCurrentParent(b, j, url)
  {
    ClassesOnlyIsSameTree(a, b);
    forall j ensures IsCurrentParent(a, j, url) == IsCurrentParent(b, j, url) {
      forall k | 0 <= k < |a| ensures IsCurrentItem(a, k, url) == IsCurrentItem(b, k, url) {
        if 0 <= a[k].parent < |a| {
          assert a[a[k].parent].tag == b[b[k].parent].tag;
        }
      }
    }
  }

  /** `querySelector('#id')`: the first element, at or after `from`, with that id. */
  function FirstWithId(s: seq<Node>, id: string, from: nat := 0): (r: Option<nat>)
    decreases |s| - from
    ensures r.Some? ==> from <= r.value < |s| && s[r.value].id == id
    ensures r.Some? ==> forall j :: from <= j < r.value ==> s[j].id != id
    ensures r.None? ==> forall j :: from <= j < |s| ==> s[j].id != id
  {
    if from >= |s| then None
    else if s[from].id == id then Some(from)
    else FirstWithId(s, id, from + 1)
  }

  lemma {:induction false} SameTreeFirstWithId(a: seq<Node>, b: seq<Node>, id: string, from: nat)
    requires SameTree(a, b)
    ensures FirstWithId(a, id, from) == FirstWithId(b, id, from)
    decreases |a| - from
  {
    if from < |a| {
      SameTreeFirstWithId(a, b, id, from + 1);
    }
  }

  // ---------------------------------------------------------------------------
  // wpNavMenuUrlUpdate, as functions

  /** `updateLinkHref` applied to one element. */
  function RewriteNode(n: Node, nextQuery: Query, excluded: seq<string>,
                       parse: string -> Query, stringify: Query -> string): (r: Node)
    ensures r.(href := n.href, onclick := n.onclick) == n
    ensures !IsWcAdminHref(n.href) ==> r == n
    ensures IsWcAdminHref(n.href) ==>
      r.href == "admin.php?" + stringify(RewrittenQuery(n.href, nextQuery, excluded, parse))
      && r.onclick == Some(r.href)
  {
    match LinkRewrite(n.href, nextQuery, excluded, parse, stringify)
    case None => n
    case Some(h) => n.(href := h, onclick := Some(h))
  }

  /** The document after `wpNavMenuUrlUpdate`: every anchor in the page's menus rewritten, nothing else. */
  function UrlUpdated(s: seq<Node>, page: Page, nextQuery: Query, excluded: seq<string>,
                      parse: string -> Query, stringify: Query -> string): (r: seq<Node>)
    requires WellFormed(s)
    ensures SameTree(s, r) && WellFormed(r)
    ensures forall k :: 0 <= k < |s| && !InPageMenus(s, k, page) ==> r[k] == s[k]
    ensures forall k :: 0 <= k < |s| && InPageMenus(s, k, page) ==>
      r[k] == RewriteNode(s[k], nextQuery, excluded, parse, stringify)
  {
    seq(|s|, k requires 0 <= k < |s| =>
      if InPageMenus(s, k, page) then RewriteNode(s[k], nextQuery, excluded, parse, stringify) else s[k])
  }

  /** Rewriting hrefs does not change which anchors the menus' selector finds. */
  lemma UrlUpdateKeepsSelection(s: seq<Node>, page: Page, nextQuery: Query, excluded: seq<string>,
                                parse: string -> Query, stringify: Query -> string)
    requires WellFormed(s)
    ensures MenuAnchors(UrlUpdated(s, page, nextQuery, excluded, parse, stringify), page) == MenuAnchors(s, page)
  {
    var r := UrlUpdated(s, page, nextQuery, excluded, parse, stringify);
    forall k | 0 <= k < |s| ensures InPageMenus(r, k, page) == InPageMenus(s, k, page) {
      SameTreeInsideId(s, r, s[k].parent, page.wpOpenMenu);
      SameTreeInsideId(s, r, s[k].parent, page.wpClosedMenu);
    }
  }

  /**
   * Only wc-admin anchors inside the page's two menus change, and only their href and click handler;
   * each of them gets the rewritten href, and its click pushes that href.
   */
  lemma UrlUpdateTouchesOnlyMenuLinks(s: seq<Node>, page: Page, nextQuery: Query, excluded: seq<string>,
                                      parse: string -> Query, stringify: Query -> string, k: nat)
    requires WellFormed(s) && k < |s|
    ensures var r := UrlUpdated(s, page, nextQuery, excluded, parse, stringify);
      && r[k].(href := s[k].href, onclick := s[k].onclick) == s[k]
      && (r[k] != s[k] ==> InPageMenus(s, k, page) && IsWcAdminHref(s[k].href))
      && (InPageMenus(s, k, page) && IsWcAdminHref(s[k].href) ==>
            r[k].href == "admin.php?" + stringify(RewrittenQuery(s[k].href, nextQuery, excluded, parse))
            && r[k].onclick == Some(r[k].href))
  {
  }

  // ---------------------------------------------------------------------------
  // wpNavMenuClassChange, as functions

  /** Pass 1: no element keeps `current`. */
  function ClearCurrent(s: seq<Node>): (r: seq<Node>)
    ensures ClassesOnly(s, r)
  {
    seq(|s|, k requires 0 <= k < |s| => s[k].(classes := s[k].classes - {Current}))
  }

  /** Pass 2 on one element: an element with the open submenu class is reset to a closed top item. */
  function ResetNode(n: Node): Node {
    if HasCurrentSubmenu in n.classes then
      n.(classes := n.classes - {HasCurrentSubmenu, MenuOpen, Selected} + {NotCurrentSubmenu, MenuTop})
    else n
  }

  /** Pass 2. */
  function ResetSubmenus(s: seq<Node>): (r: seq<Node>)
    ensures ClassesOnly(s, r)
  {
    seq(|s|, k requires 0 <= k < |s| => ResetNode(s[k]))
  }

  /** Pass 3: the parents of the current items gain `current`. */
  function MarkCurrent(s: seq<Node>, url: string): (r: seq<Node>)
    ensures ClassesOnly(s, r)
  {
    MarkedBefore(s, url, |s|)
  }

  /** The document once the first `upTo` elements have been examined by pass 3. */
  function MarkedBefore(s: seq<Node>, url: string, upTo: int): (r: seq<Node>)
    ensures ClassesOnly(s, r)
  {
    seq(|s|, j requires 0 <= j < |s| =>
      if ParentOfCurrentBefore(s, j, url, upTo) then s[j].(classes := s[j].classes + {Current}) else s[j])
  }

  /** Examining element `k` marks its parent when it is a current item, and changes nothing otherwise. */
  lemma MarkStep(s: seq<Node>, url: string, k: nat)
    requires k < |s|
    ensures var m := MarkedBefore(s, url, k);
      MarkedBefore(s, url, k + 1) ==
        if IsCurrentItem(s, k, url)
        then m[s[k].parent := m[s[k].parent].(classes := m[s[k].parent].classes + {Current})]
        else m
  {
    forall j | 0 <= j < |s|
      ensures ParentOfCurrentBefore(s, j, url, k + 1) ==
              (ParentOfCurrentBefore(s, j, url, k) || (IsCurrentItem(s, k, url) && s[k].parent == j))
    {
      if ParentOfCurrentBefore(s, j, url, k + 1) && !(IsCurrentItem(s, k, url) && s[k].parent == j) {
        var i :| 0 <= i < k + 1 && i < |s| && s[i].parent == j && IsCurrentItem(s, i, url);
        assert i != k;
      }
    }
  }

  /** Replace the classes of the first element with id `id`, if any. */
  function EditFirst(s: seq<Node>, id: string, remove: set<string>, add: set<string>): (r: seq<Node>)
    ensures ClassesOnly(s, r)
  {
    match FirstWithId(s, id)
    case None => s
    case Some(k) => s[k := s[k].(classes := s[k].classes - remove + add)]
  }

  /** Pass 4: the page's open menu becomes the current, open submenu. */
  function OpenMenu(s: seq<Node>, id: string): (r: seq<Node>)
    ensures ClassesOnly(s, r)
  {
    if id == "" then s
    else EditFirst(s, id, {NotCurrentSubmenu}, {HasCurrentSubmenu, MenuOpen, Current})
  }

  /** Pass 5: the page's closed menu is closed. */
  function CloseMenu(s: seq<Node>, id: string): (r: seq<Node>)
    ensures ClassesOnly(s, r)
  {
    if id == "" then s
    else EditFirst(s, id, {HasCurrentSubmenu, MenuOpen}, {NotCurrentSubmenu})
  }

  /** Pass 6: the outer wrapper loses its responsive-open class. */
  function CloseWrap(s: seq<Node>): (r: seq<Node>)
    ensures ClassesOnly(s, r)
  {
    EditFirst(s, WrapId, {ResponsiveOpen}, {})
  }

  /** The document after `wpNavMenuClassChange(page, url)`. */
  function ClassChanged(s: seq<Node>, page: Page, url: string): (r: seq<Node>)
    ensures ClassesOnly(s, r)
  {
    var r := CloseWrap(CloseMenu(OpenMenu(MarkCurrent(ResetSubmenus(ClearCurrent(s)), url),
                                          page.wpOpenMenu), page.wpClosedMenu));
    assert ClassesOnly(s, r) by { ClassesOnlyChain(s, page, url); }
    r
  }

  lemma ClassesOnlyTrans(a: seq<Node>, b: seq<Node>, c: seq<Node>)
    requires ClassesOnly(a, b) && ClassesOnly(b, c)
    ensures ClassesOnly(a, c)
  {
    forall k | 0 <= k < |a| ensures a[k].(classes := c[k].classes) == c[k] {
      assert a[k].(classes := b[k].classes) == b[k];
      assert b[k].(classes := c[k].classes) == c[k];
    }
  }

  lemma ClassesOnlyChain(s: seq<Node>, page: Page, url: string)
    ensures ClassesOnly(s, CloseWrap(CloseMenu(OpenMenu(MarkCurrent(ResetSubmenus(ClearCurrent(s)), url),
                                                          page.wpOpenMenu), page.wpClosedMenu)))
  {
    var s1 := ClearCurrent(s);
    var s2 := ResetSubmenus(s1);
    var s3 := MarkCurrent(s2, url);
    var s4 := OpenMenu(s3, page.wpOpenMenu);
    var s5 := CloseMenu(s4, page.wpClosedMenu);
    ClassesOnlyTrans(s, s1, s2);
    ClassesOnlyTrans(s, s2, s3);
    ClassesOnlyTrans(s, s3, s4);
    ClassesOnlyTrans(s, s4, s5);
    ClassesOnlyTrans(s, s5, CloseWrap(s5));
  }

  /** Some element has id `id`. */
  predicate HasId(s: seq<Node>, id: string) {
    exists k :: 0 <= k < |s| && s[k].id == id
  }

  /** The elements `wpNavMenuClassChange` dereferences exist. */
  predicate ClassChangeReady(s: seq<Node>, page: Page) {
    && (page.wpOpenMenu != "" ==> HasId(s, page.wpOpenMenu))
    && (page.wpClosedMenu != "" ==> HasId(s, page.wpClosedMenu))
    && HasId(s, WrapId)
  }

  lemma SameTreeReady(a: seq<Node>, b: seq<Node>, page: Page)
    requires SameTree(a, b) && ClassChangeReady(a, page)
    ensures ClassChangeReady(b, page)
  {
    forall id | HasId(a, id) ensures HasId(b, id) {
      var k :| 0 <= k < |a| && a[k].id == id;
      assert b[k].id == id;
    }
  }

  // ---------------------------------------------------------------------------
  // What wpNavMenuClassChange leaves behind

  /** The element `#open` selects, when the page names one. */
  function OpenIndex(s: seq<Node>, page: Page): Option<nat> {
    if page.wpOpenMenu == "" then None else FirstWithId(s, page.wpOpenMenu)
  }

  /** The element `#closed` selects, when the page names one. */
  function ClosedIndex(s: seq<Node>, page: Page): Option<nat> {
    if page.wpClosedMenu == "" then None else FirstWithId(s, page.wpClosedMenu)
  }

  /** The classes after the first three passes: clear `current`, reset open submenus, mark the parent of a current item. */
  function FirstPasses(c0: set<string>, parent: bool): set<string> {
    var c1 := c0 - {Current};
    var c2 := if HasCurrentSubmenu in c1
              then c1 - {HasCurrentSubmenu, MenuOpen, Selected} + {NotCurrentSubmenu, MenuTop} else c1;
    if parent then c2 + {Current} else c2
  }

  /** The classes after the last three passes: open the page's menu, close the other, close the wrapper. */
  function LastPasses(c3: set<string>, open: bool, closed: bool, wrap: bool): set<string> {
    var c4 := if open then c3 - {NotCurrentSubmenu} + {HasCurrentSubmenu, MenuOpen, Current} else c3;
    var c5 := if closed then c4 - {HasCurrentSubmenu, MenuOpen} + {NotCurrentSubmenu} else c4;
    if wrap then c5 - {ResponsiveOpen} else c5
  }

  /**
   * The classes an element ends with, pass by pass, given whether it is a
   * parent of a current item, the open menu, the closed menu and the wrapper.
   */
  function Passes(c0: set<string>, parent: bool, open: bool, closed: bool, wrap: bool): set<string> {
    LastPasses(FirstPasses(c0, parent), open, closed, wrap)
  }

  /** The classes element `j` of `s` ends with. */
  function FinalClasses(s: seq<Node>, page: Page, url: string, j: nat): set<string>
    requires j < |s|
  {
    Passes(s[j].classes, IsCurrentParent(s, j, url), OpenIndex(s, page) == Some(j),
           ClosedIndex(s, page) == Some(j), FirstWithId(s, WrapId) == Some(j))
  }

  lemma EditFirstAt(s: seq<Node>, id: string, remove: set<string>, add: set<string>, j: nat)
    requires j < |s|
    ensures EditFirst(s, id, remove, add)[j].classes ==
      if FirstWithId(s, id) == Some(j) then s[j].classes - remove + add else s[j].classes
  {
  }

  /** Element by element, the first three passes leave the tree alone and change classes as `FirstPasses` says. */
  lemma FirstPassesAt(s: seq<Node>, url: string, j: nat)
    requires j < |s|
    ensures var s3 := MarkCurrent(ResetSubmenus(ClearCurrent(s)), url);
      ClassesOnly(s, s3) && s3[j].classes == FirstPasses(s[j].classes, IsCurrentParent(s, j, url))
  {
    var s1 := ClearCurrent(s);
    var s2 := ResetSubmenus(s1);
    ClassesOnlyTrans(s, s1, s2);
    ClassesOnlyCurrentParent(s, s2, url);
    ClassesOnlyTrans(s, s2, MarkCurrent(s2, url));
  }

  /** Element by element, the class change is the composition of its six passes. */
  lemma ClassChangedAt(s: seq<Node>, page: Page, url: string, j: nat)
    requires j < |s|
    ensures ClassChanged(s, page, url)[j] == s[j].(classes := FinalClasses(s, page, url, j))
  {
    var s3 := MarkCurrent(ResetSubmenus(ClearCurrent(s)), url);
    var s4 := OpenMenu(s3, page.wpOpenMenu);
    var s5 := CloseMenu(s4, page.wpClosedMenu);
    var s6 := CloseWrap(s5);
    FirstPassesAt(s, url, j);
    ClassesOnlyTrans(s, s3, s4);
    ClassesOnlyTrans(s, s4, s5);
    ClassesOnlyIsSameTree(s, s3);
    ClassesOnlyIsSameTree(s, s4);
    ClassesOnlyIsSameTree(s, s5);
    SameTreeFirstWithId(s, s3, page.wpOpenMenu, 0);
    SameTreeFirstWithId(s, s4, page.wpClosedMenu, 0);
    SameTreeFirstWithId(s, s5, WrapId, 0);
    if page.wpOpenMenu != "" {
      EditFirstAt(s3, page.wpOpenMenu, {NotCurrentSubmenu}, {HasCurrentSubmenu, MenuOpen, Current}, j);
    }
    if page.wpClosedMenu != "" {
      EditFirstAt(s4, page.wpClosedMenu, {HasCurrentSubmenu, MenuOpen}, {NotCurrentSubmenu}, j);
    }
    EditFirstAt(s5, WrapId, {ResponsiveOpen}, {}, j);
    ClassesOnlyTrans(s, s5, s6);
    var open, closed, wrap := OpenIndex(s, page) == Some(j), ClosedIndex(s, page) == Some(j), FirstWithId(s, WrapId) == Some(j);
    var c3 := s3[j].classes;
    assert s4[j].classes == if open then c3 - {NotCurrentSubmenu} + {HasCurrentSubmenu, MenuOpen, Current} else c3;
    assert s5[j].classes == if closed then s4[j].classes - {HasCurrentSubmenu, MenuOpen} + {NotCurrentSubmenu} else s4[j].classes;
    assert s6[j].classes == if wrap then s5[j].classes - {ResponsiveOpen} else s5[j].classes;
    assert s6[j].classes == LastPasses(c3, open, closed, wrap);
    assert s[j].(classes := s6[j].classes) == s6[j];
  }

  /** The page names two distinct menus, neither of them the wrapper, and all three exist. */
  predicate DistinctMenus(s: seq<Node>, page: Page) {
    && page.wpOpenMenu != "" && page.wpClosedMenu != ""
    && page.wpOpenMenu != page.wpClosedMenu
    && page.wpOpenMenu != WrapId && page.wpClosedMenu != WrapId
    && ClassChangeReady(s, page)
  }

  /** The open menu, the closed menu and the wrapper are three different elements. */
  lemma MenuRolesDistinct(s: seq<Node>, page: Page)
    requires DistinctMenus(s, page)
    ensures FirstWithId(s, page.wpOpenMenu).Some? && FirstWithId(s, page.wpClosedMenu).Some?
    ensures FirstWithId(s, WrapId).Some?
    ensures OpenIndex(s, page) == FirstWithId(s, page.wpOpenMenu)
    ensures ClosedIndex(s, page) == FirstWithId(s, page.wpClosedMenu)
    ensures var o, c, w := FirstWithId(s, page.wpOpenMenu).value, FirstWithId(s, page.wpClosedMenu).value,
                           FirstWithId(s, WrapId).value;
      o != c && o != w && c != w
  {
  }

  /** What the six passes do to one element, by its roles. */
  lemma PassesRoles(c0: set<string>, parent: bool, open: bool, closed: bool, wrap: bool)
    requires !(open && closed)
    ensures var r := Passes(c0, parent, open, closed, wrap);
      && (open ==> {HasCurrentSubmenu, MenuOpen, Current} <= r && NotCurrentSubmenu !in r)
      && (open && HasCurrentSubmenu in c0 ==> MenuTop in r && Selected !in r)
      && (closed ==> HasCurrentSubmenu !in r && MenuOpen !in r && NotCurrentSubmenu in r)
      && (wrap ==> ResponsiveOpen !in r)
      && (!open && HasCurrentSubmenu in c0 ==>
            && HasCurrentSubmenu !in r && MenuOpen !in r && Selected !in r
            && NotCurrentSubmenu in r && MenuTop in r)
      && (!open ==> HasCurrentSubmenu !in r)
      && (Current in r <==> parent || open)
  {
  }

  /** Which classes leave the passes as they came in. */
  lemma {:induction false} PassesFixed(c0: set<string>, parent: bool, open: bool, closed: bool, wrap: bool)
    requires Current in c0 <==> parent || open
    requires !open ==> HasCurrentSubmenu !in c0
    requires open ==> {HasCurrentSubmenu, MenuOpen, Current, MenuTop} <= c0
    requires open ==> Selected !in c0 && NotCurrentSubmenu !in c0
    requires closed ==> HasCurrentSubmenu !in c0 && MenuOpen !in c0 && NotCurrentSubmenu in c0
    requires wrap ==> ResponsiveOpen !in c0
    ensures Passes(c0, parent, open, closed, wrap) == c0
  {
    var c1 := c0 - {Current};
    if open {
      var c2 := c1 - {HasCurrentSubmenu, MenuOpen, Selected} + {NotCurrentSubmenu, MenuTop};
      var c3 := if parent then c2 + {Current} else c2;
      assert c3 - {NotCurrentSubmenu} + {HasCurrentSubmenu, MenuOpen, Current} == c0;
    } else {
      var c3 := if parent then c1 + {Current} else c1;
      assert c3 == c0;
    }
  }

  /** The final classes of one element, by its role in the page. */
  lemma ClassChangedRoles(s: seq<Node>, page: Page, url: string, j: nat)
    requires DistinctMenus(s, page) && j < |s|
    ensures var r := ClassChanged(s, page, url)[j].classes;
      var o, c, w := FirstWithId(s, page.wpOpenMenu).value, FirstWithId(s, page.wpClosedMenu).value,
                     FirstWithId(s, WrapId).value;
      && (j == o ==> {HasCurrentSubmenu, MenuOpen, Current} <= r && NotCurrentSubmenu !in r)
      && (j == o && HasCurrentSubmenu in s[j].classes ==> MenuTop in r && Selected !in r)
      && (j == c ==> HasCurrentSubmenu !in r && MenuOpen !in r && NotCurrentSubmenu in r)
      && (j == w ==> ResponsiveOpen !in r)
      && (j != o && HasCurrentSubmenu in s[j].classes ==>
            && HasCurrentSubmenu !in r && MenuOpen !in r && Selected !in r
            && NotCurrentSubmenu in r && MenuTop in r)
      && (j != o ==> HasCurrentSubmenu !in r)
      && (Current in r <==> IsCurrentParent(s, j, url) || j == o)
  {
    MenuRolesDistinct(s, page);
    ClassChangedAt(s, page, url, j);
    PassesRoles(s[j].classes, IsCurrentParent(s, j, url), OpenIndex(s, page) == Some(j),
                ClosedIndex(s, page) == Some(j), FirstWithId(s, WrapId) == Some(j));
  }

  /**
   * After `wpNavMenuClassChange`: the open menu is the current, open
   * submenu; the closed menu is closed; the wrapper is not responsive-open;
   * every other element that had the open-submenu class is reset; and
   * `current` is held exactly by the parents of the current items and by the
   * open menu.
   */
  lemma ClassChangeOutcome(s: seq<Node>, page: Page, url: string)
    requires DistinctMenus(s, page)
    ensures var r := ClassChanged(s, page, url);
      var o, c, w := FirstWithId(s, page.wpOpenMenu).value, FirstWithId(s, page.wpClosedMenu).value,
                     FirstWithId(s, WrapId).value;
      && |r| == |s| && o < |s| && c < |s| && w < |s|
      && {HasCurrentSubmenu, MenuOpen, Current} <= r[o].classes && NotCurrentSubmenu !in r[o].classes
      && HasCurrentSubmenu !in r[c].classes && MenuOpen !in r[c].classes && NotCurrentSubmenu in r[c].classes
      && ResponsiveOpen !in r[w].classes
      && (forall j :: 0 <= j < |s| && j != o && HasCurrentSubmenu in s[j].classes ==>
            && HasCurrentSubmenu !in r[j].classes && MenuOpen !in r[j].classes && Selected !in r[j].classes
            && NotCurrentSubmenu in r[j].classes && MenuTop in r[j].classes)
      && (forall j :: 0 <= j < |s| && j != o ==> HasCurrentSubmenu !in r[j].classes)
      && (forall j :: 0 <= j < |s| ==> (Current in r[j].classes <==> IsCurrentParent(s, j, url) || j == o))
  {
    MenuRolesDistinct(s, page);
    var o, c, w := FirstWithId(s, page.wpOpenMenu).value, FirstWithId(s, page.wpClosedMenu).value,
                   FirstWithId(s, WrapId).value;
    ClassChangedRoles(s, page, url, o);
    ClassChangedRoles(s, page, url, c);
    ClassChangedRoles(s, page, url, w);
    forall j | 0 <= j < |s| {
      ClassChangedRoles(s, page, url, j);
    }
  }

  /**
   * A document in the state a class change leaves it in when the open menu
   * already had the open-submenu class: applying the change again leaves it
   * as it is.
   */
  predicate Settled(t: seq<Node>, page: Page, url: string)
    requires DistinctMenus(t, page)
  {
    MenuRolesDistinct(t, page);
    var o, c, w := FirstWithId(t, page.wpOpenMenu).value, FirstWithId(t, page.wpClosedMenu).value,
                   FirstWithId(t, WrapId).value;
    && {HasCurrentSubmenu, MenuOpen, Current, MenuTop} <= t[o].classes
    && Selected !in t[o].classes && NotCurrentSubmenu !in t[o].classes
    && HasCurrentSubmenu !in t[c].classes && MenuOpen !in t[c].classes && NotCurrentSubmenu in t[c].classes
    && ResponsiveOpen !in t[w].classes
    && (forall j :: 0 <= j < |t| && j != o ==> HasCurrentSubmenu !in t[j].classes)
    && (forall j :: 0 <= j < |t| ==> (Current in t[j].classes <==> IsCurrentParent(t, j, url) || j == o))
  }

  /** A settled document is a fixed point of the class change. */
  lemma SettledIsFixpoint(t: seq<Node>, page: Page, url: string)
    requires DistinctMenus(t, page) && Settled(t, page, url)
    ensures ClassChanged(t, page, url) == t
  {
    MenuRolesDistinct(t, page);
    var r := ClassChanged(t, page, url);
    forall j | 0 <= j < |t| ensures r[j] == t[j] {
      ClassChangedAt(t, page, url, j);
      PassesFixed(t[j].classes, IsCurrentParent(t, j, url), OpenIndex(t, page) == Some(j),
                  ClosedIndex(t, page) == Some(j), FirstWithId(t, WrapId) == Some(j));
    }
  }

  /** When the open menu already carries the open-submenu class, one class change settles the document. */
  lemma ChangeSettles(s: seq<Node>, page: Page, url: string)
    requires DistinctMenus(s, page)
    requires (MenuRolesDistinct(s, page); HasCurrentSubmenu in s[FirstWithId(s, page.wpOpenMenu).value].classes)
    ensures DistinctMenus(ClassChanged(s, page, url), page)
    ensures Settled(ClassChanged(s, page, url), page, url)
  {
    var r := ClassChanged(s, page, url);
    ClassesOnlyIsSameTree(s, r);
    SameTreeReady(s, r, page);
    SameTreeFirstWithId(s, r, page.wpOpenMenu, 0);
    SameTreeFirstWithId(s, r, page.wpClosedMenu, 0);
    SameTreeFirstWithId(s, r, WrapId, 0);
    ClassesOnlyCurrentParent(s, r, url);
    ClassChangeOutcome(s, page, url);
    ClassChangedRoles(s, page, url, FirstWithId(s, page.wpOpenMenu).value);
  }

  /**
   * Two class changes in a row always settle the document: from then on the
   * change is idempotent.
   */
  lemma TwoChangesSettle(s: seq<Node>, page: Page, url: string)
    requires DistinctMenus(s, page)
    ensures var twice := ClassChanged(ClassChanged(s, page, url), page, url);
      ClassChanged(twice, page, url) == twice
  {
    var once := ClassChanged(s, page, url);
    ClassesOnlyIsSameTree(s, once);
    SameTreeReady(s, once, page);
    SameTreeFirstWithId(s, once, page.wpOpenMenu, 0);
    ClassChangeOutcome(s, page, url);
    ChangeSettles(once, page, url);
    SettledIsFixpoint(ClassChanged(once, page, url), page, url);
  }

  /**
   * One class change is not idempotent: an open menu that had `selected` but
   * not the open-submenu class keeps `selected` after the first change and
   * loses it in the second.
   */
  lemma OneChangeNotIdempotent()
    ensures var s := [
        Node(WrapId, "div", "", None, -1, {}),
        Node(WooCommerceMenu, "li", "", None, 0, {Selected}),
        Node(AnalyticsMenu, "li", "", None, 0, {})];
      var once := ClassChanged(s, DashboardPages[0], "/");
      ClassChanged(once, DashboardPages[0], "/") != once
  {
    var s := [
        Node(WrapId, "div", "", None, -1, {}),
        Node(WooCommerceMenu, "li", "", None, 0, {Selected}),
        Node(AnalyticsMenu, "li", "", None, 0, {})];
    var page := DashboardPages[0];
    var once := ClassChanged(s, page, "/");
    assert FirstWithId(s, WooCommerceMenu) == Some(1);
    assert !IsCurrentParent(s, 1, "/");
    ClassChangedAt(s, page, "/", 1);
    assert Selected in once[1].classes;
    ClassesOnlyIsSameTree(s, once);
    SameTreeFirstWithId(s, once, WooCommerceMenu, 0);
    ClassChangedAt(once, page, "/", 1);
    assert Selected !in ClassChanged(once, page, "/")[1].classes;
  }

  /**
   * Every page `render` can find names two distinct menus other than the
   * wrapper, so the outcome of the class change it runs is the one
   * `ClassChangeOutcome` describes.
   */
  lemma RenderedPageOutcome(features: Features, path: string, s: seq<Node>)
    requires FindPage(PageTable(features), path).Some?
    requires ClassChangeReady(s, FindPage(PageTable(features), path).value)
    ensures DistinctMenus(s, FindPage(PageTable(features), path).value)
  {
    var page := FindPage(PageTable(features), path).value;
    PageMenusDistinct(features, page);
  }

  // ---------------------------------------------------------------------------
  // The route's view

  /** What the router matched: the route pattern, the concrete url and its parameters. */
  datatype RouteMatch = RouteMatch(path: string, url: string, params: map<string, string>)

  /** The container element `render` creates, with its props. */
  datatype View = View(container: Container, params: map<string, string>, path: string,
                       pathMatch: string, query: Query)

  // ---------------------------------------------------------------------------
  // The menu document, edited in place

  class Menu {
    var nodes: array<Node>

    ghost predicate Valid()
      reads this, nodes
    {
      WellFormed(nodes[..])
    }

    constructor (s: seq<Node>)
      requires WellFormed(s)
      ensures Valid() && fresh(nodes) && nodes[..] == s
    {
      nodes := new Node[|s|](k requires 0 <= k < |s| => s[k]);
    }

    /** `updateLinkHref(item, nextQuery, excludedScreens)` on element `k`. */
    method UpdateLinkHref(k: nat, nextQuery: Query, excluded: seq<string>,
                          parse: string -> Query, stringify: Query -> string)
      requires k < nodes.Length
      modifies nodes
      ensures nodes[..] == old(nodes[..])[k := RewriteNode(old(nodes[k]), nextQuery, excluded, parse, stringify)]
      ensures nodes[k] == RewriteNode(old(nodes[k]), nextQuery, excluded, parse, stringify)
      ensures forall j :: 0 <= j < nodes.Length && j != k ==> nodes[j] == old(nodes[j])
    {
      var item := nodes[k];
      if IsWcAdminHref(item.href) {
        var query := RewrittenQuery(item.href, nextQuery, excluded, parse);
        var href := "admin.php?" + stringify(query);
        nodes[k] := item.(href := href, onclick := Some(href));
      }
    }

    /** `wpNavMenuUrlUpdate(page, query)`; `persisted` is `getPersistedQuery`, `excluded` the filtered screen list. */
    method UrlUpdate(page: Page, query: Query, persisted: Query -> Query, excluded: seq<string>,
                     parse: string -> Query, stringify: Query -> string)
      requires Valid()
      modifies nodes
      ensures Valid()
      ensures nodes[..] == UrlUpdated(old(nodes[..]), page, persisted(query), excluded, parse, stringify)
    {
      var nextQuery := persisted(query);
      var selected := MenuAnchors(nodes[..], page);
      ghost var before := nodes[..];
      ghost var after := UrlUpdated(before, page, nextQuery, excluded, parse, stringify);
      for k := 0 to nodes.Length
        invariant forall j :: 0 <= j < k ==> nodes[j] == after[j]
        invariant forall j :: k <= j < nodes.Length ==> nodes[j] == before[j]
      {
        if selected[k] {
          UpdateLinkHref(k, nextQuery, excluded, parse, stringify);
        }
      }
      assert nodes[..] == after;
    }

    /** Pass 1 of `wpNavMenuClassChange`. */
    method ClearCurrentClasses()
      modifies nodes
      ensures nodes[..] == ClearCurrent(old(nodes[..]))
    {
      ghost var before := nodes[..];
      for k := 0 to nodes.Length
        invariant forall j :: 0 <= j < k ==> nodes[j] == ClearCurrent(before)[j]
        invariant forall j :: k <= j < nodes.Length ==> nodes[j] == before[j]
      {
        if Current in nodes[k].classes {
          nodes[k] := nodes[k].(classes := nodes[k].classes - {Current});
        }
      }
      assert nodes[..] == ClearCurrent(before);
    }

    /** Pass 2 of `wpNavMenuClassChange`. */
    method ResetSubmenuClasses()
      modifies nodes
      ensures nodes[..] == ResetSubmenus(old(nodes[..]))
    {
      ghost var before := nodes[..];
      for k := 0 to nodes.Length
        invariant forall j :: 0 <= j < k ==> nodes[j] == ResetSubmenus(before)[j]
        invariant forall j :: k <= j < nodes.Length ==> nodes[j] == before[j]
      {
        var n := nodes[k];
        if HasCurrentSubmenu in n.classes {
          nodes[k] := n.(classes := n.classes - {HasCurrentSubmenu, MenuOpen, Selected} + {NotCurrentSubmenu, MenuTop});
        }
      }
      assert nodes[..] == ResetSubmenus(before);
    }

    /** Pass 3 of `wpNavMenuClassChange`: each current item's parent gains `current`. */
    method MarkCurrentItems(url: string)
      modifies nodes
      ensures nodes[..] == MarkCurrent(old(nodes[..]), url)
    {
      ghost var before := nodes[..];
      for k := 0 to nodes.Length
        invariant nodes[..] == MarkedBefore(before, url, k)
      {
        ClassesOnlyIsSameTree(before, nodes[..]);
        MarkStep(before, url, k);
        var item := nodes[k];
        if item.tag == "a" && 0 <= item.parent < nodes.Length && nodes[item.parent].tag == "li"
          && HrefSelects(item.href, url)
        {
          var p := item.parent;
          nodes[p] := nodes[p].(classes := nodes[p].classes + {Current});
        }
      }
    }

    /** Replace the classes of the first element with id `id` (it must exist). */
    method EditFirstClasses(id: string, remove: set<string>, add: set<string>)
      requires HasId(nodes[..], id)
      modifies nodes
      ensures nodes[..] == EditFirst(old(nodes[..]), id, remove, add)
    {
      var found := FirstWithId(nodes[..], id);
      var k := found.value;
      nodes[k] := nodes[k].(classes := nodes[k].classes - remove + add);
    }

    /** `wpNavMenuClassChange(page, url)`. */
    method ClassChange(page: Page, url: string)
      requires Valid() && ClassChangeReady(nodes[..], page)
      modifies nodes
      ensures Valid()
      ensures nodes[..] == ClassChanged(old(nodes[..]), page, url)
    {
      ghost var before := nodes[..];
      ClearCurrentClasses();
      ResetSubmenuClasses();
      MarkCurrentItems(url);
      ghost var marked := nodes[..];
      ClassesOnlyTrans(before, ClearCurrent(before), ResetSubmenus(ClearCurrent(before)));
      ClassesOnlyTrans(before, ResetSubmenus(ClearCurrent(before)), marked);
      ClassesOnlyIsSameTree(before, marked);
      SameTreeReady(before, marked, page);
      if page.wpOpenMenu != "" {
        EditFirstClasses(page.wpOpenMenu, {NotCurrentSubmenu}, {HasCurrentSubmenu, MenuOpen, Current});
      }
      ghost var afterOpen := nodes[..];
      ClassesOnlyTrans(before, marked, afterOpen);
      ClassesOnlyIsSameTree(before, afterOpen);
      SameTreeReady(before, afterOpen, page);
      if page.wpClosedMenu != "" {
        EditFirstClasses(page.wpClosedMenu, {HasCurrentSubmenu, MenuOpen}, {NotCurrentSubmenu});
      }
      ghost var closed := nodes[..];
      ClassesOnlyTrans(before, afterOpen, closed);
      ClassesOnlyIsSameTree(before, closed);
      SameTreeReady(before, closed, page);
      EditFirstClasses(WrapId, {ResponsiveOpen}, {});
      ClassesOnlyTrans(before, closed, nodes[..]);
      ClassesOnlyIsSameTree(before, nodes[..]);
      SameTreeInsideWellFormed(before, nodes[..]);
    }

    /**
     * `Controller.render`: look the matched route pattern up in the page
     * table; when found, update the menu's hrefs, then its classes, and
     * create the page's container. Otherwise render nothing and touch
     * nothing.
     */
    method Render(m: Option<RouteMatch>, features: Features, search: Option<string>,
                  parse: string -> Query, persisted: Query -> Query, excluded: seq<string>,
                  stringify: Query -> string) returns (view: Option<View>)
      requires Valid()
      requires m.Some? && FindPage(PageTable(features), m.value.path).Some? ==>
        ClassChangeReady(nodes[..], FindPage(PageTable(features), m.value.path).value)
      modifies nodes
      ensures Valid()
      ensures view.None? <==> m.None? || FindPage(PageTable(features), m.value.path).None?
      ensures view.None? ==> nodes[..] == old(nodes[..])
      ensures view.Some? ==>
        var page := FindPage(PageTable(features), m.value.path).value;
        var query := GetBaseQuery(search, parse);
        && view.value == View(page.container, m.value.params, m.value.url, page.path, query)
        && nodes[..] == ClassChanged(UrlUpdated(old(nodes[..]), page, persisted(query), excluded, parse, stringify),
                                     page, m.value.url)
    {
      var query := GetBaseQuery(search, parse);
      if m.None? {
        return None;
      }
      var pages := GetPages(features);
      var found := FindPage(pages, m.value.path);
      if found.None? {
        return None;
      }
      var page := found.value;
      ghost var before := nodes[..];
      UrlUpdate(page, query, persisted, excluded, parse, stringify);
      SameTreeReady(before, nodes[..], page);
      ClassChange(page, m.value.url);
      view := Some(View(page.container, m.value.params, m.value.url, page.path, query));
    }
  }

  lemma SameTreeInsideWellFormed(a: seq<Node>, b: seq<Node>)
    requires WellFormed(a) && SameTree(a, b)
    ensures WellFormed(b)
  {
    assert forall k :: 0 <= k < |b| ==> b[k].parent == a[k].parent;
  }
}
