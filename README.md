# WooCommerce Admin client logic, modelled in Dafny

This project models three pieces of decision logic from the WooCommerce Admin
JavaScript client and proves what they promise.

- **Historical-data import settings** (`HistoricalData.dfy`). The data
  mapper of the import panel takes three flags from the caller and the import
  store's answers (totals, status, two error lookups, the resolving probe).
  From them it chooses the status query's freshness requirement and computes:
  - the `isError` flag, suppressed while the status query resolves;
  - the "import started" and "import finished" triggers;
  - the response record, whose shape follows `activeImport`;
  - the polling request.

  The model is one function, `Evaluate`. The store is a record of total
  functions keyed by the query arguments. `getStatus` is a function argument.
- **Navigation controller** (`Navigation.dfy`, `WpMenu.dfy`, `Strings.dfy`):
  - `getPages` builds the page table from the feature flags, and `render`
    looks the matched route pattern up in it;
  - `getQuery`/`getBaseQuery` parse the search string, and
    `componentDidUpdate` decides when to reset `page` to 1;
  - `updateLinkHref` rewrites a sidebar link's href;
  - `wpNavMenuUrlUpdate` and `wpNavMenuClassChange` edit the host
    administration menu in place.

  The menu is a class over an array of elements. Each element has an id, a
  tag, an href, a click handler, a parent index and a set of CSS classes.
  Each pass of the class change is a method proved against a function on the
  element sequence. The attribute selectors `[href$=…]` and `[href*=…]`
  follow section 6.3.2 of Selectors Level 3: an empty value matches nothing.
  The link test is the regular expression `/admin.php\?page=wc-admin/`, in
  which the unescaped `.` matches any character except a line terminator.
- **Profile wizard, store-details step** (`StoreDetails.dfy`). The model
  covers:
  - the form's initial values and their defaults;
  - `deriveCurrencySettings`, with its fallback to the `US` currency entry;
  - the general-settings payload;
  - the removal of the CBD industry for stores outside the US;
  - the choice between moving to the next step and raising an error notice;
  - the usage modal's two flags (`showUsageModal`, `skipping`) and their
    handlers, as a class.

  `onContinue` returns its effects (set currency, persist settings, update
  profile items, next step or notice) in the order it performs them.

Behaviour the code has and the model keeps:
- **`wpNavMenuClassChange` is not idempotent after one run.**
  - `OneChangeNotIdempotent` gives a concrete document that one run leaves
    in a state a second run still changes: an open menu that had `selected`
    but not `wp-has-current-submenu`.
  - `ChangeSettles` and `TwoChangesSettle` prove that any document holding
    the page's two menus and `#wpwrap` (three distinct elements) is a fixed
    point after two runs.
- **The link test lets through more than the literal text.**
  `DotMatchesAnyCharacter` shows an href that passes the regular expression
  without containing `admin.php?page=wc-admin`. `ContainsLiteralIsWcAdmin`
  shows that every href containing the literal passes.
- **Only the first occurrence is removed.** `replace('/analytics', '')` and
  `replace('/', '')` each remove only their pattern's first occurrence
  (`RemoveFirst`).
- **`onContinue` reads its error flags when the handler starts.** It takes
  `isSettingsError` and `isProfileItemsError` from the props before either
  store update, so `OnContinue` takes them as inputs fixed at call time.

## Model

| member | source | states |
|---|---|---|
| HistoricalData.Evaluate | client/analytics/settings/historical-data/layout.js:118-227 | The status requirement is 3 s/3 s exactly when `inProgress`, otherwise the default. `isError` is false while the status query resolves, and otherwise holds iff either the requirement-keyed or the params-keyed error is recorded. `started` holds iff there is no recorded timestamp, the status is not loading, the step is not in progress and `is_importing` is exactly true. `finished` holds iff the status is not loading, the step is in progress, `is_importing` is exactly false and either resource is drained (imported equals a positive total). Polling is requested iff (`activeImport` or importing) and `inProgress`. The response is `Active` iff `activeImport`. `importDate` is the status's `imported_from`, and `status` is `getStatus` of the response. |
| HistoricalData.Fired | client/analytics/settings/historical-data/layout.js:184-224 | Each callback is invoked iff its flag holds. They run in the order started, interval, finished. |
| HistoricalData.StartedAndFinishedExclusive | client/analytics/settings/historical-data/layout.js:178-193 | The started and finished triggers never fire in the same evaluation. |
| HistoricalData.InactiveResponseUsesTotals | client/analytics/settings/historical-data/layout.js:195-199 | Without an active import, the response holds only the totals-fetch counts and `isError`. |
| HistoricalData.ActiveResponseUsesStatus | client/analytics/settings/historical-data/layout.js:201-212 | With an active import, each total is the status total unless nil, otherwise the totals-fetch count. Progress and `inProgress` pass through unchanged. |
| HistoricalData.EitherResourceFinishes | client/analytics/settings/historical-data/layout.js:187-193 | One drained resource is enough to fire `onImportFinished`, whatever the other reports. |
| HistoricalData.RecordedTimestampNeverStarts | client/analytics/settings/historical-data/layout.js:178-186 | With a recorded start timestamp, only the interval and finished callbacks can fire. |
| Navigation.GetPages | client/layout/controller.js:27-76 | The table is the devdocs pair, then the dashboard, then the three analytics pages, each group only when its flag is on and in its fixed order. Every entry's flag is on, and no two entries share a route pattern. |
| Navigation.PageTableFlags | client/layout/controller.js:30-71 | Every page of the table belongs to a feature whose flag is on. |
| Navigation.PageTablePathsDistinct | client/layout/controller.js:27-76 | No two pages of the table share a route pattern, whichever flags are on. |
| Navigation.PageMenusDistinct | client/layout/controller.js:27-76 | Every page opens and closes two different, non-empty menus, neither of them `wpwrap`. |
| Navigation.FindPage | client/layout/controller.js:144 | `find` returns nothing iff no page has the pattern. Otherwise it returns the first page with that pattern. |
| Navigation.FindPageHead | client/layout/controller.js:144 | A table whose first page has the pattern yields that page. |
| Navigation.FindPageSkips | client/layout/controller.js:144 | Pages with other patterns in front of a table do not change the lookup. |
| Navigation.FoundInGroup | client/layout/controller.js:144 | The k-th page of a group is found by its pattern when nothing before it shares that pattern. |
| Navigation.FoundWhenDistinct | client/layout/controller.js:144 | In a table without repeated patterns, every page is found by its own pattern. |
| Navigation.SettingsBeforeReport | client/layout/controller.js:54-72 | With analytics on, `/analytics/settings` finds the settings page, not the `:report` page pushed after it. |
| Navigation.UnknownPathNotFound | client/layout/controller.js:144-148 | The pattern `/unknown` finds no page under every combination of feature flags, so `render` takes the not-found branch. The general fact, that any pattern missing from the table finds nothing, is `FindPage`'s own contract. |
| Navigation.GetQuery | client/layout/controller.js:97-104 | An absent or empty search string gives the empty query. Otherwise the result is the parse of the text after the leading `?`. |
| Navigation.GetBaseQuery | client/layout/controller.js:106-110 | The query with the `page` key removed and every other key and value kept. |
| Navigation.ResetsPage | client/layout/controller.js:83-90 | A reset implies that the previous page number was above 1. |
| Navigation.PageAboveOne | client/layout/controller.js:88 | `query.page > 1` holds iff `page` is present, is a decimal digit string and its value is at least 2. |
| Navigation.LeadingZeroIgnored | client/layout/controller.js:88 | As with JavaScript's number conversion, a leading zero does not change a page number's value. |
| Navigation.PageAboveOneExamples | client/layout/controller.js:88 | Page `1` does not reset; pages `2` and `02` do. |
| Navigation.ResetsPageIff | client/layout/controller.js:88 | The reset to page 1 happens iff the previous page is above 1 and the two queries differ on some key other than `page`. |
| Navigation.PageOnlyChangeKeepsPage | client/layout/controller.js:83-90 | A change to `page` alone never resets it. |
| Navigation.FilterChangeResetsPage | client/layout/controller.js:83-90 | `?page=3&filter=A` followed by `?page=3&filter=B` resets. The same query twice does not. |
| Navigation.RewrittenQuery | client/layout/controller.js:168-176 | For an excluded screen, the link keeps its own query. Otherwise the keys are merged and `nextQuery` overrides the link's own values. |
| Navigation.PathOf | client/layout/controller.js:170 | The path is never empty: a missing or empty `path` becomes `dashboard`, and any other path is kept. |
| Navigation.Screen | client/layout/controller.js:171 | A path under `/analytics/` gives the rest of the path as the screen. No path gives `dashboard`. |
| Navigation.LinkRewrite | client/layout/controller.js:164-185 | The link is rewritten iff the href passes the wc-admin test. The new href is `admin.php?` followed by the stringified rewritten query. |
| Navigation.SettingsLinkExclusion | client/layout/controller.js:168-176 | A link to `/analytics/settings` has the screen `settings`. It keeps its own query when that screen is excluded, and merges `nextQuery` otherwise. |
| Navigation.DefaultKeepsSettingsQuery | client/layout/controller.js:169-176 | With the default excluded screens (`devdocs`, `stock`, `settings`, `customers`), a link to `/analytics/settings` keeps its own query. |
| Navigation.NonAdminLinkUntouched | client/layout/controller.js:165-167 | An href that fails the test is left untouched, and it cannot contain the literal admin text. |
| Navigation.WcAdminPrefix | client/layout/controller.js:165 | Every href that starts with the admin page's address passes the test. |
| Navigation.SearchOfAdminLink | client/layout/controller.js:168 | The part after the last `?` of such an href is its query text. |
| Navigation.AfterLastIsTail | client/layout/controller.js:168 | `last(split('?'))` of `a?b`, where `b` has no `?`, is `b`. |
| Navigation.ScreenOfSettings | client/layout/controller.js:170-171 | The screen of the path `/analytics/settings` is `settings`. |
| Strings.Contains | client/layout/controller.js:221-222 | `[href*=v]`: the href contains `v` somewhere. An empty `v` matches nothing (section 6.3.2 of Selectors Level 3). |
| Strings.EndsWith | client/layout/controller.js:221 | `[href$=v]`: the href ends with `v`. An empty `v` matches nothing (section 6.3.2 of Selectors Level 3). |
| Strings.WcAdminMatchesAt | client/layout/controller.js:165 | The regular expression matches at index `i`: every character equals the pattern's, except the unescaped `.` at index 5, which matches any character but a line terminator. |
| Strings.IsWcAdminHref | client/layout/controller.js:165 | `/admin.php\?page=wc-admin/.test(href)`: the expression matches at some index of the href. |
| Strings.IndexFrom | client/layout/controller.js:171 | The result is the first index at or after `from` where the pattern occurs, or none when it never occurs. |
| Strings.RemoveFirst | client/layout/controller.js:171 | `replace` removes exactly the first occurrence, or nothing when there is none. |
| Strings.AfterLast | client/layout/controller.js:168 | The result is a suffix with no separator in it, preceded by the separator unless it is the whole string. |
| Strings.ContainsLiteralIsWcAdmin | client/layout/controller.js:165 | Every href containing `admin.php?page=wc-admin` passes the regular expression. |
| Strings.DotMatchesAnyCharacter | client/layout/controller.js:165 | `adminXphp?page=wc-admin` passes the regular expression without containing the literal. |
| WpMenu.MenuAnchors | client/layout/controller.js:198-200 | The snapshot selects exactly the anchors inside either of the page's two menus. |
| WpMenu.FirstWithId | client/layout/controller.js:230 | `querySelector('#id')` returns the first element with the id, or none when no element has it. |
| WpMenu.SameTreeFirstWithId | client/layout/controller.js:239 | Editing classes or links does not change which element an id selects. |
| WpMenu.RewriteNode | client/layout/controller.js:164-185 | Only the href and the click handler change. A non-admin link is unchanged. Otherwise the href becomes `admin.php?` plus the rewritten query, and the click pushes that same href. |
| WpMenu.UrlUpdated | client/layout/controller.js:189-201 | Each anchor inside the page's menus becomes its `updateLinkHref` rewrite. Every other element is unchanged, and the document's shape is kept. |
| WpMenu.UrlUpdateKeepsSelection | client/layout/controller.js:198-200 | Rewriting hrefs does not change which anchors the menus' selector finds. |
| WpMenu.UrlUpdateTouchesOnlyMenuLinks | client/layout/controller.js:189-201 | An element changes only if it is a wc-admin anchor inside the page's menus, and then only in its href and click handler. Every such anchor gets `admin.php?` plus its rewritten query, and its click pushes that href. |
| WpMenu.ClassChanged | client/layout/controller.js:204-247 | The class change alters nothing but class sets. |
| WpMenu.ClassChangedAt | client/layout/controller.js:204-247 | Element by element, the result is the six passes composed (clear current, reset submenus, mark parents, open menu, close menu, close wrapper). |
| WpMenu.FirstPassesAt | client/layout/controller.js:205-227 | Element by element, the first three passes (clear current, reset submenus, mark parents) change only classes, as `FirstPasses` composes them. |
| WpMenu.PassesFixed | client/layout/controller.js:204-247 | An element whose classes already agree with its roles leaves the six passes unchanged. |
| WpMenu.PassesRoles | client/layout/controller.js:205-246 | Gives the class effect of the six passes on one element, by its roles. |
| WpMenu.ClassChangedRoles | client/layout/controller.js:204-247 | Gives the final classes of each element, by its role in the page. |
| WpMenu.ClassChangeOutcome | client/layout/controller.js:204-247 | The open menu ends with `wp-has-current-submenu`, `wp-menu-open` and `current`, and without `wp-not-current-submenu`. The closed menu ends without the open-submenu classes and with `wp-not-current-submenu`. `#wpwrap` loses `wp-responsive-open`. Every other element that had `wp-has-current-submenu` loses it, `wp-menu-open` and `selected`, and gains `wp-not-current-submenu` and `menu-top`. `current` is held exactly by the parents of matched `li > a` items and by the open menu. |
| WpMenu.SettledIsFixpoint | client/layout/controller.js:204-247 | A settled document is left unchanged by the class change. |
| WpMenu.ChangeSettles | client/layout/controller.js:204-247 | When the open menu already carries `wp-has-current-submenu`, one class change settles the document. |
| WpMenu.TwoChangesSettle | client/layout/controller.js:204-247 | After two class changes, a third changes nothing. |
| WpMenu.OneChangeNotIdempotent | client/layout/controller.js:209-235 | A concrete document that one class change leaves in a state a second run still changes. |
| WpMenu.RenderedPageOutcome | client/layout/controller.js:144-151 | Every page `render` finds names two distinct menus other than the wrapper, so `ClassChangeOutcome` applies to the class change it runs. |
| WpMenu.Menu.UpdateLinkHref | client/layout/controller.js:164-185 | Element k becomes its rewritten self, and every other element is unchanged. |
| WpMenu.Menu.UrlUpdate | client/layout/controller.js:189-201 | The array becomes `UrlUpdated` of its old contents, with the persisted query as `nextQuery`. |
| WpMenu.Menu.ClearCurrentClasses | client/layout/controller.js:205-207 | No element keeps `current`, and nothing else changes. |
| WpMenu.Menu.ResetSubmenuClasses | client/layout/controller.js:209-216 | Every open submenu is reset to a closed top item. |
| WpMenu.Menu.MarkCurrentItems | client/layout/controller.js:218-227 | Exactly the parents of the current items gain `current`. |
| WpMenu.PageUrl | client/layout/controller.js:218 | The address starts with `admin.php?page=wc-admin`, and it is exactly that address iff the url is `/`. |
| WpMenu.HrefSelects | client/layout/controller.js:219-222 | For the root url, the href ends with the address or contains it followed by `?`. For any other url, the href contains the address. |
| WpMenu.IsCurrentItem | client/layout/controller.js:219-223 | `li > a[…]`: the element is an anchor, its parent is a list item, and its href selects the page's address. |
| WpMenu.CurrentItemIsWcAdminLink | client/layout/controller.js:218-223 | Every current item's href passes the wc-admin test, so it is a link the URL update rewrites. |
| WpMenu.MarkStep | client/layout/controller.js:225-227 | Handling the k-th matched item adds `current` to its parent and changes nothing else. Any other element leaves the document as it was. |
| WpMenu.Menu.EditFirstClasses | client/layout/controller.js:229-246 | The first element with the id has the classes removed and added. The element must exist. |
| WpMenu.Menu.ClassChange | client/layout/controller.js:204-247 | The array becomes `ClassChanged` of its old contents. The menus and `#wpwrap` must exist. |
| WpMenu.Menu.Render | client/layout/controller.js:133-153 | The view is absent iff there is no match or no page has the matched pattern, and then the menu is untouched. Otherwise the menu gets the URL update and then the class change, and the view carries the page's container, the parameters, the url, the pattern and the base query. |
| StoreDetails.SettingOr | client/profile-wizard/steps/store-details.js:52-56 | A present setting is kept. An absent one becomes `''`. |
| StoreDetails.CountryState | client/profile-wizard/steps/store-details.js:46-49 | The default country is used iff both the store address and the country are set. Otherwise the result is `''`. |
| StoreDetails.InitialValues | client/profile-wizard/steps/store-details.js:51-58 | Each address field is its setting or `''`. `countryState` is as above. `isClient` holds iff `setup_client` is true. |
| StoreDetails.DeriveCurrency | client/profile-wizard/steps/store-details.js:64-72 | There is no currency for an empty country. Otherwise the result is the region's entry, else the `US` entry. It is none iff the country is empty or both entries are missing. |
| StoreDetails.TrimIndustries | client/profile-wizard/steps/store-details.js:141-147 | No CBD choice remains, by slug or by name, and the list does not grow. |
| StoreDetails.IsCbd | client/profile-wizard/steps/store-details.js:142-146 | The filter drops an industry that is the CBD slug itself, or a record whose `slug` is the CBD slug. |
| StoreDetails.TrimKeepsOthers | client/profile-wizard/steps/store-details.js:141-147 | A choice survives the filter iff it was in the list and is not the CBD choice. |
| StoreDetails.TrimAppend | client/profile-wizard/steps/store-details.js:142-146 | Trimming distributes over concatenation, so the kept choices stay in their order. |
| StoreDetails.TrimWithoutCbd | client/profile-wizard/steps/store-details.js:142-146 | A list without CBD choices is unchanged. |
| StoreDetails.TrimIdempotent | client/profile-wizard/steps/store-details.js:142-146 | Trimming twice is trimming once. |
| StoreDetails.ProfileItemsUpdate | client/profile-wizard/steps/store-details.js:123-148 | `setup_client` is always sent. `industry` is sent iff the region is not `US` and a non-empty industry list exists. When sent, it is exactly the stored list with the CBD choices filtered out. |
| StoreDetails.SettingsPayload | client/profile-wizard/steps/store-details.js:105-121 | Every existing setting outside the ten written keys is kept with its stored value. |
| StoreDetails.PayloadKeys | client/profile-wizard/steps/store-details.js:105-121 | The payload's keys are exactly the stored keys plus the five address keys and the five currency keys. |
| StoreDetails.PayloadAddress | client/profile-wizard/steps/store-details.js:108-112 | The five address keys take the form's address values. |
| StoreDetails.PayloadCurrency | client/profile-wizard/steps/store-details.js:113-119 | The five currency keys take the derived currency's values, and the precision is a number. |
| StoreDetails.PayloadChangesOnlyTenKeys | client/profile-wizard/steps/store-details.js:105-121 | Only those ten keys can differ from the stored settings. |
| StoreDetails.InitialValuesPersistUnchanged | client/profile-wizard/steps/store-details.js:105-121 | Continuing with the untouched initial values writes every address setting back as it was stored. |
| StoreDetails.NoAddressNoCurrency | client/profile-wizard/steps/store-details.js:46-72 | Without a store address, the initial country is empty and no currency can be derived from it. |
| StoreDetails.Outcome | client/profile-wizard/steps/store-details.js:152-162 | The result is the next step iff neither error is flagged. Otherwise it is the error notice. |
| StoreDetails.StoreDetailsStep.constructor | client/profile-wizard/steps/store-details.js:35-58 | Both modal flags start false, and the initial values are `InitialValues` of the props. |
| StoreDetails.StoreDetailsStep.OnSubmit | client/profile-wizard/steps/store-details.js:74-79 | Submit opens the modal to continue: (true, false). |
| StoreDetails.StoreDetailsStep.OnSkip | client/profile-wizard/steps/store-details.js:276-281 | The skip link opens the modal to skip: (true, true). |
| StoreDetails.StoreDetailsStep.OnClose | client/profile-wizard/steps/store-details.js:224-229 | Close clears both flags: (false, false). |
| StoreDetails.StoreDetailsStep.OnContinue | client/profile-wizard/steps/store-details.js:81-163 | The effects, in order, are: set the derived currency, persist the payload, send the profile update, then `Outcome` of the two error flags. That last effect is the next step iff neither error is flagged, and otherwise the `error` notice with the save message. Exactly one notice is raised on failure and none on success. |
| StoreDetails.StoreDetailsStep.ModalContinue | client/profile-wizard/steps/store-details.js:215-223 | The profiler is skipped iff `skipping`. Otherwise the step continues with the form's values and runs `onContinue`'s four effects in order: set the derived currency, persist the settings payload, send the profile update, then the outcome. |

## Left out

- Rendering is not modelled: the JSX bodies, the layout's `status !== 'finished'` display switch, tooltips, i18n strings, `console.log` and the `scrollTop` resets.
- The foreign libraries are inputs:
  - `qs` `parse`/`stringify`, `getPersistedQuery` and `getCurrencyRegion` are function parameters;
  - `getCurrencyData` is a map;
  - `applyFilters` is modelled as the excluded-screen list it returns (`DefaultExcludedScreens` is the default);
  - react-router's `matchPath` is modelled as the optional match it produces.
- `getHistory().push`/`replace` and `getNewPath` are not modelled as navigation. The click handler is the href it would push, and the page reset is the boolean `ResetsPage`.
- `formatParams` and `getStatus` come from a helper module that is not part of this model. The params are an input map and `getStatus` is a function argument.
- `recordEvent` tracking and the transport behind `createNotice` are left out. The notice is a returned effect.
- The `await` sequencing in `onContinue` is left out, including the `updateProfileItems` call that is not awaited. Effects are listed in program order.
- The import store's fetching, caching and polling timer are left out. The mapper only signals intent.
- Navigation.PageAboveOne: `query.page > 1` is modelled for decimal-digit strings only. Other numeric spellings JavaScript would convert count as not above 1: surrounding spaces, signs, decimal fractions such as `1.5`, exponents, hexadecimal, binary and octal prefixes, and `Infinity`.
- WpMenu.Menu.ClassChange: the menus and `#wpwrap` are assumed to exist (`ClassChangeReady`), because the code dereferences them without checking.
- StoreDetails.StoreDetailsStep.OnContinue: a derivable currency is required, because the code reads `currencySettings.code` unconditionally and so fails on a null currency.
- WpMenu.MenuAnchors: the selector's descendant test follows parent indices in one array. Elements outside that array, and document order beyond "parent before child", are not modelled.
- `getBaseQuery` deletes `page` from the parsed object in place. That object is local to the call, so it is modelled as map subtraction.
- WpMenu.Menu.UpdateLinkHref: the href read is the element's stored href string. URL resolution by the DOM's `href` property (turning a relative href into an absolute one) is not modelled.
