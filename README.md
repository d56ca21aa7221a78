# Company search and dashboard view rules, modelled in Dafny

This project models the stateful logic of a small React front end for
financial research. It covers three components:

- **The quick-search modal** (`ModalSearch`). Every keystroke that is not
  blank sends its own company lookup; there is no debounce. The modal keeps a
  most-recent-first list of at most five picked companies, persisted in
  `localStorage`. A pick also writes the company's name to the
  `selectedCompany` slot and closes the modal.
- **The landing page** (`LandingPage`). It has an autocomplete whose lookup is
  debounced. The response is unwrapped from its `results` field and items
  flagged `isSearchEverywhere` are dropped. Picking a result stores the name
  and navigates to the dashboard.
- **The dashboard** (`FinancialRecordReport`). It reads the selected name,
  posts it to the scraper, and shows a loading screen, an error screen or the
  report. The report has two columns of collapsible ratio categories and an
  info tooltip.

Each component is a class whose fields are the component's state. Each event
handler is a method whose `ensures` gives the whole new state. What the
components render is a pure function of that state. `localStorage` is a
shared `Store` object holding a key to value map.

Files:
- `wrappers.dfy`: `Option`.
- `seqs.dfy`: `filter`, `slice(0, n)` and subsequences.
- `text.dfy`: JavaScript `trim`.
- `entities.dfy`: companies and lookup responses.
- `storage.dfy`: `localStorage`.
- `recent_searches.dfy`: the recent-list computation.
- `modal_search.dfy`, `landing.dfy`, `dashboard.dfy`: the three components.
- `flows.dfy`: how a selection reaches the dashboard.

The model follows the code as written. In particular:

- **No stale-response guard.** Any lookup that completes overwrites the
  results and clears the loading flag, even if the term has changed since.
  `ClearedInputTakesLateResults`, `OutOfOrderCompletion` and
  `LateResultsUnderEmptyTerm` show this.
- **Recent-list identity is `id` alone.** It is not "`id`, else `name`".
  Picking a company without an `id` evicts every id-less entry.
- **Recent entries show whatever the term is.** They are not limited to an
  empty query.
- **Lookup responses are handled differently by the two surfaces.** The modal
  stores the lookup's raw return value. It neither unwraps `results` nor drops
  "search everywhere" items. The landing page does both. As a result, an
  envelope response makes the modal show only the "Search Results" heading,
  with neither the list nor "No results found".
- **A malformed stored recent list is not treated as empty.** The modal
  parses the stored list without a guard.

## Model

| member | source | states |
|---|---|---|
| `Text.HasText` | src/pages/landing.jsx:73 | the guard `value.trim()` holds exactly when the value has a character that is not whitespace |
| `Text.TrimEmptyIffBlank` | src/components/ModalSearch.jsx:93 | the guard `value.trim()` is falsy exactly when every character is JavaScript whitespace |
| `RecentSearches.WithoutId` | src/components/ModalSearch.jsx:107 | the filter keeps exactly the old entries whose `id` differs from the pick's, as a subsequence of the old list |
| `RecentSearches.WithoutIdCounts` | src/components/ModalSearch.jsx:107 | every entry whose `id` differs from the pick's keeps its number of copies and every other entry has none |
| `RecentSearches.WithRecent` | src/components/ModalSearch.jsx:105-108 | the new list starts with the pick, has 1 to 5 entries, and no later entry shares the pick's `id` |
| `RecentSearches.WithRecentTail` | src/components/ModalSearch.jsx:107-108 | the entries after the head are a prefix of the surviving old entries, in their original order, cut only by the capacity (length is min(5, 1 + survivors)) |
| `RecentSearches.IdlessPickEvictsAllIdless` | src/components/ModalSearch.jsx:107 | when the pick has no `id`, the head is the only id-less entry left |
| `RecentSearches.WithRecentIdempotent` | src/components/ModalSearch.jsx:105-108 | adding the same company twice gives the same list as adding it once |
| `RecentSearches.WithRecentKeepsIdsDistinct` | src/components/ModalSearch.jsx:105-108 | if the old list has unique ids, so does the new one: re-picking moves an entry and never duplicates it |
| `RecentSearches.EvictsOldest` | src/components/ModalSearch.jsx:105-108 | with five entries A..E and a new F, the list becomes [F,A,B,C,D] |
| `RecentSearches.MovesToFront` | src/components/ModalSearch.jsx:105-108 | re-picking B in [A,B,C] gives [B,A,C] |
| `ModalSearch.ViewWithEmptyTerm` | src/components/ModalSearch.jsx:197-294 | with an empty term: no results section, the recommended list shown, the recent section showing the list exactly when it is non-empty |
| `ModalSearch.ViewWithTerm` | src/components/ModalSearch.jsx:197-229 | with a term: recommended hidden; the recent section still shows the list exactly when it is non-empty; while loading only "Searching..."; once settled on an array, list iff non-empty and "No results found" iff empty; settled on anything else, neither |
| `ModalSearch.BlankTermShowsResultsSection` | src/components/ModalSearch.jsx:197 | the results section is keyed on the untrimmed term, so a term of spaces shows it |
| `ModalSearch.EnvelopeShowsNeitherListNorEmpty` | src/components/ModalSearch.jsx:202-229 | a `{results: [...]}` response stored as is shows neither the list nor "No results found" |
| `ModalSearch.Modal.constructor` | src/components/ModalSearch.jsx:46-57 | mounting: empty term and results, not loading, recent list loaded from storage or empty |
| `ModalSearch.Modal.Open` | src/components/ModalSearch.jsx:80-86 | when the modal turns open, the term becomes "" and the results []; nothing else changes |
| `ModalSearch.Modal.Close` | src/components/ModalSearch.jsx:59-77 | an outside click or Escape closes the modal and changes nothing else |
| `ModalSearch.Modal.Input` | src/components/ModalSearch.jsx:88-101 | the term is echoed; blank input clears the results and sends nothing; other input sets loading and sends its own lookup |
| `ModalSearch.Modal.LookupSettles` | src/components/ModalSearch.jsx:95-97 | a completing lookup stores its raw return value and clears loading, whatever the current term |
| `ModalSearch.Modal.AddToRecentSearches` | src/components/ModalSearch.jsx:104-117 | three writes: the list in memory equals the list persisted under "recentSearches", "selectedCompany" holds the name, the modal closes; afterwards both keys hold what the application writes there |
| `ModalSearch.Modal.Submit` | src/components/ModalSearch.jsx:120-125 | commits the first result only when the results are a non-empty array; otherwise no state changes |
| `ModalSearch.Modal.ClickCompanyLink` | src/components/ModalSearch.jsx:206-209 | a result or recommended link commits the company and leads to /dashboard |
| `ModalSearch.Modal.ClickRecent` | src/components/ModalSearch.jsx:245-248 | a recent link writes the name and closes the modal, leaving the recent list and the stored list unchanged |
| `ModalSearch.FreshModalView` | src/components/ModalSearch.jsx:233-294 | a fresh modal with nothing stored shows the recommended list only |
| `ModalSearch.ClearedInputTakesLateResults` | src/components/ModalSearch.jsx:89-100 | a lookup completing after the input was cleared still becomes the results |
| `ModalSearch.OutOfOrderCompletion` | src/components/ModalSearch.jsx:89-97 | two keystrokes send two lookups, and the one completing last wins even if it was sent first |
| `ModalSearch.SubmitTwice` | src/components/ModalSearch.jsx:120-125 | submitting the same first result in two sessions leaves the list one submit leaves |
| `Landing.SettledResults` | src/pages/landing.jsx:47-63 | stored results are the `results` items without a truthy `isSearchEverywhere`, as a subsequence; [] when there is no `results` list or unwrapping throws |
| `Landing.SettledResultsKeepOrder` | src/pages/landing.jsx:53-55 | filtering distributes over concatenation, so the service's order is kept |
| `Landing.UnflaggedResultsPassThrough` | src/pages/landing.jsx:53-57 | with nothing flagged, the list is stored exactly as returned |
| `Landing.BareArrayStoresNothing` | src/pages/landing.jsx:50 | a bare array response, including the lookup's `[]` failure value, yields [] |
| `Landing.DebounceKeepsLastNonBlank` | src/pages/landing.jsx:68-78 | after a burst of keystrokes the pending query is the last non-blank one, or the old pending one if all were blank (clearing does not cancel) |
| `Landing.DropdownShownIff` | src/pages/landing.jsx:106-113 | the dropdown renders iff open and (term non-empty or results non-empty); it shows the spinner iff loading, otherwise the results |
| `Landing.HintAndDropdown` | src/pages/landing.jsx:142-146 | the hint shows iff the term is empty; with the hint showing, the dropdown needs leftover results |
| `Landing.LandingPage.constructor` | src/pages/landing.jsx:8-12 | initial state: empty term and results, not loading, dropdown closed, nothing selected or pending |
| `Landing.LandingPage.Input` | src/pages/landing.jsx:68-78 | the term is echoed and the dropdown opens; blank input clears the results at once, other input overwrites the pending query |
| `Landing.LandingPage.Fire` | src/pages/landing.jsx:45-47 | when the timer fires, the pending query (if any) is sent once and loading starts |
| `Landing.LandingPage.LookupSettles` | src/pages/landing.jsx:48-63 | a settled lookup stores the unwrapped and filtered results, or [], and loading is false afterwards |
| `Landing.LandingPage.ResultClick` | src/pages/landing.jsx:80-83 | selects the result and closes the dropdown; the effect (lines 32-42) stores the name and navigates with url and name |
| `Landing.TypeAheadSendsOneLookup` | src/pages/landing.jsx:45-74 | typing "Tata" then "Tata Motors" within the window sends exactly one lookup, for "Tata Motors" |
| `Landing.ClearDoesNotCancel` | src/pages/landing.jsx:73-77 | clearing the input empties the results at once but the pending query is still sent |
| `Landing.LateResultsUnderEmptyTerm` | src/pages/landing.jsx:106 | a lookup settling after the input was cleared fills the dropdown under an empty term |
| `Dashboard.DisplayName` | src/pages/Dashboard.jsx:71 | the stored name when present and non-empty, otherwise "Banks and NBFC" |
| `Dashboard.DecimalTextRoundTrip` | src/pages/Dashboard.jsx:84 | the status written into the error message reads back as the status |
| `Dashboard.ErrorMessage` | src/pages/Dashboard.jsx:89-91 | every failure message starts with "Failed to fetch financial data: " |
| `Dashboard.ColumnsSplitCategories` | src/pages/Dashboard.jsx:146-162 | left holds the first three categories and right the other three, in order; together all six, no overlap |
| `Dashboard.Toggled` | src/pages/Dashboard.jsx:165-170 | flips the toggled category's expanded state and leaves every other category's state alone |
| `Dashboard.ToggleTwiceRestores` | src/pages/Dashboard.jsx:165-170 | toggling the same category twice restores every category's expanded state |
| `Dashboard.ToggleTwiceRecordsKey` | src/pages/Dashboard.jsx:165-170 | toggling twice does not restore the map itself when the key was missing (it is now `false`) |
| `Dashboard.Rows` | src/pages/Dashboard.jsx:239-263 | every row has a truthy ratio, shows that ratio, and shows its tooltip iff it is the current tooltip |
| `Dashboard.RowsAreTruthyParams` | src/pages/Dashboard.jsx:239-263 | the rows are exactly the listed parameters whose ratio is truthy, in listed order |
| `Dashboard.PanelView` | src/pages/Dashboard.jsx:223-235 | one header per category in order, expanded as the map says; a collapsed category has no rows and an expanded one has exactly the category's truthy rows |
| `Dashboard.ViewPrecedence` | src/pages/Dashboard.jsx:182-214 | loading wins over a truthy error, which wins over the report; the ratio panels show iff the data is non-null |
| `Dashboard.OnlyOneTooltip` | src/pages/Dashboard.jsx:252 | with the tooltip set to p, p's row is the only row showing a tooltip |
| `Dashboard.Report.constructor` | src/pages/Dashboard.jsx:63-81 | mounting starts `fetchData`: loading, no error, no data, the name read from storage, one request for it |
| `Dashboard.Report.FetchSettles` | src/pages/Dashboard.jsx:83-94 | an OK status sets the data; a non-OK status or a thrown error sets the message and keeps the data; loading is false in every case |
| `Dashboard.Report.ToggleCategory` | src/pages/Dashboard.jsx:165-170 | the expanded map becomes its toggled form; nothing else changes |
| `Dashboard.Report.ShowInfo` | src/pages/Dashboard.jsx:173-175 | the tooltip becomes the given parameter |
| `Dashboard.Report.HideInfo` | src/pages/Dashboard.jsx:178-180 | the tooltip is cleared |
| `Dashboard.FailedFetchShowsError` | src/pages/Dashboard.jsx:198-214 | after a non-OK response the error screen shows the status message |
| `Flows.ModalPickNamesDashboard` | src/components/ModalSearch.jsx:115 | a company picked in the modal becomes the dashboard's title and the name it requests (or the default if the name is empty) |
| `Flows.LandingPickNamesDashboard` | src/pages/landing.jsx:32-42 | a company picked on the landing page becomes the dashboard's title, and the navigation carries its url and name |
| `Flows.NothingStoredUsesDefault` | src/pages/Dashboard.jsx:71 | with nothing stored the dashboard reports on "Banks and NBFC" |

## Left out

- The search lookup (`src/api/modalSearch.js`) is not part of this model. Its result is an input to the `LookupSettles` events: any `Response`. Its own rules (a blank query or any failure gives `[]`) appear as `FailedLookup`.
- The scraper POST is not modelled as a network call. Its outcome is an input to `FetchSettles`: a status with a parsed body, or a thrown error. A body that fails to parse on an OK status counts as a thrown error.
- Timers are not modelled: lodash `debounce` is a pending-query slot plus a `Fire` event, with no wall-clock time.
- Concurrency is not modelled beyond order: overlapping lookups are separate completion events that may come in any order.
- JSON text is not modelled: a stored value is either text or a company list. The application only ever writes a list under "recentSearches" (src/components/ModalSearch.jsx:110), and `ModalSearch.Modal.constructor` requires that the store holds a list there if anything. Text written under that key by something else is not modelled: malformed text would make the unguarded `JSON.parse` at line 55 throw, and well-formed JSON that is not a list would be kept as the recent list. An empty string is never parsed, as the check at line 54 skips it. `Dashboard.Report.constructor` requires only that "selectedCompany" holds text if anything.
- Some response shapes are not modelled: a string body, a truthy non-array `results` field, and JSON bodies other than `null` or an object on the dashboard.
- Numeric edge cases are not modelled: numeric ids are integers, and NaN ratio values are left out.
- `Landing.LandingPage.ResultClick`: the effect runs when the selection changes. React compares by reference; the model compares by value.
- DOM plumbing is not modelled: outside-click and Escape listeners, focus handling, and the landing input's `onFocus`. The modal's close is kept as the `Close` event.
- Routing is recorded as emitted signals (`navigatedTo`, `navigations`). `window.location.reload` on the error screen is left out.
- Static content is left out: the analysis story, the parameter descriptions shown in tooltips, and all markup, styling and `Transition`. The recommended companies are a constant list.
