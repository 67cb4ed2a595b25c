# Asteroid dashboard — a Dafny model of its rules

The dashboard shows near-Earth asteroids from a backend. Most of the
frontend is rendering and HTTP plumbing. Under it sits a set of small
rules, and this project models and proves them:

- **Risk labels.** A record carries a stored label from one of two
  vocabularies: SAFE/PROBLEMATIC/HAZARDOUS/DANGEROUS for the frontend and
  LOW/MEDIUM/HIGH for the database. It may also carry none. The model has
  one seven-constructor datatype, and "absent" is an `Option`. With no
  stored label, `getRiskLevel` derives a tier from the hazard flag and the
  miss distance. The colour, percentage and label tables key off these
  labels.
- **Feed composition.** This covers the tier tabs and the trending sort
  of the feed widget, and the feed page's search, risk filter and four
  sort modes. The page sorts its own copy in place, as an array method
  proved equal to the stable sort. It also covers the "four nearest" 3D
  selection, the status counters, and the mock fallbacks of the API
  layer. All of these are filters and stable sorts over sequences.
  `Array.prototype.sort` is stable by ECMA-262 (10th edition, section
  22.1.3.27). So a comparator `key(a) - key(b)` gives the stable
  ascending sort by `key`, and `key(b) - key(a)` gives the stable
  ascending sort by `-key`.
- **Validators and decisions.** These are the sign-in/sign-up form
  checks, the bookmark toggle of the detail modal, the example list's
  pager, the alert tables, the error classifier and request builders of
  the database service, the watchlist page's card/remove pairing, and
  the navbar's first-name and active-link rules.
- **Two state machines.** The auth service keeps its session in local
  storage, modelled as a `map` field. The data sync manager keeps
  registered intervals, the last-sync table and one global `isSyncing`
  flag.

Numbers are exact `real`s, which abstract the source's IEEE doubles. JS
truthiness is written out wherever the source relies on it. `x || 0`,
`|| 1` and `data.count || …` all fall through on `0`. An empty string is
falsy for tokens, ids and server messages.

Where the code and its documentation disagree, the model follows the code:

- `isAuthenticated` and `getCurrentUser` test truthiness. An empty stored
  token or user reads as absent, not just a missing key
  (src/services/auth.js:35,40).
- A bare-array feed response is counted as 0 (see "## Findings").
- The tier tabs and the risk filter compare the stored label. They do
  not call `getRiskLevel`, so a LOW/MEDIUM/HIGH record appears in no tier
  tab.

## Model

| member | source | states |
|---|---|---|
| Collections.Filter | src/pages/FeedPage.tsx:25 | `filter` never returns more elements than it was given |
| Collections.FilterAppend | src/components/StatusStrip.tsx:11-13 | an element appended to the input is kept iff it satisfies the predicate |
| Collections.FilterSubMultiset | src/pages/FeedPage.tsx:25 | `filter` keeps each element at most as often as it occurs in its input |
| Collections.FilterMultiplicity | src/components/StatusStrip.tsx:11-13 | `filter` keeps every occurrence of an element satisfying the predicate and no occurrence of any other |
| Collections.FilterMembers | src/components/AsteroidFeed.tsx:23-30 | an element is kept iff it occurs in the input and satisfies the predicate |
| Collections.FilterConcat | src/components/AsteroidFeed.tsx:23-30 | filtering distributes over concatenation, so kept elements stay in input order |
| Collections.FilterNone | src/components/StatusStrip.tsx:11-13 | when no element satisfies the predicate, the result is empty |
| Collections.FilterDisjointCounts | src/components/AsteroidFeed.tsx:23-30 | for two predicates that never hold together, their counts add up to the count of their disjunction |
| Collections.InsertSorts | src/pages/FeedPage.tsx:32-46 | one insertion step adds exactly the new element and keeps a sorted sequence sorted |
| Collections.InsertAdds | src/pages/FeedPage.tsx:32-46 | one insertion step adds exactly the inserted element to the multiset |
| Collections.KeyClassMember | src/pages/FeedPage.tsx:32-46 | the equal-key subsequence for a key holds exactly the elements with that key |
| Collections.InsertKeepsClasses | src/pages/FeedPage.tsx:32-46 | inserting an element appends it to the end of its own equal-key subsequence and leaves the others unchanged |
| Collections.StableSort | src/pages/FeedPage.tsx:32-46 | the sort returns a permutation of its input, ordered by non-decreasing key |
| Collections.StableSortKeepsClasses | src/pages/FeedPage.tsx:32-46 | elements with equal keys keep their relative input order (stability) |
| Collections.StableSortOfSorted | src/pages/FeedPage.tsx:32-46 | sorting an already sorted sequence returns it unchanged |
| Collections.StableSortIdempotent | src/pages/FeedPage.tsx:32-46 | sorting twice gives the same result as sorting once |
| Collections.SortedClassesDetermine | src/pages/FeedPage.tsx:32-46 | two sorted sequences with the same equal-key subsequences are equal |
| Collections.StableSortUnique | src/pages/FeedPage.tsx:32-46 | any sorted result that keeps every equal-key subsequence in input order is the stable sort, so the model pins down what a stable `sort` returns |
| Asteroids.DerivedTier | src/types/asteroid.ts:45-48 | the derived tier is one of the four tiers; it is DANGEROUS or HAZARDOUS iff the record is flagged; DANGEROUS iff flagged and nearer than 500 000 km; PROBLEMATIC iff unflagged and nearer than 5 000 000 km; SAFE otherwise |
| Asteroids.GetRiskLevel | src/types/asteroid.ts:43-49 | a stored label of either vocabulary is returned unchanged; with none, the result is a tier that is DANGEROUS or HAZARDOUS iff the record is flagged |
| Asteroids.DerivedTierMonotone | src/types/asteroid.ts:45-48 | with the flag fixed, a larger distance never yields a more severe tier |
| Asteroids.DerivedTierBoundaries | src/types/asteroid.ts:45-47 | a distance exactly at 500 000 km or 5 000 000 km falls into the less severe tier |
| Asteroids.RiskStyleTables | src/types/asteroid.ts:52-68 | both style tables give the four tiers four distinct entries, and every database label gets the SAFE entry |
| Asteroids.RiskColor | src/types/asteroid.ts:52-59 | "text-destructive" iff DANGEROUS, "text-orange-500" iff HAZARDOUS, "text-warning" iff PROBLEMATIC, "text-safe" for every other label |
| Asteroids.RiskBgColor | src/types/asteroid.ts:61-68 | the destructive badge iff DANGEROUS, the orange badge iff HAZARDOUS, the warning badge iff PROBLEMATIC, the safe badge for every other label |
| Asteroids.Severity | src/pages/FeedPage.tsx:37 | tier severity: DANGEROUS 3, HAZARDOUS 2, PROBLEMATIC 1, SAFE 0, each value iff its tier, so a more severe tier has a larger number |
| AsteroidFeed.FilterAsteroids | src/components/AsteroidFeed.tsx:21-38 | the result is a sub-multiset of the input; a tier tab keeps every occurrence of a record whose stored label is that tier and nothing else; trending is a permutation in non-increasing score |
| AsteroidFeed.TierTabsPartition | src/components/AsteroidFeed.tsx:23-30 | a record is in a tier tab iff its stored label is that tier, so a database-labelled or unlabelled record is in no tier tab |
| AsteroidFeed.TierTabsTotal | src/components/AsteroidFeed.tsx:23-30 | the four tier tabs together hold at most as many records as the feed |
| AsteroidFeed.TrendingPrefersNearer | src/components/AsteroidFeed.tsx:33-35 | with equal view counts and positive distances, a nearer record is never ranked after a farther one |
| AsteroidFeed.TrendingIsStable | src/components/AsteroidFeed.tsx:32-36 | records with equal trending score keep their feed order |
| AsteroidFeed.DistanceOrOne | src/components/AsteroidFeed.tsx:33-34 | `miss_distance_km \|\| 1`: the result is never zero; a zero distance becomes exactly 1, and any other distance is kept |
| AsteroidFeed.TrendingScore | src/components/AsteroidFeed.tsx:33-35 | at a non-negative distance the score exceeds the view count (missing views read as 0); at distance zero it is the views plus 10^9, as if 1 km away |
| Strings.LowerChar | src/pages/FeedPage.tsx:24 | ASCII upper-case letters map to their lower-case letters, and every other character is unchanged |
| Strings.Lower | src/pages/FeedPage.tsx:24-25 | lower-casing keeps the length, maps character by character, and leaves no ASCII upper-case letter |
| Strings.ContainsOccurs | src/pages/FeedPage.tsx:25 | `includes` holds iff the needle occurs at some position |
| Strings.ContainsEmpty | src/pages/FeedPage.tsx:25 | the empty string is included in every string |
| FeedPage.Searched | src/pages/FeedPage.tsx:23-26 | an empty search keeps the input; otherwise every occurrence of a record whose lower-cased name or raw NASA id contains the lower-cased query is kept, and nothing else |
| FeedPage.RiskFiltered | src/pages/FeedPage.tsx:28-30 | ALL keeps the input; otherwise every occurrence of a record whose stored label equals the chosen tier is kept, and nothing else |
| FeedPage.Narrowed | src/pages/FeedPage.tsx:21-30 | every occurrence of a record that passes both the search and the risk filter is kept, and nothing else; so it is a sub-multiset of the feed with exact membership |
| FeedPage.Feed | src/pages/FeedPage.tsx:20-49 | the page is a permutation of the narrowed feed, sorted by the mode's key |
| FeedPage.RiskRank | src/pages/FeedPage.tsx:37 | a rank below 4 iff the stored label is a four-tier label, and then DANGEROUS 0, HAZARDOUS 1, PROBLEMATIC 2, SAFE 3 (three minus severity) |
| FeedPage.SortInPlace | src/pages/FeedPage.tsx:32-46 | the in-place insertion sort leaves the array equal to the stable sort of its old contents |
| FeedPage.InsertLast | src/pages/FeedPage.tsx:32-46 | shifting `a[i]` left gives the insertion of that element into the sorted prefix, and the rest of the array is unchanged |
| FeedPage.InsertAt | src/pages/FeedPage.tsx:32-46 | an element lands after the last key not greater than its own, before a final run of greater keys |
| FeedPage.FilteredFeed | src/pages/FeedPage.tsx:20-49 | the memoised pipeline (copy, search, risk filter, in-place sort) returns the stable sort of the narrowed feed |
| FeedPage.FeedContents | src/pages/FeedPage.tsx:21-30 | the page is a permutation of the narrowed feed and a sub-multiset of the input; a record shows iff it passes the search and the risk filter |
| FeedPage.SearchIgnoresCase | src/pages/FeedPage.tsx:24-25 | two non-empty queries that lower-case alike select the same records |
| FeedPage.SearchHitMeans | src/pages/FeedPage.tsx:25 | `SearchHit` holds iff the query occurs in the lower-cased name or the NASA id |
| FeedPage.FeedOrder | src/pages/FeedPage.tsx:32-46 | under each mode's `SortKey`: nearest is by non-decreasing distance; riskiest by non-decreasing rank; fastest by non-increasing speed; viewed by non-increasing view count, with missing as 0 |
| FeedPage.RiskiestBySeverity | src/pages/FeedPage.tsx:36-38 | when every narrowed record has a four-tier label, the riskiest order puts a more severe tier first |
| FeedPage.FeedIsStable | src/pages/FeedPage.tsx:32-46 | records that tie under the chosen mode keep their narrowed-feed order |
| SpaceScene.VisibleAsteroids | src/components/three/SpaceScene.tsx:16-18 | the scene draws exactly min(4, n) records of the feed, each at most as often as there, nearest first |
| SpaceScene.VisibleAreNearest | src/components/three/SpaceScene.tsx:16-18 | no record left out is nearer than one drawn |
| SpaceScene.SmallFeedDrawnWhole | src/components/three/SpaceScene.tsx:16-18 | a feed of at most four records is drawn whole |
| StatusStrip.TierFeedCountsNothing | src/components/StatusStrip.tsx:11-13 | a feed with only four-tier labels (or none) shows zero in all three label counters |
| StatusStrip.Count | src/components/StatusStrip.tsx:10-13 | the total is the feed's length; safe, hazardous and highRisk are the sizes of the LOW, MEDIUM and HIGH filters; the three never add up to more than the total |
| StatusStrip.CounterMembers | src/components/StatusStrip.tsx:11-13 | each counter counts every occurrence of a record with its label (LOW, MEDIUM or HIGH) and no occurrence of any other record, so a record listed twice counts twice |
| Api.BaseUrl | src/services/api.ts:7 | the base URL is never empty: a non-empty environment value wins, otherwise the local default |
| Api.AuthorizationHeader | src/services/api.ts:18-24 | the header is sent iff a non-empty token is stored, and the token is the header minus the `Bearer ` prefix |
| Api.FeedCount | src/services/api.ts:36 | a non-zero `count` wins; an object body without one is counted by the length of its `asteroids` list (0 when there is none); a bare array is counted as 0 although it is its own list |
| Api.FetchAsteroidFeed | src/services/api.ts:30-44 | a failed request gives the mock feed, whose count equals its length; otherwise the server list is passed on, a non-zero count wins, an object body without one is counted by its list, a bare array gets 0, and `last_synced` falls back to now |
| Api.BareArrayCountIsZero | src/services/api.ts:36-38 | a bare array of eight records is returned whole with count 0 |
| Api.FeedCountCorrected | src/services/api.ts:36-38 | the corrected count is the length of the returned list whenever the body gives no non-zero count |
| Api.FeedCountCorrectedAgrees | src/services/api.ts:36 | the correction agrees with the code on every object body and counts a bare array by its length |
| Api.SliceEnd | src/services/api.ts:55 | `slice(0, limit)` ends at `min(limit, n)`, or `n + limit` clamped at 0 for a negative limit |
| Api.FetchTrending | src/services/api.ts:49-57 | the fallback is a prefix of the mock list of length min(limit, 8), or max(0, 8 + limit) for a negative limit |
| Api.TrendingDefaultLimitIsWholeMock | src/services/api.ts:49-55 | the default limit 10 returns all eight mock records |
| Api.FetchHazardous | src/services/api.ts:88-96 | success gives `data.asteroids` or `[]`; the fallback holds exactly the flagged mock records, four of them, each at most as often as in the mock list |
| Api.FetchUpcoming | src/services/api.ts:101-109 | success gives `data.asteroids` or `[]`; the fallback is the whole mock list of eight, which contains the hazardous fallback |
| Api.MockFeed | src/services/api.ts:113-116 | the mock feed is a list whose count equals its length |
| Api.MockIdsDistinct | src/services/api.ts:119-238 | the mock ids are distinct |
| Api.FindById | src/services/api.ts:260 | the result is the index of the first record with that id, or none when no record has it |
| Api.MockDetail | src/services/api.ts:258-268 | the detail is the record with the requested id if one exists, else the first; the approach count is 12; the explanation depends only on the hazard flag |
| Api.MockFlags | src/services/api.ts:124-243 | the hazard flags of the eight mock records, in order |
| Api.MockLevels | src/services/api.ts:132-251 | the stored labels of the eight mock records: LOW, HIGH, LOW, MEDIUM, MEDIUM, LOW, HIGH, LOW |
| Api.MockFlaggedCount | src/services/api.ts:94 | four mock records are flagged |
| Api.MockFilterCount | src/services/api.ts:273-283 | a filter of the mock list keeps one record per mock record that satisfies it |
| Api.MockSafeCount | src/services/api.ts:273-280 | four mock records are SAFE or LOW |
| Api.MockProblematicCount | src/services/api.ts:274-281 | two mock records are PROBLEMATIC or MEDIUM |
| Api.MockHazardousCount | src/services/api.ts:275-282 | two mock records are HAZARDOUS or HIGH |
| Api.MockDangerousCount | src/services/api.ts:276-283 | no mock record is DANGEROUS |
| Api.Categorize | src/services/api.ts:270-287 | each breakdown count is the length of its list, the total is the input length, and the four counts sum to at most the total |
| Api.CategorizedMockFeed | src/services/api.ts:270-287 | the mock feed breaks down as 4 safe, 2 problematic, 2 hazardous, 0 dangerous, out of 8 |
| Api.CategoryMembers | src/services/api.ts:273-276 | each list holds exactly the records of its two labels (DANGEROUS alone) |
| Api.CategoriesDisjoint | src/services/api.ts:273-276 | no record is in two lists |
| Asteroid3D.AsteroidColor | src/components/three/Asteroid3D.tsx:18-27 | red iff DANGEROUS; orange iff HAZARDOUS or HIGH; yellow iff PROBLEMATIC or MEDIUM; green iff SAFE or LOW |
| Asteroid3D.AsteroidGlow | src/components/three/Asteroid3D.tsx:29-38 | "#ff6b6b" iff DANGEROUS; "#fb923c" iff HAZARDOUS or HIGH; "#fbbf24" iff PROBLEMATIC or MEDIUM; "#4ade80" iff SAFE or LOW |
| Asteroid3D.GlowMatchesColor | src/components/three/Asteroid3D.tsx:18-38 | two labels share a glow iff they share a body colour |
| Asteroid3D.ColorThroughTier | src/components/three/Asteroid3D.tsx:18-38 | every label takes the colours of a four-tier label, and the four tiers get four colours |
| Asteroid3D.SphereSize | src/components/three/Asteroid3D.tsx:56 | the size always lies in [0.06, 0.2] |
| Asteroid3D.SphereSizeCases | src/components/three/Asteroid3D.tsx:56 | a zero diameter gives the floor 0.06; diameters from 0.4 km to 4/3 km are drawn to scale; the ends clamp |
| Asteroid3D.SphereSizeMonotone | src/components/three/Asteroid3D.tsx:56 | among non-zero diameters, a larger asteroid is never drawn smaller |
| Asteroid3D.LookOf | src/components/three/Asteroid3D.tsx:52-56 | colour and glow follow `getRiskLevel`; an unlabelled flagged record is red or orange, an unflagged one yellow or green |
| DetailModal.RiskPercent | src/components/AsteroidDetailModal.tsx:62 | 100 iff DANGEROUS, 75 iff HAZARDOUS, 50 iff PROBLEMATIC, 15 for every other label |
| DetailModal.RiskPercentMonotone | src/components/AsteroidDetailModal.tsx:62 | on the four tiers, the percentage is strictly monotone in severity, both ways |
| DetailModal.BarColor | src/components/AsteroidDetailModal.tsx:95-99 | destructive iff DANGEROUS or HAZARDOUS, warning iff PROBLEMATIC, safe otherwise |
| DetailModal.BarColorOfUnlabelled | src/components/AsteroidDetailModal.tsx:61-99 | with no stored label, the bar is destructive iff the record is flagged |
| DetailModal.Badge | src/components/AsteroidDetailModal.tsx:108-109 | the icon follows the risk, and the text depends only on the hazard flag |
| DetailModal.BadgeCanDisagree | src/components/AsteroidDetailModal.tsx:108-109 | a flagged HIGH record shows the shield beside "Potentially Hazardous" |
| DetailModal.FindEntry | src/components/AsteroidDetailModal.tsx:28 | no match iff every entry has an asteroid that does not match; a found id is the first match's; a thrown TypeError means an unpopulated entry was reached before any match |
| DetailModal.WatchlistId | src/components/AsteroidDetailModal.tsx:28 | with no match there is no id; otherwise the id is the `_id` of the first matching entry |
| DetailModal.Toggle | src/components/AsteroidDetailModal.tsx:30-45 | with no user, navigate to /profile; remove iff signed in, listed and a non-empty id was found, removing that id; otherwise add with the fixed notes |
| DetailModal.ToggleAddsWhenIdMissing | src/components/AsteroidDetailModal.tsx:36-43 | a listed asteroid with no entry id found is added again |
| DetailModal.ToggleRemovesFoundEntry | src/components/AsteroidDetailModal.tsx:28-37 | the entry the lookup finds is the one the button removes |
| ProfilePage.LoginValidation | src/pages/ProfilePage.tsx:31-35 | sign-in fails iff email or password is empty; name and confirmation are ignored |
| ProfilePage.Validate | src/pages/ProfilePage.tsx:30-52 | passing means email and password are filled in, and for registration also a name, a matching confirmation and at least 6 characters; a sign-in failure is always "fill in all fields"; a failure is one of the three messages |
| ProfilePage.RegisterValidationOrder | src/pages/ProfilePage.tsx:38-52 | a missing field is reported first, then a mismatch, then a password under 6 characters; exactly 6 passes |
| ProfilePage.RequestFor | src/pages/ProfilePage.tsx:36-57 | sign-in sends email and password, and registration also sends the name as `username` |
| ProfilePage.FailureMessage | src/pages/ProfilePage.tsx:62 | the message is never empty: a non-empty server message wins; otherwise the mode's fallback text is used |
| ProfilePage.Update | src/pages/ProfilePage.tsx:18-22 | the named field takes the value and every other field keeps its own |
| ProfilePage.ProfileForm.constructor | src/pages/ProfilePage.tsx:12-15 | the form opens in sign-in mode, empty, with no error and not loading |
| ProfilePage.ProfileForm.InputChange | src/pages/ProfilePage.tsx:18-22 | the named field takes the value and the error is cleared |
| ProfilePage.ProfileForm.ToggleMode | src/pages/ProfilePage.tsx:232 | the mode flips and the error is cleared |
| ProfilePage.ProfileForm.Submit | src/pages/ProfilePage.tsx:24-66 | a request is sent iff validation passes, and it is the mode's request; a failed check sets its message; success resets the form; failure shows the failure message; `loading` ends false |
| Navbar.AtMostOneActive | src/components/Navbar.tsx:12-18 | the link targets are distinct, so at most one link is highlighted |
| Navbar.FirstName | src/components/Navbar.tsx:80 | the first name is a prefix of the name, contains no space, and is the whole name or stops at a space |
| Navbar.FirstNameOfFullName | src/components/Navbar.tsx:80 | "first rest" shows "first" when `first` has no space |
| Navbar.AccountControls | src/components/Navbar.tsx:72-99 | nothing is shown while loading; the login link is shown with no user; otherwise profile and logout, with the first name on desktop and the whole name on mobile |
| Navbar.NavbarState.constructor | src/components/Navbar.tsx:21 | the drawer starts closed |
| Navbar.NavbarState.ToggleMenu | src/components/Navbar.tsx:103 | the hamburger negates `mobileOpen` |
| Navbar.NavbarState.MobileLinkClicked | src/components/Navbar.tsx:119-152 | a drawer link closes the drawer |
| Navbar.NavbarState.Logout | src/components/Navbar.tsx:26-29 | logout starts one logout request and closes the drawer |
| WatchlistPage.CardOf | src/pages/WatchlistPage.tsx:51 | a card shows the asteroid iff the entry is populated |
| WatchlistPage.RemoveMatchesCard | src/pages/WatchlistPage.tsx:51-81 | card i's remove button deletes the `_id` of the entry that card i shows |
| WatchlistPage.PluralSuffix | src/pages/WatchlistPage.tsx:63 | "s" iff the count is not 1 |
| WatchlistPage.Page | src/pages/WatchlistPage.tsx:16-106 | a visitor gets the login prompt; the tracking view counts the entries; the grid pairs card i with entry i's id |
| WatchlistPage.VisitorSeesOnlyPrompt | src/pages/WatchlistPage.tsx:24-48 | without a user, only the login prompt is produced, whatever the list |
| AsteroidsList.ListRiskColor | src/components/examples/AsteroidsListExample.jsx:32-43 | red iff HIGH, yellow iff MEDIUM, green iff LOW, gray for everything else (including no label) |
| AsteroidsList.AddToWatchlist | src/components/examples/AsteroidsListExample.jsx:17-30 | nothing is sent without a non-empty user id; otherwise the request carries empty notes |
| AsteroidsList.PageCount | src/components/examples/AsteroidsListExample.jsx:123 | the page count is `ceil(total / 20)` |
| AsteroidsList.AfterPrevious | src/components/examples/AsteroidsListExample.jsx:113-120 | Previous moves back at most one page, exactly one from a page above 1 when the pager is shown, none when it is hidden, and keeps a page in range |
| AsteroidsList.AfterNext | src/components/examples/AsteroidsListExample.jsx:113-130 | Next moves forward at most one page, exactly one below the last page when the pager is shown, none from the last page or when hidden, and keeps a page in range |
| AsteroidsList.ClicksStayInRange | src/components/examples/AsteroidsListExample.jsx:113-131 | any sequence of clicks from page 1 stays within 1..max(1, pages) |
| AsteroidsList.ReplayKeepsRange | src/components/examples/AsteroidsListExample.jsx:113-131 | starting in range, any sequence of clicks stays in range |
| AsteroidsList.ListState.constructor | src/components/examples/AsteroidsListExample.jsx:11-12 | the list starts on page 1 with no filters |
| AsteroidsList.ListState.Previous | src/components/examples/AsteroidsListExample.jsx:113-120 | Previous moves back one page unless the pager is hidden or on page 1 |
| AsteroidsList.ListState.Next | src/components/examples/AsteroidsListExample.jsx:113-130 | Next moves forward one page unless the pager is hidden or on the last page |
| AsteroidsList.ListState.ToggleHazardous | src/components/examples/AsteroidsListExample.jsx:55-58 | a truthy `hazardous` becomes undefined and anything else becomes `true`; other filters are kept |
| Alerts.AlertTypeLabels | src/components/examples/AlertsExample.jsx:38-51 | the four known types get four distinct labels, and any other type is shown as it is |
| Alerts.AlertTypeLabel | src/components/examples/AlertsExample.jsx:38-51 | high_risk gives "High Risk Asteroid", close_approach "Close Approach", watchlist_update "Watchlist Update" and custom "Custom Alert"; the label differs from the type iff the type is one of these four, so any other type is shown as it is |
| Alerts.PriorityColor | src/components/examples/AlertsExample.jsx:25-36 | red iff high, yellow iff medium, green iff low, gray otherwise |
| Alerts.AlertsPanel.constructor | src/components/examples/AlertsExample.jsx:14 | nothing is selected at first |
| Alerts.AlertsPanel.Select | src/components/examples/AlertsExample.jsx:76 | a click on a card selects that alert |
| Alerts.AlertsPanel.MarkAsRead | src/components/examples/AlertsExample.jsx:16-23 | the id is requested; success clears the selection and failure keeps it |
| Database.CreateCustomAlert | src/services/database.js:101-108 | the type is "custom", with priority "medium" by default |
| Database.OmittedDefaultsAreExplicit | src/services/database.js:64-108 | omitting the priority is the same request as passing "medium", and omitting the notes the same as passing "" |
| Database.CustomAlertIsCustomType | src/services/database.js:87-108 | a custom alert is the alert of type "custom" with the same arguments |
| Database.AddToWatchlist | src/services/database.js:64-68 | the body is the asteroid id and the notes, with notes "" by default |
| Database.WatchlistPathNamesUser | src/services/database.js:65 | the path is `/users/<id>/watchlist`, with the user id recoverable between prefix and suffix |
| Database.ServerMessage | src/services/database.js:138 | the message is never empty: a non-empty `data.message` wins, otherwise "An error occurred" |
| Database.HandleError | src/services/database.js:132-158 | only a response carries data, and then its status, data and a non-empty message; without one, status 0 iff the request was made (with the fixed no-response message) and -1 iff it was not (with the error's own message) |
| Database.KindOf | src/services/database.js:133-149 | exactly one of the three branches applies |
| Database.HandleErrorBranches | src/services/database.js:133-157 | only a response carries data; without one, status 0 or -1 tells the request and setup cases apart; a response wins over a made request |
| Auth.Stored | src/services/auth.js:8-21 | with a non-empty token both keys are set; otherwise storage is unchanged; other keys are never touched |
| Auth.Cleared | src/services/auth.js:26-30 | both session keys are removed and the rest is kept |
| Auth.Refreshed | src/services/auth.js:46-48 | only the token changes; the user entry and other keys are kept |
| Auth.CurrentUser | src/services/auth.js:33-36 | null iff the user entry is absent or empty; otherwise it is the stored user |
| Auth.LoginStartsSession | src/services/auth.js:7-12 | a token response signs in and makes its user current; one without a token leaves the session as it was |
| Auth.LogoutEndsSession | src/services/auth.js:26-41 | after logout nobody is authenticated and there is no current user |
| Auth.LoginThenLogout | src/services/auth.js:6-30 | logging out after a login leaves the same storage as logging out without it |
| Auth.RefreshKeepsUser | src/services/auth.js:44-50 | a refresh keeps the current user and never ends a session |
| Auth.AuthStore.Login | src/services/auth.js:6-13 | posts the credentials to /auth/login, stores the session on a token, and returns the response data |
| Auth.AuthStore.Register | src/services/auth.js:16-23 | posts the new account to /auth/register, stores the session on a token, and returns the response data |
| Auth.AuthStore.Logout | src/services/auth.js:26-30 | removes both session keys |
| Auth.AuthStore.RefreshToken | src/services/auth.js:44-50 | posts to /auth/refresh and replaces only the token when one is returned |
| Auth.AuthStore.VerifyToken | src/services/auth.js:53-58 | a failed check clears both keys and yields false; success changes nothing |
| DataSync.WatchlistKey | src/services/dataSyncManager.js:27 | the watchlist key is a ten-character prefix followed by the user id |
| DataSync.AlertsKey | src/services/dataSyncManager.js:32 | the alerts key is a seven-character prefix followed by the user id |
| DataSync.SyncManager.constructor | src/services/dataSyncManager.js:8-12 | a new manager has no intervals, no sync times and is not syncing |
| DataSync.SyncKeysDistinct | src/services/dataSyncManager.js:22-32 | a user's three sync keys are distinct, and different users get different keys |
| DataSync.SyncManager.BeginSync | src/services/dataSyncManager.js:63-66 | skipped while a sync runs; otherwise it takes the flag for this key |
| DataSync.SyncManager.FinishSync | src/services/dataSyncManager.js:67-76 | only success records the time, and only for the in-flight key; the flag is always released |
| DataSync.SyncManager.StartAutoSync | src/services/dataSyncManager.js:45-58 | the key's old interval stops running; one fresh interval is registered under the key; one immediate sync is attempted |
| DataSync.SyncManager.RegisterInterval | src/services/dataSyncManager.js:55-57 | `setInterval` hands out a handle not already running, and registers it |
| DataSync.SyncManager.Tick | src/services/dataSyncManager.js:55-56 | a registered interval firing attempts one sync of its key |
| DataSync.SyncManager.StopAutoSync | src/services/dataSyncManager.js:82-87 | only the key is removed and its interval stopped; an absent key is a no-op |
| DataSync.SyncManager.StopAllSync | src/services/dataSyncManager.js:92-96 | the registry is empty and no interval is still running |
| DataSync.SyncManager.GetLastSyncTime | src/services/dataSyncManager.js:101-103 | the recorded time of the key, undefined if never synced |
| DataSync.SyncManager.ManualSync | src/services/dataSyncManager.js:108-110 | one sync of the key under the same guard |
| DataSync.SyncManager.InitializeUserSync | src/services/dataSyncManager.js:17-40 | an empty id registers nothing; otherwise the three keys get fresh intervals, and of the three immediate syncs only the first can start |

## Left out

- HTTP execution: axios instances, react-query hooks and the network. In the API and database layers a request's outcome is a parameter (a parsed body, or `None` for a request that threw).
- Auth.AuthStore.Login, Auth.AuthStore.Register, Auth.AuthStore.RefreshToken: the response is always a resolved post with `response.data.data` present. A rejected post (the promise rejects and storage is untouched) and a missing `response.data.data` (reading `.token` throws) are not modelled (src/services/auth.js:7,17,45).
- Auth.AuthStore.VerifyToken: a successful check is modelled as `true`; the source resolves with the axios response itself, which is truthy (src/services/auth.js:54).
- The success paths of `fetchTrendingAsteroids`, `fetchCategorizedFeed` and `fetchAsteroidDetail` (`data`, `data`, `data.asteroid || data`) pass the body through. Only their fallbacks are modelled; `fetchCategorizedFeed`'s fallback is `Api.CategorizedMockFeed`.
- Real timers and `await` interleaving. `syncData` is split at its `await` into `BeginSync` and `FinishSync`, and an interval firing is the `Tick` event. The fetch function passed to `startAutoSync` and the interval period are not modelled.
- `JSON.stringify`/`JSON.parse` in the auth service. The stored user is its JSON text, taken as given. A `user` field that stringifies to `undefined` is not distinguished.
- Logging (`console.*`), rendering, Three.js motion, and number/date formatting.
- `new Date().toISOString()` is the parameter `now`.
- Floating point. Numbers are exact reals, so IEEE rounding in the trending score and the size clamp is not modelled.
- FeedPage.RiskRank: the source's `riskOrder` has no entry for LOW/MEDIUM/HIGH or a missing label, so its comparator yields NaN, which `sort` reads as +0 ("equal"). Equality is then not transitive on such a feed (SAFE, LOW, DANGEROUS: SAFE ties LOW and LOW ties DANGEROUS), so the source's order is unspecified. The model ranks those records last (4). The riskiest order reflects the source only when every narrowed record has a four-tier label, which always holds under a tier filter; `FeedPage.RiskiestBySeverity` requires exactly that.
- Labels are drawn from the seven known strings. An unknown label string cannot be represented, so the "unknown label" fallbacks of the tables are covered only for the labels of the other vocabulary.
- `toLowerCase` folds ASCII letters only. Password length counts characters, not UTF-16 code units.
- A field the source may lack (diameter, distance, a record's `_id`) is a plain value. Only `view_count`, the stored label and the database `_id` are optional.
- The example components read `user?.id`, while the detail modal reads `user?._id`. Each is modelled with the id it reads, given as an `Option`. A signed-in user whose `_id` is missing is not distinguished in `DetailModal.Toggle`.
- `unreadCount > 0` is modelled for numbers only (`Alerts.ShowUnreadBadge`).
- The one-comparison display conditions `FeedPage.SearchHit`, `FeedPage.SortKey`, `AsteroidsList.PagerShown`, `AsteroidsList.PreviousDisabled`, `AsteroidsList.NextDisabled`, `WatchlistPage.RemoveTarget`, `Navbar.IsActive`, `Alerts.ShowUnreadBadge` and `Alerts.ShowMarkAsRead` are definitions without contracts of their own. What follows from the first seven is stated by `FeedPage.SearchHitMeans`, `FeedPage.FeedOrder`, `AsteroidsList.AfterPrevious`, `AsteroidsList.AfterNext`, `WatchlistPage.RemoveMatchesCard` and `Navbar.AtMostOneActive`; the last two are the source's comparison itself. Likewise `Api.FeedItems` (src/services/api.ts:38), `Asteroids.Views`, `WatchlistPage.Cards`, `Database.CreateAlert`, `Auth.Authenticated`, `Auth.AuthStore.GetCurrentUser`, `Auth.AuthStore.IsAuthenticated`, `Strings.Contains` and `Asteroid3D.FourTierOf` are definitions whose claims are carried by other rows: `Api.FeedCount` and `Api.FetchAsteroidFeed`; `FeedPage.FeedOrder` and `AsteroidFeed.TrendingScore`; `WatchlistPage.Page` and `WatchlistPage.RemoveMatchesCard`; `Database.OmittedDefaultsAreExplicit` and `Database.CustomAlertIsCustomType`; `Auth.LoginStartsSession`, `Auth.LogoutEndsSession` and `Auth.RefreshKeepsUser` (the two class functions read the storage through `Auth.CurrentUser` and `Auth.Authenticated`); `Strings.ContainsOccurs`; `Asteroid3D.ColorThroughTier`.
- The mark-as-read, add and remove mutations are recorded as requests. Their server effects are not modelled.
- DetailModal.WatchlistId: requires a lookup that does not throw. When the search reaches a watchlist entry whose asteroid is missing before any match, reading its `_id` raises a TypeError and the modal does not render (src/components/AsteroidDetailModal.tsx:28); `DetailModal.FindEntry` reports that case as `Throws`, and no bookmark decision follows it.
- AsteroidsList.ClicksStayInRange and AsteroidsList.ReplayKeepsRange hold `total` fixed. The "Hazardous Only" toggle changes the filtered total without resetting `page` (src/components/examples/AsteroidsListExample.jsx:55-58), so after a toggle the page can lie beyond the new last page; the model does not claim the page stays in range across a toggle.
- Only object and array response bodies are modelled (`Api.FeedBody`). A `null` body makes `data.count` throw inside the `try`, and `fetchAsteroidFeed` then returns the mock feed, which is the model's failed-request outcome. A string body, such as an HTML error page, would be passed on as `asteroids` with count 0; it cannot be represented.
- `fetchAsteroidDetail`'s fallback is `Api.MockDetail` of the requested id; its success path (`data.asteroid || data`) is not modelled.

## Findings

| source | as written | input that shows it | evidently intended | confidence | as-written member | corrected member |
|---|---|---|---|---|---|---|
| src/services/api.ts:36-38 | `count: data.count \|\| data.asteroids?.length \|\| 0`, while line 38 accepts a bare array as the list | a bare array body of the eight mock records: the list has 8 records, the count is 0 | the count is the length of the list returned, when the body gives no count | medium, not executed | Api.BareArrayCountIsZero | Api.FeedCountCorrected |
