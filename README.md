# Campus portal: search, session gates and profile display

A Dafny model of the logic inside the student-services campus portal's
pages. The portal is a browser front end over a hosted database with
built-in authentication. Almost all of it is rendering and direct calls to
that service. The logic that remains is modelled here:

- **Campus map** (`src/pages/CollegeMap.tsx`). The page holds the
  session, the fetched location list, the shown (filtered) list and the
  search text. Search is a case-insensitive substring match on name,
  building or type. A blank query restores the whole list. A load
  replaces both lists, and a failed load leaves both alone. The page
  renders nothing without a session, and an empty list shows one of two
  hints. It is modelled as the class `CollegeMap.CollegeMapPage`. Its
  fields are that state plus a log of outward actions. Each callback of
  the source is one method. The filter predicate and the search result
  are pure functions.
- **Profile page** (`src/pages/Profile.tsx`). The fetch is guarded by the
  signed-in user, and logout runs its steps in a fixed order. The avatar
  letter, the name and the three counts are derived from a profile row
  that may be missing. This is the class `Profile.ProfilePage` plus pure
  display functions.
- **Dashboard** (`src/pages/Dashboard.tsx`). A session gate drives the
  profile fetch on mount and on every auth change. The four static
  service cards are listed. The props handed to the stats widget are
  derived from the row. This is the class `Dashboard.DashboardPage` plus
  pure functions.
- **Stats widget** (`src/components/UserStats.tsx`). Default parameters
  apply only to omitted props. The avatar letter is the upper-cased first
  character of the name.

Modules: `Js` covers JavaScript's null/undefined as `Option`, `||`
truthiness, and `toLowerCase`, `toUpperCase`, `charAt`, `trim` and
`includes`. `Schema` covers the `location_type` enum and the `profiles`
row. `Runtime` covers the session and the effect log. Then come one
module per page or component.

The hosted service is not modelled. Its answers arrive as the arguments
of event methods: `SessionResolved`, `AuthChanged`, `UserResolved`,
`LoadSucceeded`, `LoadFailed` and `ProfileFetched`. The requests, toasts
and navigations a page issues are appended, in order, to its `effects`
field.

Assumptions:

- Case mapping is ASCII-only. `toLowerCase` changes only A-Z, and
  `toUpperCase` changes only a-z.
- `trim` removes exactly the characters ECMAScript counts as WhiteSpace
  or LineTerminator.
- Strings are sequences of Unicode characters, not UTF-16 code units.

The profile page has no session gate of its own: it always renders its
card, and it navigates to `/auth` only when the user lookup finds no user.

## Model

| member | source | states |
|---|---|---|
| `Js.OrNumber` | src/pages/Profile.tsx:59-67 | `n \|\| 0` gives the stored number, or 0 when it is null or undefined (a stored 0 is falsy but shows 0 anyway) |
| `Js.OrString` | src/pages/Profile.tsx:49-52 | `s \|\| d` on a string that may be missing: a non-empty string is kept, a missing or empty one gives `d`, so a non-empty default never yields "" (also src/pages/Dashboard.tsx:120) |
| `Js.OrStringDefaultWhenFalsy` | src/pages/Profile.tsx:52 | `s \|\| d` falls back to `d` exactly when `s` is null, undefined or "" (or already `d`), and is never "" when `d` is not |
| `Js.ToLowerCase` | src/pages/CollegeMap.tsx:91-93 | lowering keeps the length and lowers every character |
| `Js.ToUpperCase` | src/pages/Profile.tsx:49 | upper-casing keeps the length and raises every character |
| `Js.LowerIdempotent` | src/pages/CollegeMap.tsx:91-93 | lowering twice equals lowering once |
| `Js.LowerOfUpper` | src/pages/CollegeMap.tsx:91-93 | lowering after upper-casing equals lowering, so the two cases of a letter compare equal |
| `Js.CharAt` | src/components/UserStats.tsx:20 | `charAt(i)` is the one-character string at `i`, or "" past the end |
| `Js.TrimStart` | src/pages/CollegeMap.tsx:84 | the result is a suffix not starting with white space, and everything dropped is white space |
| `Js.TrimEnd` | src/pages/CollegeMap.tsx:84 | the result is a prefix not ending with white space, and everything dropped is white space |
| `Js.Trim` | src/pages/CollegeMap.tsx:84 | neither end of a trimmed string is white space |
| `Js.TrimEmptyIffAllWhiteSpace` | src/pages/CollegeMap.tsx:84 | `!query.trim()` holds exactly when every character of the query is white space (both directions) |
| `Js.Includes` | src/pages/CollegeMap.tsx:91-93 | `s.includes(sub)`: true when `sub` is a prefix of `s`, and never true for a `sub` longer than `s` |
| `Js.IncludesIffOccurs` | src/pages/CollegeMap.tsx:91-93 | `s.includes(sub)` holds exactly when `sub` occurs in `s` at some index (both directions) |
| `Js.IncludesLength` | src/pages/CollegeMap.tsx:91-93 | every string includes "", and no string includes a longer one |
| `Js.IncludesHasFirstChar` | src/pages/CollegeMap.tsx:91-93 | a non-empty string is included only where its first character occurs |
| `Schema.TypeNameInjective` | src/integrations/supabase/types.ts:186-197 | distinct `location_type` values have distinct names |
| `Schema.FullNameOf` | src/pages/Profile.tsx:52 | `profile?.full_name`: missing when the profile is missing, else the column as stored (possibly null) |
| `Schema.PointsOf` | src/pages/Profile.tsx:59 | `profile?.points`: missing when the profile is missing, else the column as stored |
| `Schema.ReviewsCountOf` | src/pages/Profile.tsx:63 | `profile?.reviews_count`: missing when the profile is missing, else the column as stored |
| `Schema.StreakDaysOf` | src/pages/Profile.tsx:67 | `profile?.streak_days`: missing when the profile is missing, else the column as stored |
| `CollegeMap.TypeColorsCoverLocationTypes` | src/pages/CollegeMap.tsx:25-37 | every `location_type` value has a badge colour in `typeColors`, and the table has no other keys |
| `CollegeMap.BadgeColor` | src/pages/CollegeMap.tsx:163-166 | `typeColors[location.type]` is always one of the table's colours, never undefined |
| `CollegeMap.Matches` | src/pages/CollegeMap.tsx:90-93 | the `filter` callback: the lowered query in the lowered name, building (when present) or type; an empty query matches every location, and a name hit alone is enough |
| `CollegeMap.IsBlank` | src/pages/CollegeMap.tsx:84 | `!query.trim()` holds exactly when every character of the query is white space |
| `CollegeMap.SearchResult` | src/pages/CollegeMap.tsx:84-96 | the list `handleSearch` shows: the whole list for a blank query, the filtered one otherwise; never longer than the fetched list and holding only fetched locations |
| `CollegeMap.Filter` | src/pages/CollegeMap.tsx:89-94 | the filtered list holds only matching locations taken from the input, and is no longer than the input |
| `CollegeMap.FilterCounts` | src/pages/CollegeMap.tsx:89-96 | each matching location is kept as many times as it occurs, and each other one is dropped |
| `CollegeMap.FilterComplete` | src/pages/CollegeMap.tsx:89-96 | every matching location of the input is in the result |
| `CollegeMap.FilterAppend` | src/pages/CollegeMap.tsx:89-96 | filtering a concatenation is the concatenation of the filtered parts, which fixes the result order to the input order |
| `CollegeMap.FilterOne` | src/pages/CollegeMap.tsx:89-94 | a one-row list keeps its row exactly when the row matches |
| `CollegeMap.FilterNoMatch` | src/pages/CollegeMap.tsx:89-96 | when no location matches, the result is empty |
| `CollegeMap.FilterKeepsOrder` | src/pages/CollegeMap.tsx:68-96 | a list sorted in any order, such as the server's order by name, stays sorted after the search |
| `CollegeMap.BlankQueryShowsAll` | src/pages/CollegeMap.tsx:84-87 | an empty or all-white-space query shows the whole fetched list |
| `CollegeMap.NonBlankQueryFilters` | src/pages/CollegeMap.tsx:84-96 | any other query shows exactly the fetched locations that match the untrimmed query |
| `CollegeMap.VisibleCharNotBlank` | src/pages/CollegeMap.tsx:84 | a query with one character that is not white space is not blank |
| `CollegeMap.LabRoomMatching` | src/pages/CollegeMap.tsx:89-94 | a room named "Lab" matches "lab" but not " lab" |
| `CollegeMap.UntrimmedQueryExample` | src/pages/CollegeMap.tsx:84-94 | trimming is only for the blank test: " lab" finds nothing where "lab" finds the room |
| `CollegeMap.AbsentBuildingMatchesByNameOrType` | src/pages/CollegeMap.tsx:92 | a location without a building matches only through its name or its type |
| `CollegeMap.SearchIgnoresCase` | src/pages/CollegeMap.tsx:84-94 | two queries that lower to the same text give the same list |
| `CollegeMap.SameMatchesSameFilter` | src/pages/CollegeMap.tsx:89-94 | two queries that lower to the same text filter alike |
| `CollegeMap.RenderMap` | src/pages/CollegeMap.tsx:99-144 | nothing renders exactly when there is no session; cards are shown only for a non-empty list, and the empty block only for an empty one |
| `CollegeMap.RenderMapCases` | src/pages/CollegeMap.tsx:99-139 | nothing renders without a session; an empty list says "Try a different search term" exactly when the typed query is non-empty (white space included), else it asks to add locations; otherwise every shown location has a card |
| `CollegeMap.ConsistentShowsOnlyFetched` | src/pages/CollegeMap.tsx:78-96 | the shown list is never longer than the fetched list and holds only fetched locations |
| `CollegeMap.LibraryRoomMissesZzz` | src/pages/CollegeMap.tsx:89-94 | a library named "Library" does not match "zzz" |
| `CollegeMap.LoadDoesNotReapplyQuery` | src/pages/CollegeMap.tsx:78-79 | after a load the shown list can differ from the search result for the query still in the box |
| `CollegeMap.CollegeMapPage.constructor` | src/pages/CollegeMap.tsx:41-45 | initial state: no session, empty lists, empty query |
| `CollegeMap.CollegeMapPage.SessionResolved` | src/pages/CollegeMap.tsx:48-55 | stores the session, then navigates to /auth without one or requests the locations with one; the lists are unchanged |
| `CollegeMap.CollegeMapPage.AuthChanged` | src/pages/CollegeMap.tsx:59-62 | stores the session; navigates to /auth when it is absent and does nothing else (no refetch for a present session) |
| `CollegeMap.CollegeMapPage.LoadSucceeded` | src/pages/CollegeMap.tsx:73-79 | both lists become the rows (`data \|\| []`), without reapplying the current query |
| `CollegeMap.CollegeMapPage.LoadFailed` | src/pages/CollegeMap.tsx:73-76 | one error toast; neither list changes |
| `CollegeMap.CollegeMapPage.Search` | src/pages/CollegeMap.tsx:82-97 | stores the raw query and shows the search result of the whole fetched list, whatever was shown before; keeps the page invariant |
| `CollegeMap.CollegeMapPage.SelectLocation` | src/pages/CollegeMap.tsx:148 | a clicked card becomes the selected location |
| `CollegeMap.SignedInEmptyCampus` | src/pages/CollegeMap.tsx:48-139 | signed in with an empty table: the locations are requested and the page shows the add-locations hint, not an error |
| `CollegeMap.NoMatchSearchEmpty` | src/pages/CollegeMap.tsx:84-96 | a non-blank query that no fetched row matches gives an empty list, and the query is non-empty |
| `CollegeMap.SearchWithEmptyResult` | src/pages/CollegeMap.tsx:82-139 | signed in, a non-empty query whose search result is empty shows "Try a different search term" |
| `CollegeMap.SearchWithoutMatch` | src/pages/CollegeMap.tsx:82-139 | a non-blank query that matches no loaded row shows "Try a different search term" |
| `UserStats.Render` | src/components/UserStats.tsx:10-41 | an omitted name shows "Student", a passed one shows as is; the avatar letter has at most one character; there are three counts |
| `UserStats.InitialIsFirstCharUpper` | src/components/UserStats.tsx:20 | the avatar letter is the upper-cased first character of the shown name, and "" only when the name is "" |
| `UserStats.OmittedPropsDefault` | src/components/UserStats.tsx:10-15 | with every prop omitted: "S", "Student" and counts 0, 0, 0 |
| `UserStats.ExplicitEmptyName` | src/components/UserStats.tsx:11-20 | an explicitly passed "" is not replaced by the default and gives an empty avatar letter |
| `UserStats.CountsShownInOrder` | src/components/UserStats.tsx:29-41 | passed counts are shown unchanged in the order points, reviews, streak; an omitted one shows 0 |
| `Profile.Initial` | src/pages/Profile.tsx:49 | the avatar letter always has exactly one character |
| `Profile.DisplayName` | src/pages/Profile.tsx:52 | the shown name is never empty |
| `Profile.Card` | src/pages/Profile.tsx:49-67 | the card for a row that may be missing: a one-character avatar letter, a non-empty name, and counts 0, 0, 0 without a row |
| `Profile.InitialSpec` | src/pages/Profile.tsx:49 | the avatar letter is the upper-cased first character of a non-empty stored name, and "S" when the row, the name or its text is missing |
| `Profile.DisplayNameSpec` | src/pages/Profile.tsx:52 | the shown name is the stored name when non-empty, else "Student" |
| `Profile.CountsSpec` | src/pages/Profile.tsx:59-67 | points, reviews and streak each show the stored value, or 0 when the row or the value is missing |
| `Profile.MissingRowDefaults` | src/pages/Profile.tsx:26-32 | a missing row is not an error: the card shows "S", "Student", 0, 0, 0 |
| `Profile.ProfilePage.constructor` | src/pages/Profile.tsx:13 | the row starts as null and nothing has been done |
| `Profile.ProfilePage.UserResolved` | src/pages/Profile.tsx:19-24 | without a user: navigate to /auth and stop, no profile query; with one: query that user's row |
| `Profile.ProfilePage.ProfileFetched` | src/pages/Profile.tsx:26-32 | the held row becomes the answer, null when there is none |
| `Profile.ProfilePage.Logout` | src/pages/Profile.tsx:35-39 | sign-out, then the success toast, then navigation to /auth, in that order |
| `Profile.SignedOutVisit` | src/pages/Profile.tsx:19-67 | a visit without a user only navigates to /auth, and the card keeps every default |
| `Dashboard.StatsProps` | src/pages/Dashboard.tsx:119-124 | every widget prop is passed, so no default applies there, and the name passed is never empty |
| `Dashboard.RenderDashboard` | src/pages/Dashboard.tsx:83-124 | nothing renders exactly when there is no session; otherwise the service cards are the four declared ones and the widget shows a non-empty name and three counts |
| `Dashboard.RenderDashboardCases` | src/pages/Dashboard.tsx:13-99 | nothing renders without a session; with one, the four service cards come in declaration order: hostels, mess, tutors, transport |
| `Dashboard.SidebarAgreesWithProfilePage` | src/pages/Dashboard.tsx:119-124 | for any row, the sidebar widget shows the same avatar letter, name and counts as the profile page (src/pages/Profile.tsx:49-67) |
| `Dashboard.DashboardPage.constructor` | src/pages/Dashboard.tsx:46-47 | no session and no row at first |
| `Dashboard.DashboardPage.HandleSession` | src/pages/Dashboard.tsx:50-68 | on mount and on every auth change: store the session, then navigate to /auth without one, or fetch the row for the session's user id with one |
| `Dashboard.DashboardPage.ProfileFetched` | src/pages/Dashboard.tsx:73-81 | the held row becomes the answer, null when there is none |
| `Dashboard.SwitchUserThenSignOut` | src/pages/Dashboard.tsx:50-83 | signing in as one user, switching to another and signing out fetches each user's row in turn, then navigates to /auth and renders nothing |

## Left out

- The hosted service: `getSession`, `onAuthStateChange`, `getUser`, `signOut` and the `from(...).select/order/eq/single` queries. Their answers are method arguments, and the requests are entries in the effect log.
- The server's `order("name")`. The model does not sort. `CollegeMap.FilterKeepsOrder` shows that any order the rows arrive in survives the search.
- A failed profile query. It gives `data` null, exactly as a missing row does, so it is the `ProfileFetched(None)` case.
- Async interleavings: a fetch answering after unmount, or after a later auth change, and the release of the auth subscription on unmount. Each event is handled to completion, in the order the methods are called.
- React rendering, JSX, class names, icons, and how toasts are displayed. A view is the datatype of what a page shows: `MapView`, `ProfileCard`, `StatsView`, `DashboardView`.
- Rendering of each location card's floor, description and badge. Only the badge colour lookup (`BadgeColor`) is modelled.
- The "Get Directions" placeholder toast.
- Latitude, longitude and the time-stamp columns. No logic reads them.
- Unicode case mapping. Case mapping is ASCII-only.
- UTF-16 code units. `charAt(0)` of a string that starts with an astral character returns half a surrogate pair in JavaScript, but the first whole character here.
- Floating-point values. Service ratings are kept in tenths. The trending list's `(4.5 + i * 0.1).toFixed(1)` and the service card's `rating.toFixed(1)` are not modelled.
- NaN and fractional counts. Counts are integers, as in the database.
- Route dispatch in src/App.tsx and the not-found page. Path matching is done by the router library, which is not part of this model.
- `ColloHeader`, `ColloSidebar`, `ServiceCard` and the Reviews page. They are presentational only.
- The `services` and `reviews` tables and the `service_type` enum. No modelled page reads them.
