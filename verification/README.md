# Local Game: verified model of the screen logic

Local Game is a client-side prototype of a location-based sports app
(tennis courts and ping pong tables). Its screens run on hard-coded mock
data, and a few small pieces of real logic sit inside them. This project
models those pieces in Dafny and proves what they promise:

- **Explore** (`explore.dfy`): the venue catalog and the filter behind the
  map and list views. The filter has four checks: the sport chip, the
  live-only switch, the distance slider, and a case-insensitive search over
  a venue's name or area. The module also models the lookup of the venue in
  the details panel, the badge and label texts, and the screen state that
  the controls and venue clicks replace.
- **Notifications** (`notifications.dfy`): the unread counter, the
  "All" / "Requests" / "Activity" tabs with the unread-only switch, and the
  pill on each card.
- **Header** (`header.dfy`): the path decides whether the header is shown,
  which navigation item is highlighted, and whether search is offered.
- **Theme** (`theme.dfy`): the light/dark toggle. It covers the theme chosen
  on mount, the click, the `dark` class on the document root, and the saved
  choice in local storage.

Three support modules model the JavaScript built-ins the code relies on:

- `Filtering` (`filtering.dfy`): `Array.prototype.filter`, as `Keep`.
- `Strings` (`strings.dfy`): `startsWith`, `includes`, `toLowerCase` and `trim`.
- `Wrappers` (`wrappers.dfy`): an `Option` for `null` and `undefined`.

## Model choices

- Distances are whole tenths of a kilometre: 1.2 km is `12`. The slider
  gives whole kilometres `maxKm`. The check `distanceKm > maxKm[0]` becomes
  `distanceTenths > 10 * maxKm`, which is exact for the one-decimal distances
  used.
- The search needle is `toLowerCase(query)` without trimming. `trim()` only
  decides whether the text check applies at all: the code
  (app/explore/page.tsx:145-146) does not trim the needle, and the model
  follows the code. `UntrimmedNeedle` shows the
  difference.
- The selected venue is looked up in the full catalog, not in the filtered
  list. It can therefore be a venue that is filtered out
  (`SelectionMayBeFilteredOut`). The code has no sorting stage and no
  "not found" error, and neither does the model.
- An absent `unread` flag on a notification is `false`.
- Browser inputs are parameters or fields:
  - `usePathname()` is the argument of `Classify`.
  - `matchMedia(...).matches` is the `prefersDark` argument of `Mount`.
  - `document.documentElement.classList` is the `classes` field.
  - `localStorage` is the `storage` field.

## Model

| member | source | states |
|---|---|---|
| `Strings.IncludesAt` | app/explore/page.tsx:148 | any occurrence of the needle at a position of the text makes `includes` true |
| `Strings.IncludesWitness` | app/explore/page.tsx:148 | when `includes` is true, the needle occurs at some position of the text |
| `Strings.NotIncludes` | app/explore/page.tsx:148 | the needle is absent when its first character is missing from a prefix that leaves too little room after it |
| `Strings.LowerChar` | app/explore/page.tsx:146 | an upper-case ASCII letter becomes its lower-case letter (32 code points on); every other character is unchanged |
| `Strings.ToLower` | app/explore/page.tsx:146-148 | same length as the input, each character lower-cased on its own |
| `Strings.ToLowerIdempotent` | app/explore/page.tsx:146-148 | lower-casing twice is lower-casing once |
| `Strings.TrimStart` | app/explore/page.tsx:145 | the result is a suffix of the input, only white space was dropped, and it does not start with white space |
| `Strings.TrimEnd` | app/explore/page.tsx:145 | the result is a prefix of the input, only white space was dropped, and it does not end with white space |
| `Strings.TrimEmptyIff` | app/explore/page.tsx:145 | `trim()` is empty exactly when every character is white space |
| `Filtering.Keep` | app/explore/page.tsx:141 | the result is no longer than the input and holds only accepted input elements |
| `Filtering.KeepIndices` | app/explore/page.tsx:141-153 | the result is exactly the input's accepted elements, at strictly increasing positions |
| `Filtering.KeepComplete` | app/explore/page.tsx:141-153 | no accepted element is dropped |
| `Filtering.KeepAppend` | app/notifications/page.tsx:112 | filtering distributes over concatenation |
| `Filtering.KeepAll` | app/notifications/page.tsx:123-141 | when every element is accepted, the result is the whole input |
| `Filtering.KeepNone` | app/explore/page.tsx:141-153 | when no element is accepted, the result is empty |
| `Filtering.KeepCongruent` | app/notifications/page.tsx:124-140 | callbacks that agree on every element give the same result |
| `Filtering.KeepThenKeep` | app/notifications/page.tsx:126-137 | filtering by one callback and then another equals filtering once by their conjunction |
| `Filtering.KeepSplit` | app/notifications/page.tsx:128-139 | two disjoint callbacks that cover a third give results whose lengths add up to its result's length |
| `Explore.FilterSound` | app/explore/page.tsx:141-153 | every shown venue is in the catalog and has the chosen sport, is live under live-only, is within the slider distance, and matches the untrimmed needle when the trimmed query is non-empty |
| `Explore.FilterComplete` | app/explore/page.tsx:141-153 | a venue is shown if and only if it is in the catalog and passes all four checks |
| `Explore.FilterOrder` | app/explore/page.tsx:141-153 | the shown venues are the passing catalog venues, in catalog order |
| `Explore.BlankQueryMatchesAll` | app/explore/page.tsx:145 | an all-white-space query applies no text check |
| `Explore.FilterIdentity` | app/explore/page.tsx:141-153 | with every sport, live-only off, a slider at least every distance and a blank query, the whole catalog is shown in order |
| `Explore.CaseInsensitiveQuery` | app/explore/page.tsx:145-148 | two queries that lower-case alike match exactly the same venues: the search ignores case |
| `Explore.BareWordMatches` | app/explore/page.tsx:145-151 | the query "Courts" matches High Park Courts |
| `Explore.UntrimmedNeedle` | app/explore/page.tsx:145-151 | the query "Courts " is not blank, yet it no longer matches High Park Courts, because the needle is not trimmed |
| `Explore.Find` | app/explore/page.tsx:139 | returns a catalog venue with the id, and returns nothing exactly when no catalog venue has that id |
| `Explore.FindFirst` | app/explore/page.tsx:139 | the venue found is the first catalog venue with that id |
| `Explore.Selected` | app/explore/page.tsx:138-139 | the catalog venue with the selected id when there is one; otherwise the first catalog venue |
| `Explore.SelectionMayBeFilteredOut` | app/explore/page.tsx:136-153 | the selected venue (initially "v1") stays in the panel after the Ping Pong chip removes it from the list |
| `Explore.StatusLabelInjective` | app/explore/page.tsx:402-406 | the status texts are "Live now", "Busy" and "Quiet", and no two statuses share one |
| `Explore.LabelsDistinguish` | app/explore/page.tsx:571-598 | each status has its own badge style, and each sport its own label and mode text |
| `Explore.TennisWithinSix` | app/explore/page.tsx:55-153 | Tennis, blank query, 6 km or more: the four tennis venues pass and the two ping pong venues do not |
| `Explore.LiveWithinSix` | app/explore/page.tsx:55-153 | live-only, blank query, 3 km or more: exactly the two live venues pass |
| `Explore.WithinThree` | app/explore/page.tsx:55-153 | 3 km, blank query: exactly Trinity Bellwoods (1.2 km) and Harbourfront (2.6 km) pass |
| `Explore.NothingWithinOne` | app/explore/page.tsx:55-153 | live ping pong within 1 km shows nothing |
| `Explore.ExploreScreen.constructor` | app/explore/page.tsx:131-139 | empty query, every sport, live-only off, 6 km, "v1" selected and shown in the panel |
| `Explore.ExploreScreen.SetQuery` | app/explore/page.tsx:226 | replaces the query only; the panel venue is unchanged |
| `Explore.ExploreScreen.SetSport` | app/explore/page.tsx:258-275 | replaces the sport chip only; the panel venue is unchanged |
| `Explore.ExploreScreen.SetLiveOnly` | app/explore/page.tsx:287 | replaces the live-only switch only; the panel venue is unchanged |
| `Explore.ExploreScreen.SetMaxKm` | app/explore/page.tsx:295-299 | replaces the slider value only; the panel venue is unchanged |
| `Explore.ExploreScreen.Select` | app/explore/page.tsx:330-358 | replaces the selected id only; the list is unchanged, and a catalog id puts that venue in the panel |
| `Notifications.UnreadCountIsNumberUnread` | app/notifications/page.tsx:112 | the counter equals the number of inbox positions holding an unread notification |
| `Notifications.MockUnreadCount` | app/notifications/page.tsx:55-112 | the mock inbox shows 2 unread |
| `Notifications.NotificationsScreen.constructor` | app/notifications/page.tsx:110 | the fixed inbox, with the unread-only switch off |
| `Notifications.NotificationsScreen.SetOnlyUnread` | app/notifications/page.tsx:216 | replaces the switch only |
| `Notifications.NotificationsScreen.Filtered` | app/notifications/page.tsx:123-141 | the copy narrowed step by step equals the one-pass inbox view for the switch and tab |
| `Notifications.TwoStages` | app/notifications/page.tsx:124-140 | the unread filter followed by the tab filter equals the one-pass view |
| `Notifications.InboxOrder` | app/notifications/page.tsx:123-141 | a tab lists exactly the notifications passing both conditions, in inbox order |
| `Notifications.InboxSound` | app/notifications/page.tsx:126-139 | with the switch on, every listed card is unread; "Requests" lists only match_confirm/challenge; "Activity" lists only checkin/system/message |
| `Notifications.AllIsWholeInbox` | app/notifications/page.tsx:123-141 | "All" with the switch off lists the whole inbox, in order |
| `Notifications.TabsPartitionAll` | app/notifications/page.tsx:128-139 | every card of "All" is on exactly one of "Requests" and "Activity", and their lengths add up to "All" |
| `Notifications.PillHighlightsRequests` | app/notifications/page.tsx:331-340 | only match_confirm and challenge get the secondary pill, and no two types share a pill text |
| `Header.HiddenIff` | components/header/conditional-header.tsx:6-11 | the header is hidden exactly for a missing or empty path and for "/", "/login" and "/signup" |
| `Header.ShownView` | components/header/conditional-header.tsx:13-20 | on a shown header: "explore" iff the path starts with "/explore"; "profile" iff it starts with "/profile" and not "/explore"; "home" otherwise; search iff it starts with "/explore" or "/home" |
| `Header.ExplorePrefix` | components/header/conditional-header.tsx:13-20 | every path beginning with "/explore" is an Explore page with search |
| `Header.Examples` | components/header/conditional-header.tsx:11-20 | "/explore/v1" and "/explorer" are Explore with search, "/notifications" is Home without search, "/home" is Home with search, "/profile" is Profile without search |
| `Theme.ParseStored` | components/ui/theme-toggle.tsx:25 | a saved string reads as dark exactly when it is "dark" |
| `Theme.ParseThemeName` | components/ui/theme-toggle.tsx:53 | reading back a saved theme gives that theme |
| `Theme.StoredTheme` | components/ui/theme-toggle.tsx:25 | a saved theme is present exactly when the storage key is set, and it is the stored string read as a theme |
| `Theme.InitialTheme` | components/ui/theme-toggle.tsx:24-29 | the saved theme when present; otherwise dark exactly when the system prefers dark |
| `Theme.NextTheme` | components/ui/theme-toggle.tsx:44 | the next theme is the other theme |
| `Theme.NextThemeInvolution` | components/ui/theme-toggle.tsx:44 | toggling twice returns the original theme |
| `Theme.IconFor` | components/ui/theme-toggle.tsx:35-43 | the sun before mounting; afterwards the sun exactly when the theme is dark |
| `Theme.WithTheme` | components/ui/theme-toggle.tsx:11-18 | "dark" is present exactly for the dark theme, and every other class is unchanged |
| `Theme.WithThemeIdempotent` | components/ui/theme-toggle.tsx:13-17 | applying a theme twice is applying it once |
| `Theme.ThemeToggle.constructor` | components/ui/theme-toggle.tsx:21-22 | light and not mounted; the page's classes and storage are untouched |
| `Theme.ThemeToggle.ApplyTheme` | components/ui/theme-toggle.tsx:11-18 | the class set becomes the old set with "dark" added for dark or removed for light |
| `Theme.ThemeToggle.Mount` | components/ui/theme-toggle.tsx:24-33 | the theme becomes the initial theme and is applied; the button is mounted; theme, class and saved value agree |
| `Theme.ThemeToggle.Click` | components/ui/theme-toggle.tsx:51-55 | the theme becomes the next theme, is saved under the storage key and is applied; theme, class and saved value agree afterwards |

## Left out

- Rendering: all JSX layout, CSS class strings, icons on notification
  cards, framer-motion animation, and the map/list `view` switch.
- The decorative background. Its pin placements use `Math.random`, so they
  are non-deterministic and floating point.
- The static screens (landing, home, login, auth card, venue detail) and
  the profile editor. They hold fixed data and form bindings with no logic.
- `components/header/header.tsx`. It only picks a button style from
  `active`, which `Classify` decides.
- The `venue` and `cta` fields of a notification. No logic reads them.
- Full Unicode case mapping. `toLowerCase` is modelled on ASCII letters only.
- Bounds the code never checks: the 0..12 range of the slider, and the
  vibe and map coordinate ranges of a venue.
- `Explore.Selected`: for an empty catalog the code would read `undefined`;
  the model returns `None`. The catalog is never empty in the code.
- `Theme.ParseStored`: the code keeps an unvalidated saved string as the
  theme. The model reads every string other than "dark" as `Light`. The
  component treats such strings exactly as it treats "light".
- `Explore.TennisWithinSix`, `Explore.LiveWithinSix`, `Explore.WithinThree`:
  these give each catalog venue's pass or fail, not the filtered list
  itself. The list then follows from `Explore.FilterOrder`.
- Changes that code outside the component makes to the root's classes or to
  local storage.
