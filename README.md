# dashboard-grid, modelled in Dafny

dashboard-grid is a React dashboard. Its widgets sit on a six-column grid inside a
bounded container, and the user moves them, resizes them, hides them and pages
through them. One zustand store, `useGridStore`, is the single source of truth
for the widget list. GridStack writes positions into `data-gs-*` attributes on
the DOM, and the store reads them back from there. Six widget components turn
their `data` into views. A mock user repository stands behind the login page.

This project models the data logic of that core, one Dafny module per source file:

- `GridStore` (`grid_store.dfy`): the store.
  - The widget record, and the seed list that the store starts with and restores.
  - Each action as a function on the widget list or the page map: update, move,
    remove, toggle, drag flag, page map, DOM sync.
  - The `positionUpdates` loop of `syncPositionsFromDOM` as a method with invariants.
  - The hydration `hasChanges` test.
  - The class `Store`, whose fields the actions replace in place.
- `Validators` (`validators.dfy`): `isValidPosition`, `isValidWidgetId` and
  `sanitizePosition`, on JavaScript numbers.
  - `JsNumbers` (`js_numbers.dfy`) gives those numbers NaN, ±Infinity and finite reals.
  - It also gives them `Math.floor`, `Math.max` and `||`.
- `WidgetConstants` (`widget_constants.dfy`): the grid, container, pagination and
  storage constants, and the five default rectangles.
- `GridWidget` (`grid_widget.dfy`): the effect that copies a widget's rectangle into
  the element's attributes.
  - The element is a class holding the four attributes and a count of `setAttribute` calls.
  - Also the render guard for hidden widgets and the `WidgetContent` type switch.
  - `Decimal` (`decimal.dfy`) supplies integer `toString()` and the digits `parseInt` reads back.
- `UserTableWidget`: page count, page clamping, the shown slice, prev/next requests,
  the footer range and the empty-data branches.
- `UserLocationsWidget`: the `reduce` total, the stable descending sort, the colour
  cycle, the flag table and the summary box.
- `UserGrowthWidget`: the last-six-months slice, three-letter labels, the peak,
  "this month" and the growth badge.
- `UserActivityWidget`: the ordered, case-sensitive keyword classification and the
  empty state.
- `CustomWidget`: icon and theme defaults, the camelCase metric label and which
  sections are shown.
- `MockUserRepository`: the shared user table and password map.
  - A first-match lookup.
  - `create`, which appends with the next id, on a class.
  - `authenticate`.

The validators work on the full JavaScript number type, because NaN and
infinities are exactly what they are there to handle.

Where the code and the project's own description of the system disagree, the model
follows the code:

- No routine clamps a rectangle to the 6 × 40 container. `updateWidgetPosition`
  stores what it is given (`MoveStoresUnclamped`).
- `restoreAllWidgets` replaces the whole list with the seed. Removed widgets come
  back, and so do the seed positions and visibility. It does more than show the
  hidden widgets.
- `toggleWidgetVisibility` reads no position from the DOM. It flips `visible` and
  nothing else.
- `resetToDefaults` is declared among the store's types but never implemented, so
  it has no model.

## Model

| member | source | states |
|---|---|---|
| GridStore.SeedMatchesDefaults | src/presentation/stores/gridStore.ts:48-509 | the seed list holds the five default ids in numbering order. Each is visible, at its `WIDGET_DEFAULTS` rectangle, and no id repeats. The persist key is `STORAGE_KEYS.GRID_STORAGE` |
| GridStore.ApplyPatch | src/presentation/stores/gridStore.ts:543 | `{ ...widget, ...updates }`: every field present in the update takes the update's value, and every absent one keeps the widget's |
| GridStore.PatchWidgets | src/presentation/stores/gridStore.ts:539-546 | `updateWidget`: same length, widgets with the id take the patch, all others are unchanged |
| GridStore.PatchWidgetsNeutralAndIdempotent | src/presentation/stores/gridStore.ts:539-546 | an empty update changes nothing, and an update that does not touch `id` applied twice equals applied once |
| GridStore.MoveWidgets | src/presentation/stores/gridStore.ts:548-554 | `updateWidgetPosition`: matching widgets get exactly the given x, y, w, h. Every other field and every other widget is unchanged |
| GridStore.MoveIsPositionPatch | src/presentation/stores/gridStore.ts:539-554 | moving is `updateWidget` with a patch of only the four position fields |
| GridStore.MoveUnknownId | src/presentation/stores/gridStore.ts:548-554 | an id no widget has leaves the list unchanged |
| GridStore.MoveStoresUnclamped | src/presentation/stores/gridStore.ts:548-554 | a rectangle reaching past the 6 × 40 container (x + w = 9, y + h = 42) is stored as given |
| GridStore.RemoveById | src/presentation/stores/gridStore.ts:583-588 | `removeWidget`: no survivor has the id, the list does not grow, and an absent id changes nothing |
| GridStore.RemoveByIdMembers | src/presentation/stores/gridStore.ts:586 | a widget survives iff it was in the list and its id differs |
| GridStore.RemoveByIdAppend | src/presentation/stores/gridStore.ts:586 | filtering distributes over concatenation, so survivors keep their relative order |
| GridStore.RemoveByIdIdempotent | src/presentation/stores/gridStore.ts:583-588 | removing twice equals removing once |
| GridStore.ToggleVisibility | src/presentation/stores/gridStore.ts:590-597 | same length, only `visible` can change, and it flips exactly for widgets with the id |
| GridStore.ToggleTwice | src/presentation/stores/gridStore.ts:590-597 | toggling twice gives back the original list |
| GridStore.DraggedId | src/presentation/stores/gridStore.ts:603 | `widgetId \|\| null`: null iff the id is omitted or empty, else the id itself |
| GridStore.SetPage | src/presentation/stores/gridStore.ts:611-618 | `setWidgetPage`: the key set gains the id, the id maps to the page, and every other entry is unchanged |
| GridStore.PageOf | src/presentation/stores/gridStore.ts:620-622 | `getWidgetPage`: never 0. It is the stored page when that is non-zero, else `PAGINATION.DEFAULT_PAGE` (1) |
| GridStore.PageAfterSetPage | src/presentation/stores/gridStore.ts:611-622 | reading back a just-set page gives it (1 if it was 0), and other ids read as before |
| GridStore.CollectPositionUpdates | src/presentation/stores/gridStore.ts:631-651 | the `forEach` loop builds exactly the dictionary `PositionUpdates` of the element snapshot |
| GridStore.PositionUpdatesKeys | src/presentation/stores/gridStore.ts:635-651 | an id has an entry iff some element carries it as a non-empty `data-gs-id` |
| GridStore.PositionUpdatesLastWins | src/presentation/stores/gridStore.ts:635-651 | for an id on several elements, the entry is the last element's rectangle, with missing x/y read as 0 and missing w/h as 1 |
| GridStore.SyncWidget | src/presentation/stores/gridStore.ts:654-672 | one widget of the sync map: it takes its entry's rectangle if it has one, changes nothing else, and is untouched without one |
| GridStore.MergeDomPositions | src/presentation/stores/gridStore.ts:653-674 | the synced list has the same length and order. Widgets with an entry take its x, y, w, h; others are unchanged |
| GridStore.MergeDomPositionsIdempotent | src/presentation/stores/gridStore.ts:624-676 | a second sync against the same DOM changes nothing |
| GridStore.SyncTakesLastElement | src/presentation/stores/gridStore.ts:635-674 | a widget ends at the rectangle of the last element naming it |
| GridStore.SyncKeepsUnnamed | src/presentation/stores/gridStore.ts:653-674 | a widget no element names keeps its position |
| GridStore.LoadedList | src/presentation/stores/gridStore.ts:713-720 | the loaded view keeps each widget's id, x, y, w, h and visibility, in order |
| GridStore.FindById | src/presentation/stores/gridStore.ts:725-727 | `find`: none iff no widget has the id, else a widget of the list with that id |
| GridStore.AnyChanged | src/presentation/stores/gridStore.ts:724-736 | `some`: true iff a loaded widget has a seed counterpart that differs in x, y, w, h or visibility |
| GridStore.HasChanges | src/presentation/stores/gridStore.ts:713-736 | `hasChanges`: false without a widget list, else `AnyChanged` |
| GridStore.NoChangesAgainstItself | src/presentation/stores/gridStore.ts:724-736 | a list with distinct ids, hydrated against itself, reports no change |
| GridStore.HidingIsAChange | src/presentation/stores/gridStore.ts:724-736 | hiding a seed widget is reported as a change on the next hydration |
| GridStore.Store.constructor | src/presentation/stores/gridStore.ts:528-532 | the store starts with the seed list, no drag, no dragged id and an empty page map |
| GridStore.Store.SetWidgets | src/presentation/stores/gridStore.ts:534-537 | the list becomes the given one, and the other fields stay |
| GridStore.Store.UpdateWidget | src/presentation/stores/gridStore.ts:539-546 | the list becomes `PatchWidgets` of the old one, and the other fields stay |
| GridStore.Store.UpdateWidgetPosition | src/presentation/stores/gridStore.ts:548-554 | the list becomes `MoveWidgets` of the old one, and the other fields stay |
| GridStore.Store.RemoveWidget | src/presentation/stores/gridStore.ts:583-588 | the list becomes `RemoveById` of the old one, and the other fields stay |
| GridStore.Store.ToggleWidgetVisibility | src/presentation/stores/gridStore.ts:590-597 | the list becomes `ToggleVisibility` of the old one, and the other fields stay |
| GridStore.Store.SetDragging | src/presentation/stores/gridStore.ts:599-604 | sets the drag flag and `DraggedId` of the given id, and leaves the widget list and pages alone |
| GridStore.Store.RestoreAllWidgets | src/presentation/stores/gridStore.ts:606-609 | the list becomes the whole seed list, and the other fields stay |
| GridStore.Store.SetWidgetPage | src/presentation/stores/gridStore.ts:611-618 | the page map becomes `SetPage` of the old one, and the other fields stay |
| GridStore.Store.GetWidgetPage | src/presentation/stores/gridStore.ts:620-622 | the page is never 0 and is `PageOf` the current map |
| GridStore.Store.SyncPositionsFromDOM | src/presentation/stores/gridStore.ts:624-676 | the list becomes the old one merged with the snapshot's position updates, and the other fields stay |
| GridStore.Store.SaveCurrentLayout | src/presentation/stores/gridStore.ts:678-701 | the same effect as one DOM sync |
| GridStore.SaveTwice | src/presentation/stores/gridStore.ts:678-701 | saving twice against the same DOM leaves the list of one save |
| Validators.IsValidPosition | src/shared/utils/utils.ts:36-51 | true iff x, y ≥ 0, w, h > 0 and none is NaN. Fractions and +Infinity pass |
| Validators.IsValidWidgetId | src/shared/utils/utils.ts:53-55 | true iff the id is a string and non-empty |
| Validators.SanitizeComponent | src/shared/utils/utils.ts:59-62 | `Math.max(fb, Math.floor(v) \|\| fb)` is never NaN, is whole and is ≥ fb. NaN and -Infinity give fb, +Infinity stays, a finite v gives max(fb, ⌊v⌋) |
| Validators.SanitizePosition | src/shared/utils/utils.ts:57-64 | the result passes `isValidPosition`, has w, h ≥ 1 and is whole in every field |
| Validators.SanitizeAllNaN | src/shared/utils/utils.ts:59-62 | all-NaN input gives (0, 0, 1, 1) |
| Validators.SanitizeSubUnitSize | src/shared/utils/utils.ts:61-62 | a width or height in (0, 1) floors to 0 and becomes 1 |
| Validators.SanitizeNegativeCoordinate | src/shared/utils/utils.ts:59-60 | a negative x or y becomes 0 |
| Validators.SanitizeComponentFixes | src/shared/utils/utils.ts:59-62 | a whole field at or above its fallback is kept |
| Validators.SanitizeFixesWholeValid | src/shared/utils/utils.ts:36-64 | a valid position with whole fields is its own sanitization |
| Validators.SanitizeIdentityOnIntegers | src/shared/utils/utils.ts:57-64 | integers with x, y ≥ 0 and w, h ≥ 1 come back unchanged |
| Validators.SanitizeIdempotent | src/shared/utils/utils.ts:57-64 | sanitizing twice equals sanitizing once |
| Validators.ValidYetNotSanitized | src/shared/utils/utils.ts:36-64 | (+Infinity, 2.5, 0.5, 1) passes `isValidPosition`, yet sanitizing changes it |
| JsNumbers.Floor | src/shared/utils/utils.ts:59-62 | `Math.floor`: NaN iff NaN, a finite value goes to the whole number within 1 below it, infinities stay |
| JsNumbers.Max | src/shared/utils/utils.ts:59-62 | `Math.max`: NaN iff an argument is NaN, else one of the two and at least both |
| JsNumbers.Or | src/shared/utils/utils.ts:59-62 | `a \|\| b` is truthy or is `b` |
| WidgetConstants.GridMatchesContainer | src/shared/constants/widget.constants.ts:2-17 | `GRID.COLUMNS` = `MIN_WIDTH` = `MAX_WIDTH` = 6, `MIN_HEIGHT` ≤ `MAX_HEIGHT` = 40, and containment is on |
| WidgetConstants.DefaultIdsAreKeys | src/shared/constants/widget.constants.ts:29-37 | the default rectangles are keyed by exactly the five distinct default ids |
| WidgetConstants.DefaultsInContainer | src/shared/constants/widget.constants.ts:8-37 | every default rectangle has x + w ≤ 6 and y + h ≤ 40 |
| WidgetConstants.DefaultsDisjoint | src/shared/constants/widget.constants.ts:31-35 | no two default rectangles share a cell |
| WidgetConstants.WidgetNumbersMatchDefaults | src/shared/constants/widget.constants.ts:39-45 | `WIDGET_NUMBERS` has the default ids as keys, and maps "widget-i" to i |
| Decimal.NatToString | src/presentation/components/grid/GridWidget.tsx:110-118 | the digits of a natural number: at least one, all decimal digits, no leading zero |
| Decimal.IntToString | src/presentation/components/grid/GridWidget.tsx:110-118 | `toString()` of an integer: non-empty, starting with '-' iff negative |
| Decimal.DigitsValueOfNatToString | src/presentation/stores/gridStore.ts:638-641 | `parseInt` of the digits `toString` writes gives the number back |
| Decimal.NatToStringInjective | src/infrastructure/repositories/MockUserRepository.ts:44 | different counts give different id strings |
| Decimal.IntToStringInjective | src/presentation/components/grid/GridWidget.tsx:109-114 | different integers give different attribute strings |
| GridWidget.AfterSync | src/presentation/components/grid/GridWidget.tsx:96-121 | while dragging the attributes stay as they are. Otherwise they end equal to the widget's x, y, w, h strings |
| GridWidget.AfterSyncIdempotent | src/presentation/components/grid/GridWidget.tsx:96-121 | running the effect twice equals running it once, and the second run writes nothing |
| GridWidget.AttributesDetermineRect | src/presentation/components/grid/GridWidget.tsx:109-118 | equal attribute strings mean equal rectangles, so "nothing to write" means "already in place" |
| GridWidget.GridItemElement.constructor | src/presentation/components/grid/GridWidget.tsx:129-136 | an element starts with the given attributes and no `setAttribute` calls |
| GridWidget.GridItemElement.SetX | src/presentation/components/grid/GridWidget.tsx:115 | sets `data-gs-x` only, and counts one call |
| GridWidget.GridItemElement.SetY | src/presentation/components/grid/GridWidget.tsx:116 | sets `data-gs-y` only, and counts one call |
| GridWidget.GridItemElement.SetW | src/presentation/components/grid/GridWidget.tsx:117 | sets `data-gs-w` only, and counts one call |
| GridWidget.GridItemElement.SetH | src/presentation/components/grid/GridWidget.tsx:118 | sets `data-gs-h` only, and counts one call |
| GridWidget.SyncAttributesEffect | src/presentation/components/grid/GridWidget.tsx:96-121 | with an element, the attributes become `AfterSync` of the old ones. Exactly four `setAttribute` calls happen when not dragging and some attribute differs, and none otherwise. Without an element nothing happens |
| GridWidget.Render | src/presentation/components/grid/GridWidget.tsx:124-196 | nothing is rendered iff hidden in view mode. Anything rendered has display block, is dimmed and overlaid iff hidden, and shows the eye button and edit badge iff in edit mode. The eye button hands over the widget's own id, and shows the open eye iff the widget is visible |
| GridWidget.ContentCaseOf | src/presentation/components/grid/GridWidget.tsx:12-85 | a type has its own case iff it is analytics, revenue, activity, orders or stats |
| GridWidget.StoreTypesTakeDefault | src/presentation/components/grid/GridWidget.tsx:12-85 | none of the store's six types has a case, so every store widget takes the default branch |
| GridWidget.DefaultContentText | src/presentation/components/grid/GridWidget.tsx:80 | the default text is never empty, and is the message when one is set |
| UserTableWidget.TotalPages | src/presentation/components/grid/widgets/UserTableWidget.tsx:43-44 | at least 1, the pages hold all n rows, and more than one page only when the earlier pages are full |
| UserTableWidget.ValidPage | src/presentation/components/grid/widgets/UserTableWidget.tsx:47 | the page lies in [1, total]. It equals the request when that is in range, is 1 below and the total above |
| UserTableWidget.PageRows | src/presentation/components/grid/widgets/UserTableWidget.tsx:49-51 | the rows are `users[start .. min(start+5, n))`, at most 5, and non-empty with start < n when n > 0 |
| UserTableWidget.FirstPagesPrefix | src/presentation/components/grid/widgets/UserTableWidget.tsx:44-51 | pages 1 to p, concatenated, are the first min(5p, n) users |
| UserTableWidget.PagesCoverUsers | src/presentation/components/grid/widgets/UserTableWidget.tsx:44-51 | all pages concatenated are exactly the user list |
| UserTableWidget.PrevPageRequest | src/presentation/components/grid/widgets/UserTableWidget.tsx:53-58 | a request is made iff not on page 1, and it is for page − 1, in range |
| UserTableWidget.NextPageRequest | src/presentation/components/grid/widgets/UserTableWidget.tsx:60-65 | a request is made iff not on the last page, and it is for page + 1, in range |
| UserTableWidget.FooterOf | src/presentation/components/grid/widgets/UserTableWidget.tsx:111-140 | the footer shows iff there is more than one page. Then 1 ≤ first ≤ last ≤ total = n, and "first-last" is exactly the range of the shown rows. The counter shows the clamped page out of the page count, and each arrow is disabled iff its handler would request nothing |
| UserTableWidget.View | src/presentation/components/grid/widgets/UserTableWidget.tsx:31-106 | "no data" iff `users` is missing, "no users" iff it is empty. Otherwise one row per shown user, in order, and the footer of the page |
| UserTableWidget.TypeStylesDistinct | src/presentation/components/grid/widgets/UserTableWidget.tsx:15-22 | the three plans get three different badge styles |
| UserTableWidget.MissingTypeIsBasico | src/presentation/components/grid/widgets/UserTableWidget.tsx:99-102 | a user without a type is shown as "Básico" |
| UserLocationsWidget.SumFromIsSum | src/presentation/components/grid/widgets/UserLocationsWidget.tsx:49 | the left fold from an accumulator is the accumulator plus the sum |
| UserLocationsWidget.TotalUsersIsSum | src/presentation/components/grid/widgets/UserLocationsWidget.tsx:49 | `totalUsers` is the sum of the users of all locations |
| UserLocationsWidget.SumAppend | src/presentation/components/grid/widgets/UserLocationsWidget.tsx:49 | the sum of a concatenation is the sum of the parts |
| UserLocationsWidget.Insert | src/presentation/components/grid/widgets/UserLocationsWidget.tsx:50 | inserting adds exactly one location to the multiset |
| UserLocationsWidget.InsertSorted | src/presentation/components/grid/widgets/UserLocationsWidget.tsx:50 | inserting into a non-increasing list keeps it non-increasing |
| UserLocationsWidget.SortByUsers | src/presentation/components/grid/widgets/UserLocationsWidget.tsx:50 | the sorted copy is a permutation of the input, non-increasing in users |
| UserLocationsWidget.WithUsersAppend | src/presentation/components/grid/widgets/UserLocationsWidget.tsx:50 | the locations with a given user count, taken from a concatenation, come from each part in turn |
| UserLocationsWidget.WithUsersInsert | src/presentation/components/grid/widgets/UserLocationsWidget.tsx:50 | insertion puts the new location in front of every equal one already there |
| UserLocationsWidget.SortIsStable | src/presentation/components/grid/widgets/UserLocationsWidget.tsx:50 | locations with equal users keep their input order, as a stable `sort` promises |
| UserLocationsWidget.SumOfPermutation | src/presentation/components/grid/widgets/UserLocationsWidget.tsx:49-50 | permutations have equal sums |
| UserLocationsWidget.SortKeepsTotal | src/presentation/components/grid/widgets/UserLocationsWidget.tsx:49-50 | the sorted list has the same total |
| UserLocationsWidget.ColorAt | src/presentation/components/grid/widgets/UserLocationsWidget.tsx:52-77 | the colour is one of the eight, and row i < 8 gets colour i |
| UserLocationsWidget.ColorCycle | src/presentation/components/grid/widgets/UserLocationsWidget.tsx:77 | rows eight apart share a colour |
| UserLocationsWidget.CountryFlag | src/presentation/components/grid/widgets/UserLocationsWidget.tsx:11-28 | a listed country gets its flag, any other name the globe |
| UserLocationsWidget.EmptyCountryGetsGlobe | src/presentation/components/grid/widgets/UserLocationsWidget.tsx:125 | the empty name used for an empty list gets the globe |
| UserLocationsWidget.Rows | src/presentation/components/grid/widgets/UserLocationsWidget.tsx:76-107 | one row per location, in sorted order, each with its country, users, percentage, flag and colour, and users non-increasing down the list |
| UserLocationsWidget.SummaryOf | src/presentation/components/grid/widgets/UserLocationsWidget.tsx:117-127 | the country count is the list length. With no location: the globe and 0%. Otherwise the flag and percentage of the earliest location with the most users: every location before it has fewer |
| UserLocationsWidget.TopIsLargest | src/presentation/components/grid/widgets/UserLocationsWidget.tsx:50 | the first sorted location is an input location with at least the users of every other |
| UserLocationsWidget.EarliestLargest | src/presentation/components/grid/widgets/UserLocationsWidget.tsx:50 | the stable sort puts first the earliest input location with the most users |
| UserLocationsWidget.TopIsEarliestLargest | src/presentation/components/grid/widgets/UserLocationsWidget.tsx:50 | some input location is the first sorted one, has the most users, and every location before it has fewer |
| UserGrowthWidget.RecentMonths | src/presentation/components/grid/widgets/UserGrowthWidget.tsx:40 | `slice(-6)`: the last min(6, n) months, in order, as a suffix of the list |
| UserGrowthWidget.MonthLabel | src/presentation/components/grid/widgets/UserGrowthWidget.tsx:26 | the label is a prefix of the month name of length min(3, length) |
| UserGrowthWidget.MaxUsers | src/presentation/components/grid/widgets/UserGrowthWidget.tsx:84 | there is a peak iff the list is non-empty |
| UserGrowthWidget.MaxUsersIsPeak | src/presentation/components/grid/widgets/UserGrowthWidget.tsx:84 | the peak is ≥ every month's users and equals one of them |
| UserGrowthWidget.MaxUsersIs | src/presentation/components/grid/widgets/UserGrowthWidget.tsx:84 | a value that bounds every month and is reached by one is the peak |
| UserGrowthWidget.ChartOf | src/presentation/components/grid/widgets/UserGrowthWidget.tsx:11-31 | one bar per recent month with its three-letter label. The scale is the maximum over the recent months only, present iff there are months, and no bar exceeds it |
| UserGrowthWidget.ChartScaleAtMostPeak | src/presentation/components/grid/widgets/UserGrowthWidget.tsx:78-84 | the chart's scale never exceeds the overall peak |
| UserGrowthWidget.ChartScaleCanBeBelowPeak | src/presentation/components/grid/widgets/UserGrowthWidget.tsx:78-84 | with seven months where the oldest is the largest, the chart's scale (6) is below the peak (900) |
| UserGrowthWidget.ThisMonth | src/presentation/components/grid/widgets/UserGrowthWidget.tsx:67-68 | 0 for no months. Otherwise the last month's users, which is the chart's last bar and never above the peak |
| UserGrowthWidget.GrowthBadgeOf | src/presentation/components/grid/widgets/UserGrowthWidget.tsx:39-59 | icon, "+" sign and green colour go together, and are on iff the percentage is ≥ 0 (+Infinity included, NaN excluded) |
| UserActivityWidget.ActivityIconFollowsTable | src/presentation/components/grid/widgets/UserActivityWidget.tsx:10-16 | the `if` chain equals reading the keyword table group by group, first match first |
| UserActivityWidget.PersonIffNoKeyword | src/presentation/components/grid/widgets/UserActivityWidget.tsx:10-16 | 👤 iff none of the eight keywords occurs in the action |
| UserActivityWidget.EarliestGroupWins | src/presentation/components/grid/widgets/UserActivityWidget.tsx:11-12 | "login compra" contains "compra" yet gets 🔐 |
| UserActivityWidget.PurchaseLacksKeywords | src/presentation/components/grid/widgets/UserActivityWidget.tsx:10-16 | none of the eight keywords occurs in the seeded "Compra realizada" |
| UserActivityWidget.ProfileLacksKeywords | src/presentation/components/grid/widgets/UserActivityWidget.tsx:10-16 | none of the eight keywords occurs in the seeded "Actualización de perfil" |
| UserActivityWidget.CapitalisedPurchaseIsPerson | src/presentation/components/grid/widgets/UserActivityWidget.tsx:10-16 | the seeded "Compra realizada" gets 👤: matching is case-sensitive |
| UserActivityWidget.CapitalisedUpdateIsPerson | src/presentation/components/grid/widgets/UserActivityWidget.tsx:10-16 | the seeded "Actualización de perfil" gets 👤 |
| UserActivityWidget.View | src/presentation/components/grid/widgets/UserActivityWidget.tsx:28-61 | one row per activity, in order, with its icon, user, action and time text. The empty state shows iff there are no activities |
| UserActivityWidget.ViewOfConcat | src/presentation/components/grid/widgets/UserActivityWidget.tsx:28-61 | the rows of a concatenation are the rows of the parts in turn, and the empty state shows iff both parts are empty |
| CustomWidget.CustomIconDefault | src/presentation/components/grid/widgets/CustomWidget.tsx:11-24 | Info iff the name is not settings, star or zap, so "info", missing and unknown all give Info. The three others map to their icons |
| CustomWidget.ThemeDefaultsToBlue | src/presentation/components/grid/widgets/CustomWidget.tsx:26-58 | blue iff the theme is not success, warning or error, so "info" and missing agree. The four palettes are distinct |
| CustomWidget.TrimStart | src/presentation/components/grid/widgets/CustomWidget.tsx:133 | a suffix of the input that drops only white space and starts with none |
| CustomWidget.TrimEnd | src/presentation/components/grid/widgets/CustomWidget.tsx:133 | a prefix of the input that drops only white space and ends with none |
| CustomWidget.Trim | src/presentation/components/grid/widgets/CustomWidget.tsx:133 | `trim()` leaves no white space at either end, and is the slice left after dropping only white space from both ends |
| CustomWidget.MetricLabel | src/presentation/components/grid/widgets/CustomWidget.tsx:133 | the label neither starts nor ends with a space |
| CustomWidget.UnspacedAppend | src/presentation/components/grid/widgets/CustomWidget.tsx:133 | deleting spaces distributes over concatenation |
| CustomWidget.SpacedAppend | src/presentation/components/grid/widgets/CustomWidget.tsx:133 | the global `replace` distributes over concatenation |
| CustomWidget.UnspacedSpaced | src/presentation/components/grid/widgets/CustomWidget.tsx:133 | the inserted spaces are the only spaces `replace` adds |
| CustomWidget.SpacedWhitespace | src/presentation/components/grid/widgets/CustomWidget.tsx:133 | for a key without white space, the spaced key's only white space is spaces |
| CustomWidget.MetricLabelRoundTrip | src/presentation/components/grid/widgets/CustomWidget.tsx:133 | for a key without white space, deleting the label's spaces gives back the key |
| CustomWidget.SpacedNoCapitals | src/presentation/components/grid/widgets/CustomWidget.tsx:133 | a key without A–Z is not changed by `replace` |
| CustomWidget.MetricLabelWithoutCapitals | src/presentation/components/grid/widgets/CustomWidget.tsx:133 | a key without A–Z is only trimmed |
| CustomWidget.TrimUnpadded | src/presentation/components/grid/widgets/CustomWidget.tsx:133 | `trim()` leaves alone a string with no white space at either end |
| CustomWidget.SpacedTwoCapitals | src/presentation/components/grid/widgets/CustomWidget.tsx:133 | three capital-free words joined by two capitals get a space before each capital |
| CustomWidget.NewUsersTodayLabel | src/presentation/components/grid/widgets/CustomWidget.tsx:133 | "newUsersToday" is shown as "new Users Today" |
| CustomWidget.AccentedCapitalUntouched | src/presentation/components/grid/widgets/CustomWidget.tsx:133 | "totalÁreas" is shown as itself: `[A-Z]` does not match 'Á' |
| CustomWidget.Tiles | src/presentation/components/grid/widgets/CustomWidget.tsx:127-136 | one tile per metric, in order, with the metric's label and value |
| CustomWidget.TextBlock | src/presentation/components/grid/widgets/CustomWidget.tsx:89-104 | a text block shows iff its string is present and non-empty, and then shows that string |
| CustomWidget.ActionLabel | src/presentation/components/grid/widgets/CustomWidget.tsx:141-160 | the button shows iff an action is given. Its label is never empty: the given label, or "Acción" for an empty one |
| CustomWidget.View | src/presentation/components/grid/widgets/CustomWidget.tsx:64-166 | header iff icon or title is set. Icon box iff icon is set, showing `getCustomIcon` of it. Items and metrics blocks iff non-empty, one tile per metric. Message and footer iff set. Action button iff an action is given. The palette is the theme's, the title, message and footer texts are the data's, the tiles are the metrics' and the button shows the action's label |
| MockUserRepository.FindUser | src/infrastructure/repositories/MockUserRepository.ts:35-36 | none iff no user has the e-mail. Otherwise a user of the list with that e-mail, and no earlier user has it |
| MockUserRepository.Authenticated | src/infrastructure/repositories/MockUserRepository.ts:58-69 | a user iff one with the e-mail exists and the stored password equals the given one, and then it is the one `findByEmail` returns |
| MockUserRepository.SeedWellFormed | src/infrastructure/repositories/MockUserRepository.ts:5-28 | the seed users have ids "1", "2", role "user" and a password each |
| MockUserRepository.CreateKeepsWellFormed | src/infrastructure/repositories/MockUserRepository.ts:43-53 | `create` keeps every id equal to its 1-based position |
| MockUserRepository.IdsDistinct | src/infrastructure/repositories/MockUserRepository.ts:44 | in such a table no two users share an id |
| MockUserRepository.KnownEmailFailsOnlyOnPassword | src/infrastructure/repositories/MockUserRepository.ts:62-66 | for a known e-mail, login fails iff the stored password differs |
| MockUserRepository.SeedCredentials | src/infrastructure/repositories/MockUserRepository.ts:5-28 | admin@example.com/admin123 and john.doe@example.com/password123 authenticate as the seed users, and any other password fails |
| MockUserRepository.DuplicateSignup | src/infrastructure/repositories/MockUserRepository.ts:52-53 | signing up with a used e-mail is accepted. Lookup still returns the older user, while login takes the new password and refuses every other one |
| MockUserRepository.FindUserAppend | src/infrastructure/repositories/MockUserRepository.ts:35 | a match in the front of the list hides any later user with that e-mail |
| MockUserRepository.Repository.constructor | src/infrastructure/repositories/MockUserRepository.ts:5-28 | starts with the seed users and passwords, well formed |
| MockUserRepository.Repository.FindByEmail | src/infrastructure/repositories/MockUserRepository.ts:31-37 | the first user of the table with that e-mail, or none iff no user has it |
| MockUserRepository.Repository.Create | src/infrastructure/repositories/MockUserRepository.ts:39-56 | appends exactly one user with id = previous count + 1 as text, role "user" and the given e-mail and name. Sets that e-mail's password, overwriting any old one, and keeps the table well formed |
| MockUserRepository.Repository.Authenticate | src/infrastructure/repositories/MockUserRepository.ts:58-69 | a user iff `findByEmail` finds one and the stored password equals the given one, and then it is that user |

## Left out

- Integers stand for the numbers the store keeps in `x, y, w, h`. Fractional and NaN positions reaching the store are not modelled (only the validators see the full number type). Page numbers are integers too: UserTableWidget.View takes `current: int`, so a fractional page is not modelled.
- Browser plumbing:
  - DOM queries are not modelled. `syncPositionsFromDOM` takes a snapshot of the elements' attributes as a parameter.
  - The element behind `widgetRef` is a small class instance.
  - `parseInt` of a non-numeric attribute (NaN) is not modelled. A present attribute is an integer.
- zustand's `create`/`persist` middleware and `localStorage` are not modelled. Nor is the hydration callback's logging: only its `hasChanges` value is.
- The debug `setTimeout` that re-reads storage after `updateWidgetPosition`, and every `console.log`, are not modelled.
- The seed widgets' `data` payloads (the 60 mock customers, stats, activities, growth and locations) are an opaque value.
- Bar heights, the `min(percentage, 100)` progress width and the rounded growth average are floating point and left out. So are all `toLocaleString` formatting, the metric values' number formatting and the CSS `capitalize` class.
- UserGrowthWidget.MaxUsers: with no months `Math.max()` is -Infinity. The model gives `None` there rather than a number.
- Decimal.IntToString: JavaScript's exponent form for very large numbers and the text of -0 are not modelled.
- CustomWidget.View: metrics are an ordered list of key/value pairs. The insertion order of `Object.entries` is taken as given.
- The action button's `onClick` callback is not modelled.
- UserLocationsWidget.CountryFlag, GridStore.PageOf and MockUserRepository.Authenticated: keys inherited from `Object.prototype` (such as "constructor") are treated as absent from the flag table, the page map and the password record.
- UserGrowthWidget.MonthLabel: `slice(0, 3)` counts UTF-16 code units while the model counts characters, so the two differ on month names holding characters outside the Basic Multilingual Plane.
- MockUserRepository.Repository: `mockUsers` and `mockPasswords` are module-level, so all repository instances share them. The model has one `Repository` object holding that shared state.
- The repository's `setTimeout` delays and Promises are not modelled, and neither are the `createdAt`/`updatedAt` dates.
- UserActivityWidget.TimeAgo returns its argument unchanged. It has no contract of its own, and the activity `View` states the time text is shown as given.
- useGridstack.ts is GridStack library wiring and is not part of this model. Its drag protocol reduces to the store's `SetDragging` and `UpdateWidgetPosition`.
- `resetToDefaults` is declared but never implemented, so it is not modelled.
- utils.ts's `cn`, `logger`, `debounce` and `throttle` wrap libraries, timers or the console, and are not modelled.

