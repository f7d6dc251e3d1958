# Guestra property management: a verified model

A Dafny model of the parts of the Guestra PMS whose correctness is not visible from any one
function: the dashboard grid packer and the layouts around it, dynamic pricing and its goal seek,
civil time, the recovery from expired credentials, the database bootstrap protocols, the
management ledger and the payment-webhook policy. `dafny verify dfyconfig.toml` checks everything.

Where the source loops or updates fields, the model has a method with a loop or a class, proved
equal to a specification function; what the source promises is then proved about that function.

| file | models |
|---|---|
| `Grids.dfy`, `Packing.dfy` | grid geometry and `packWorkspace` |
| `WorkspaceGrid.dfy` | projection to another column count, committing a move |
| `Json.dfy`, `WorkspaceLayout.dfy`, `WorkspaceConversion.dfy` | the layout validator over arbitrary JSON, the version 2 to 3 conversion, the templates |
| `DashboardLayout.dfy` | `parseLayout` on any cached value |
| `DynamicPricing.dfy`, `StayPricing.dfy` | night prices and their breakdown, stay quotes, goal seek |
| `ServiceTime.dfy`, `ServiceCalendar.dfy` | wall-clock resolution, the resource calendar index |
| `Calendar.dfy`, `StayDates.dfy` | the Gregorian calendar of ECMA-262 and the enumeration of stay nights |
| `AuthRecovery.dfy` | the 401 interceptor as interleaved steps of any number of requests |
| `Migrations.dfy` | the migration ledger over whole histories |
| `CredentialBatch.dfy`, `BootstrapConnect.dfy` | the parser of declared credentials over arbitrary JSON, the credential table over whole histories |
| `Allocation.dfy`, `ManagementReport.dfy`, `ManagementFigures.dfy`, `DemoTables.dfy` | proportional allocation, the daily ledger, the report tree, what its figures are |
| `StripeState.dfy` | payment and refund transition policy |

## What turned out false, and exactly when it holds

- `parseLayout` does not always return an acceptable layout. A version 1 cache whose `preset` is the
  array `["revenue"]` passes the own-property test, because the array is converted to the key, and
  the array then lands in the returned page. `ArrayPresetIsRefused` shows the input, `ParseIsSafe`
  proves that this family is the only exception.
- `stayNightKeys` and `stayDates` disagree for years 0 to 99, which `Date.UTC` moves to the 1900s.
  `EarlyStayDiffers` shows both lists for 0000-01-01 to 0000-01-02; `NightKeysAgreeExactly` proves
  agreement exactly for stays that start in year 100 or later.
- The same-day discount touches at most one night only if no two dates look up a demand record dated
  today (`OneDiscountExactly`); records filed under their own dates satisfy this, and one misfiled
  record breaks it (`MisfiledRecordDiscountsTwice`).
- `serviceInstant` samples three offsets and fails in two ways when an instant shows the time at an
  offset it does not sample: it returns an instant for an ambiguous time (`TwoChangesMisresolve`), or
  it refuses a time that one instant alone shows (`TwoChangesRefuseUnique`). `ExactnessExactly` proves,
  for every zone, that it is exact if and only if no instant is missed, or two are found, or none is
  found and two are missed. With at most one offset change within a day nothing is missed
  (`ResolutionIsExact`).
- Repeating a credential batch that succeeded still writes nothing, but it is accepted if and only if
  every identifier is spelled as the database returns it, in lower case, and the batch does not ask for
  an active credential that it also revokes (`RepeatWritesNothing`, which also says with which error).
  `MisspelledIsRefused` and `SelfRevokingIsRefused` are such batches. The parser excludes the second
  cause but not the first: for a parsed batch lower case decides (`ParsedBatchRepeats`, `UpperCaseUuid`).
- The twelve months of the management report do not quite add up for 2025: last year to date of the year
  holds 29 February 2024, which no single month reaches. `ReportMonthsAddUp` proves that plan, plan to
  date, actuals and last year always add up, and last year to date exactly but for that day;
  `LeapDaysAreLastYear` that 2026 has no such difference.
- The duplicate check of `parseBootstrapCredentials` compares identifiers that stand in one-element
  arrays by reference. `AcceptedNamesDiffer` proves that accepted records name different identifiers
  exactly when no repeated one stands in an array; `ArrayIdentifierSlipsThrough` shows such batches.

## Modelling decisions

- Money, rates and percentages are exact reals; `Math.round(x)` is the floor of `x + 1/2`. Grid
  coordinates, allocated amounts and day numbers are unbounded integers.
- Text is limited to the Basic Multilingual Plane, where one `char` is one UTF-16 code unit; outside
  it the source counts two units per character against its length limits. Spreading a JSON value that is
  not an object yields no fields: such a widget has no identifier and is refused either way. In
  a layout two structurally equal identifiers count as the same one; a page with object identifiers
  is refused in any case.
- A zone is any function from instants to whole-minute offsets. A typed-in local time is its minute
  number, with a flag for texts such as 02-30 that some engines roll over.
- `Date` parsing of a text that is not a calendar date is arbitrary: the results hold for every engine.
- `uuid` columns are compared by value and returned in lower case; whatever the source compares in its own
  code is compared as text.
- SHA-256, the blank-label check, SQL bodies and the outcome of a token refresh are parameters.
  Transactions are atomic and serialised, and a request keeps its retry flag when it is re-sent.
- In the interceptor, `auth.refresh` and `auth.login` are queued callbacks, run in the order they were
  queued; everything else interleaves freely. A refresh created just before a login starts may still be
  called afterwards, but always before the login is called, and none is created afterwards.
- Calendar index keys join a resource and a day; days are ten-character dates, resource identifiers are arbitrary.

## Model

| member | source | states |
|---|---|---|
| `Grids.OverlapIsSharedCell` | packages/shared/src/workspace-layout.ts:218-222 | two grids overlap exactly when they share a unit cell |
| `Packing.Scan` | packages/shared/src/workspace-layout.ts:257-263 | the search from a cell terminates in a free cell inside the canvas, of the same size |
| `Packing.ScanIsFirstFree` | packages/shared/src/workspace-layout.ts:257-263 | every in-range cell between start and result, left to right and then down, is blocked |
| `Packing.SomeRowIsFree` | packages/shared/src/workspace-layout.ts:265-277 | pigeonhole: among more than 31 rows per placed card one is free |
| `Packing.ScanRowBound` | packages/shared/src/workspace-layout.ts:265-277 | a search from the top past n placed cards ends by row 31 n |
| `Packing.DropIsLeastPush` | packages/shared/src/workspace-layout.ts:265-277 | a colliding card keeps its column and moves down to the first free row; only if none is left down to row 1024 does it take the first free cell from the top |
| `Packing.ClampedIsNearest` | packages/shared/src/workspace-layout.ts:246-253 | clamping moves width, height, row and (for that width) column no further than any other fitting grid would |
| `Packing.ScanLoop` | packages/shared/src/workspace-layout.ts:272-275 | the inner search loop computes `Scan` |
| `Packing.PlaceLoop` | packages/shared/src/workspace-layout.ts:245-279 | the body of the card loop computes `Place` |
| `Packing.PackWorkspace` | packages/shared/src/workspace-layout.ts:233-281 | the packer with its loops computes `Pack` |
| `Packing.PackIsSafe` | packages/shared/src/workspace-layout.ts:233-281 | for distinct identifiers and any column count, packing changes grids only, keeps the order, and the grids are in range and pairwise disjoint; rows stay within 1024 for up to 34 cards, more than the 24 the source allows |
| `Packing.PackFixesSettledPage` | packages/shared/src/workspace-layout.ts:233-281 | a page of fitting disjoint grids is left exactly as it is, whichever card has priority |
| `Packing.PackIsIdempotent` | packages/shared/src/workspace-layout.ts:233-281 | packing a packed page again, with any priority, changes nothing |
| `Packing.PackKeepsIds` | packages/shared/src/workspace-layout.ts:280-280 | even when identifiers repeat, every position keeps its identifier and gets a grid inside the canvas |
| `Packing.PackedIsSomeCard` | packages/shared/src/workspace-layout.ts:280-280 | even then every position gets some card of the page with its identifier, changed in its grid alone |
| `Packing.MovedCardKeepsItsCell` | packages/shared/src/workspace-layout.ts:239-244 | the priority card gets its requested cell brought into the canvas, hence exactly its cell if that fits |
| `Packing.EveryCellIsOk` | packages/shared/src/workspace-layout.ts:233-281 | on every packed page, in terms of that page alone: a card with a grid stands in its clamped column, in the least row at or below its clamped one that no card placed before it takes, and only when all those rows down to 1024 are taken in the first free cell from the top; a card without a grid stands in the first free cell |
| `Packing.EveryCellInTurn` | packages/shared/src/workspace-layout.ts:233-281 | the same without a priority card, where cards settle in page order |
| `Packing.FreeCellIsKept` | packages/shared/src/workspace-layout.ts:265-277 | a fitting grid that none before it overlaps is kept |
| `WorkspaceGrid.ProjectionFits` | apps/dashboard/src/lib/workspace-grid.ts:8-26 | the projection to any column count fits without overlap and keeps every card in order |
| `WorkspaceGrid.ScaledIsNear` | apps/dashboard/src/lib/workspace-grid.ts:13-22 | the projected column is x * columns / 12 rounded down, the width the nearest to w * columns / 12, but 2 at least |
| `WorkspaceGrid.ProjectionPushesDown` | apps/dashboard/src/lib/workspace-grid.ts:8-26 | every projected card stands in its scaled cell, pushed down past the cards before it as little as possible |
| `WorkspaceGrid.ProjectionAtTwelveIsIdentity` | apps/dashboard/src/lib/workspace-grid.ts:8-26 | at 12 columns projection is the identity on savable pages |
| `WorkspaceGrid.CommitStaysSavable` | apps/dashboard/src/lib/workspace-grid.ts:27-46 | whatever is committed from whatever canvas, the page stays savable and keeps its cards |
| `WorkspaceGrid.CommitMovesTheCard` | apps/dashboard/src/lib/workspace-grid.ts:27-46 | the moved card ends in the committed cell in canonical units; at 12 columns exactly in a valid cell asked for |
| `WorkspaceGrid.CanonicalIsNear` | apps/dashboard/src/lib/workspace-grid.ts:33-38 | the committed width and column are the nearest in canonical units, within 2 to 12 columns |
| `WorkspaceGrid.CommitPushesDown` | apps/dashboard/src/lib/workspace-grid.ts:39-45 | every card of a committed page asks for its own cell, the moved one for the canonical cell, and is pushed down only past the cards placed before it |
| `WorkspaceGrid.CommitOwnCellIsIdentity` | apps/dashboard/src/lib/workspace-grid.ts:27-46 | committing a card's own cell changes nothing |
| `WorkspaceLayout.GridRoundTrip` | packages/shared/src/workspace-layout.ts:204-217 | a grid written as JSON is accepted exactly when it is valid, and reads back as itself |
| `WorkspaceLayout.IsWorkspaceLayout` | packages/shared/src/workspace-layout.ts:124-203 | the validator's loops accept exactly the JSON values that satisfy the declarative definition |
| `WorkspaceLayout.CheckWidgets` | packages/shared/src/workspace-layout.ts:153-191 | the widget loop accepts exactly the lists of well-formed widgets with distinct identifiers and types |
| `WorkspaceConversion.FlowIsAhead` | packages/shared/src/workspace-layout.ts:289-304 | every row-flow cell is valid and lies ahead of the cursor |
| `WorkspaceConversion.FlowIsDisjoint` | packages/shared/src/workspace-layout.ts:289-304 | no two row-flow cells overlap |
| `WorkspaceConversion.FlowIsTight` | packages/shared/src/workspace-layout.ts:295-302 | a card that fits stands directly right of the one before; one that does not starts at column 0 directly below the tallest card of that row |
| `WorkspaceConversion.FlowLoop` | packages/shared/src/workspace-layout.ts:289-304 | the cursor loop computes the row flow |
| `WorkspaceConversion.NormalizeWorkspace` | packages/shared/src/workspace-layout.ts:283-308 | the conversion with its loops computes `Normalize` |
| `WorkspaceConversion.FlowCardsArePacked` | packages/shared/src/workspace-layout.ts:292-305 | packing the flowed cards changes nothing |
| `WorkspaceConversion.NormalizedWidgetsOk` | packages/shared/src/workspace-layout.ts:288-305 | a converted page holds the same widgets and settings in order, at exactly the row-flow cells, and passes the version 3 checks |
| `WorkspaceConversion.ConvertedCells` | packages/shared/src/workspace-layout.ts:288-304 | a converted card is four columns wide per width unit and its default height high per height unit, 16 rows at most; the first stands in the corner, the next directly right of it or directly below its row |
| `WorkspaceConversion.NormalizeIsSound` | packages/shared/src/workspace-layout.ts:282-308 | every accepted layout converts to an accepted version 3 layout with the same start page, pages, widgets and settings; converting twice equals converting once |
| `WorkspaceConversion.TemplateIsAccepted` | packages/shared/src/workspace-layout.ts:309-332 | every template is an accepted version 3 layout |
| `WorkspaceConversion.TemplateShowsItsWidgets` | packages/shared/src/workspace-layout.ts:309-332 | a template is one page with exactly the preset's widgets in order, named after their types, with the default settings, each in the first free cell of its default size |
| `DashboardLayout.ParseLayout` | apps/dashboard/src/lib/dashboard-layout.ts:20-37 | the parser with its early returns computes `Parsed` |
| `DashboardLayout.KnownTypes` | apps/dashboard/src/lib/dashboard-layout.ts:32-32 | a version 1 widget list keeps exactly its known types, each once |
| `DashboardLayout.ParseIsSafe` | apps/dashboard/src/lib/dashboard-layout.ts:20-37 | for every cached value the result is an accepted version 3 layout, except exactly for version 1 values whose preset is an array spelling a preset |
| `DashboardLayout.ArrayPresetIsRefused` | apps/dashboard/src/lib/dashboard-layout.ts:30-33 | the exception is real: a concrete value |
| `DashboardLayout.UpgradeKeepsWidgets` | apps/dashboard/src/lib/dashboard-layout.ts:30-34 | a version 1 cache becomes one page "home" with the stored preset; its widgets are exactly the known names stored, each once, in order of first appearance, with the default settings, pushed down from their default cells as little as needed |
| `DashboardLayout.ParsedOtherwise` | apps/dashboard/src/lib/dashboard-layout.ts:20-37 | an accepted version 2 cache is converted; text that is not JSON and any value that is neither accepted, version 3 nor upgradable gives the management template |
| `DashboardLayout.RepairAcceptedExactly` | apps/dashboard/src/lib/dashboard-layout.ts:26-29 | the repair is accepted exactly when everything but the coordinates was in order, and then keeps pages, widgets and settings |
| `DashboardLayout.RepairTouchesCellsOnly` | apps/dashboard/src/lib/dashboard-layout.ts:23-36 | a version 3 cache is kept when valid, repaired when only coordinates are wrong, and replaced by the default otherwise |
| `DashboardLayout.RepairKeepsFreeCells` | apps/dashboard/src/lib/dashboard-layout.ts:26-29 | a repaired widget stands in its stored cell when that is valid and free, otherwise as little below the stored or default cell as the widgets before it allow |
| `DynamicPricing.RoundToStepIsSafe` | apps/dashboard/src/lib/dynamic-pricing.ts:250-256 | the rounded price is a multiple of the step, not below the floor, less than a step from the value |
| `DynamicPricing.RoundToStepExactly` | apps/dashboard/src/lib/dynamic-pricing.ts:250-256 | the result is the nearest multiple, halves upwards, unless that is under the floor; then the least multiple at or above the floor; a step that is not positive counts as 1 |
| `DynamicPricing.RoundToStepIsMonotone` | apps/dashboard/src/lib/dynamic-pricing.ts:250-256 | rounding with a floor is monotone |
| `DynamicPricing.AppliedTotal` | apps/dashboard/src/lib/dynamic-pricing.ts:276-285 | the rescaled contributions add up to the clamped total |
| `DynamicPricing.AppliedIsProportional` | apps/dashboard/src/lib/dynamic-pricing.ts:276-285 | down to -80% the adjustments stay as they are, below all are cut in the same proportion |
| `DynamicPricing.RawPriceExactly` | apps/dashboard/src/lib/dynamic-pricing.ts:218-298 | the price before floor and rounding is base rate times category factor times one plus the clamped sum of event and selected tiers, times the same-day factor; tiers are given by their threshold intervals |
| `DynamicPricing.CategoryRatio` | apps/dashboard/src/lib/dynamic-pricing.ts:268-269 | the prices of two listed categories stand in the ratio of their factors |
| `DynamicPricing.UnlistedCostsTheBase` | apps/dashboard/src/lib/dynamic-pricing.ts:268-268 | an unlisted category costs what one listed at 1 does |
| `DynamicPricing.PlainNight` | apps/dashboard/src/lib/dynamic-pricing.ts:268-298 | without adjustments and same-day cut the price is base rate times category factor |
| `DynamicPricing.FinalPriceExactly` | apps/dashboard/src/lib/dynamic-pricing.ts:300-302 | the final price is the rounding of the raw price lifted to the floor |
| `DynamicPricing.WaterfallReconciles` | apps/dashboard/src/lib/dynamic-pricing.ts:272-353 | all steps of the breakdown add up to the final price, also when the -80% clamp bites |
| `DynamicPricing.WaterfallExactly` | apps/dashboard/src/lib/dynamic-pricing.ts:304-331 | the headings up to lead time: base rate, category surcharge, and the category's price times each applied adjustment |
| `DynamicPricing.WaterfallCloses` | apps/dashboard/src/lib/dynamic-pricing.ts:332-352 | the same-day, floor and rounding headings bring the running sum to the raw, floored and final price; without a cut or a floor theirs is zero |
| `DynamicPricing.ItemisedLines` | apps/dashboard/src/lib/dynamic-pricing.ts:304-352 | exactly the steps that have an effect are shown, once, in order, each with its own amount, and they sum to all steps |
| `DynamicPricing.ComputeNightPrice` | apps/dashboard/src/lib/dynamic-pricing.ts:262-368 | price, adjustments and flags as specified; the breakdown shows exactly the steps with an effect, in order, sums to the final price and ends with it as total |
| `DynamicPricing.FinalPriceIsSafe` | apps/dashboard/src/lib/dynamic-pricing.ts:300-302 | a night's price is a multiple of the step, not below the floor, less than a step from the floored price |
| `DynamicPricing.PriceIsMonotone` | apps/dashboard/src/lib/dynamic-pricing.ts:262-302 | raising the base rate never lowers a night's price |
| `DynamicPricing.MoreDemandIsNeverCheaper` | apps/dashboard/src/lib/dynamic-pricing.ts:218-302 | with ordered tiers, more occupancy, bookings and event demand never make the same night cheaper |
| `StayPricing.ComputeStayQuote` | apps/dashboard/src/lib/dynamic-pricing.ts:382-399 | every night priced and itemised from its own demand record, or the fallback on that date, with their total and average |
| `StayPricing.StaySplits` | apps/dashboard/src/lib/dynamic-pricing.ts:382-409 | splitting a stay at an intermediate date splits its total |
| `StayPricing.StayIsMonotone` | apps/dashboard/src/lib/dynamic-pricing.ts:382-399 | raising the base rate never lowers a stay's total |
| `StayPricing.DiscountIsTonightOnly` | apps/dashboard/src/lib/dynamic-pricing.ts:289-298 | with demand filed under its own dates exactly tonight's night is discounted, if it is in the stay |
| `StayPricing.OneDiscountExactly` | apps/dashboard/src/lib/dynamic-pricing.ts:289-298 | for arbitrary demand maps: every stay, and every choice of distinct dates, has at most one discounted night exactly when no two dates look up demand dated today |
| `StayPricing.MisfiledRecordDiscountsTwice` | apps/dashboard/src/lib/dynamic-pricing.ts:289-298 | a record dated today but filed under tomorrow discounts both nights of a two-night stay |
| `StayPricing.AdrIsWeightedMean` | apps/dashboard/src/lib/dynamic-pricing.ts:500-508 | the average rate is the mean of the prices weighted with the occupancies; without rooms it is 0 |
| `StayPricing.AdrWithinPrices` | apps/dashboard/src/lib/dynamic-pricing.ts:500-508 | it lies between the lowest and the highest price |
| `StayPricing.GoalSeekHitsTarget` | apps/dashboard/src/lib/dynamic-pricing.ts:493-516 | repricing at the recommended base rate brings the average rate to within (step/2)(1 + scaling factor + largest coefficient) of the target when the floor binds neither before nor after |
| `ServiceTime.ServiceInstant` | apps/dashboard/src/lib/service-time.ts:9-21 | the sampling and filtering loops return the only instant that shows the time at a sampled offset, or the right error |
| `ServiceTime.ExactnessExactly` | apps/dashboard/src/lib/service-time.ts:9-21 | in any zone d is returned exactly when it is the only whole-minute instant showing that time, if and only if no such instant is missed by the sampling, or two are found, or none is found and two are missed |
| `ServiceTime.AmbiguousResolvedExactly` | apps/dashboard/src/lib/service-time.ts:13-20 | a time shown by several instants is resolved exactly when one of them is found and another missed |
| `ServiceTime.UniqueRefusedExactly` | apps/dashboard/src/lib/service-time.ts:13-20 | the only instant showing a time is refused exactly when the sampling misses it |
| `ServiceTime.ResolutionIsExact` | apps/dashboard/src/lib/service-time.ts:9-21 | with at most one offset change within a day, d is returned exactly when it is the only whole-minute instant showing that time |
| `ServiceTime.FailsExactlyInGapOrFold` | apps/dashboard/src/lib/service-time.ts:18-20 | with at most one change within a day it fails exactly when the wall time lies between the two offsets counted from the change |
| `ServiceTime.DisplayRoundTrip` | apps/dashboard/src/lib/service-time.ts:3-21 | every instant on a whole minute is recovered from what is shown for it exactly outside the gap and fold of the change |
| `ServiceTime.TwoChangesMisresolve` | apps/dashboard/src/lib/service-time.ts:13-20 | with two changes an ambiguous time can resolve: a concrete zone |
| `ServiceTime.TwoChangesRefuseUnique` | apps/dashboard/src/lib/service-time.ts:13-20 | with two changes a time shown by one instant alone can be refused: a concrete zone |
| `Calendar.NextDayNumber` | packages/shared/src/stay-dates.ts:23-25 | the calendar successor of a date has the next day number |
| `Calendar.OrderIsDayNumber` | packages/shared/src/stay-dates.ts:12-20 | calendar order is day-number order |
| `Calendar.DateOf` | packages/shared/src/stay-dates.ts:23-25 | every four-digit day number is the number of a valid date |
| `Calendar.IsoOrder` | packages/shared/src/canonical-calendar-date.validator.ts:22-24 | string order on yyyy-MM-dd texts is calendar order and texts are unique |
| `StayDates.CanonicalIsCalendarDate` | packages/shared/src/canonical-calendar-date.validator.ts:12-16 | the accepted texts are exactly the texts of calendar dates, for every engine |
| `StayDates.RangeChecksAgree` | packages/shared/src/canonical-calendar-date.validator.ts:18-25 | comparing texts and comparing instants is the same check |
| `StayDates.EnumerateStayDates` | packages/shared/src/stay-dates.ts:6-27 | succeeds exactly when the text-based check accepts, and lists the text of every day of the stay |
| `StayDates.NightsAreConsecutive` | packages/shared/src/stay-dates.ts:22-26 | the list starts at check-in, each date is the successor of the one before, the successor of the last is check-out, and the length is the day difference |
| `StayDates.StayNightKeys` | apps/dashboard/src/lib/dynamic-pricing.ts:402-409 | for all yyyy-MM-dd texts, real dates or not, the loop lists the days between the two `Date.UTC` midnights |
| `StayDates.RollsOver` | apps/dashboard/src/lib/dynamic-pricing.ts:170-173 | a month past December counts on into the next year, a day past the end of its month into the next month |
| `StayDates.UtcDayOfMonth` | apps/dashboard/src/lib/dynamic-pricing.ts:170-173 | a text with a real month is the day it names, the years 0 to 99 read as 1900 to 1999 |
| `StayDates.DayTextExactly` | apps/dashboard/src/lib/dynamic-pricing.ts:406-406 | the text listed for a day is that of its date; past the year 9999 it is cut off after the month |
| `StayDates.NightKeysAgreeExactly` | apps/dashboard/src/lib/dynamic-pricing.ts:170-173 | both enumerations agree exactly for stays starting in year 100 or later |
| `StayDates.EarlyStayDiffers` | apps/dashboard/src/lib/dynamic-pricing.ts:170-173 | the stay 0000-01-01 to 0000-01-02 is listed as 0000-01-01 by one enumeration and as 1900-01-01 by the other |
| `ServiceCalendar.KeyIsInjective` | apps/dashboard/src/lib/service-calendar.ts:11-11 | for days of one width a joined key names one resource and one day |
| `ServiceCalendar.FileEntry` | apps/dashboard/src/lib/service-calendar.ts:11-11 | the inner loop files a row once per listed day it covers and touches no other key |
| `ServiceCalendar.IndexServiceCalendar` | apps/dashboard/src/lib/service-calendar.ts:3-18 | looking up any resource and day gives exactly the rows of a scan, in order, for bookings and for blocks |
| `ServiceCalendar.ScanIsPlain` | apps/dashboard/src/lib/service-calendar.ts:8-16 | for distinct days the scan is the plain filter on listed days and empty elsewhere |
| `ServiceCalendar.ScanInOrder` | apps/dashboard/src/lib/service-calendar.ts:11-16 | the scan keeps the order of the rows filed |
| `ServiceCalendar.EntriesInOrder` | apps/dashboard/src/lib/service-calendar.ts:8-12 | bookings are filed in the order of the allocations |
| `ServiceCalendar.EntriesOfOne` | apps/dashboard/src/lib/service-calendar.ts:8-12 | an allocation files the booking it names under its resource for the booking's local date range, an unknown booking nothing |
| `ServiceCalendar.LastBookingWins` | apps/dashboard/src/lib/service-calendar.ts:6-6 | of several bookings with one identifier the last one counts |
| `ServiceCalendar.BookingsListedExactly` | apps/dashboard/src/lib/service-calendar.ts:6-12 | a booking is listed exactly when an allocation puts it on that resource and the day lies in its local date range, the end taken one millisecond early |
| `ServiceCalendar.BlocksListedExactly` | apps/dashboard/src/lib/service-calendar.ts:7-17 | a block is listed exactly when it is on that resource and the day lies in its local date range, the end taken one millisecond early |
| `AuthRecovery.StepKeepsInv` | apps/dashboard/src/lib/auth-recovery.ts:13-39 | every step of the interceptor keeps the protocol invariant |
| `AuthRecovery.EveryRunIsSafe` | apps/dashboard/src/lib/auth-recovery.ts:13-39 | in every interleaving: one refresh pending at most, one login and only after a 401 without a request, a 401 of a re-sent request or a refresh without a usable token, no refresh created or called after it, every refresh created and every login started queued until it is called once, no refresh settled before its call, each request sent at most twice, only unaborted reads re-sent, with the token of a refresh that settled after their refusal |
| `AuthRecovery.EveryResumeRecovers` | apps/dashboard/src/lib/auth-recovery.ts:28-36 | in every run a request resumes after its refusal and the later settling of its refresh; with a usable token an unaborted read is in flight again and the log grows by exactly its re-sending with that token, a write or aborted request is done without an event, and without a usable token the login has started |
| `AuthRecovery.EveryRefusalWaits` | apps/dashboard/src/lib/auth-recovery.ts:23-28 | in every run a first 401 before any login leaves the request waiting on the pending refresh, the stored one or one created then; any other 401 ends it with the login started |
| `AuthRecovery.NoRequestIsStuck` | apps/dashboard/src/lib/auth-recovery.ts:27-29 | while a request waits, its resumption, the settling of its refresh or the queued call of that refresh is possible |
| `AuthRecovery.OthersAreRecorded` | apps/dashboard/src/lib/auth-recovery.ts:16-29 | every other step logs exactly what happened and changes only what it names; queued calls run first come, first served |
| `AuthRecovery.ResendIsJustified` | apps/dashboard/src/lib/auth-recovery.ts:30-36 | a re-sending follows a 401 of that request and then the settling of the refresh whose token it carries |
| `AuthRecovery.ReasonStep` | apps/dashboard/src/lib/auth-recovery.ts:23-33 | every step keeps that each login so far had one of these three reasons |
| `AuthRecovery.Interceptor.StartLoginOnce` | apps/dashboard/src/lib/auth-recovery.ts:16-20 | starts the login at most once |
| `AuthRecovery.Interceptor.OnAnswer401` | apps/dashboard/src/lib/auth-recovery.ts:21-29 | the handler up to its await takes exactly the specified step, keeps the invariant, and leaves a first 401 before any login waiting on the pending refresh |
| `AuthRecovery.Interceptor.OnUnconfigured401` | apps/dashboard/src/lib/auth-recovery.ts:22-25 | a 401 without a request configuration starts the login at once |
| `AuthRecovery.Interceptor.OnRefreshSettled` | apps/dashboard/src/lib/auth-recovery.ts:28-28 | settling clears the shared refresh first |
| `AuthRecovery.Interceptor.OnResumed` | apps/dashboard/src/lib/auth-recovery.ts:30-36 | the handler after its await re-sends exactly an unaborted read whose refresh settled with a usable token, with that token; without one the login has started |
| `Allocation.Allocate` | apps/dashboard/src/lib/management-demo.ts:72-80 | the loop with its running counter computes `Allocated` |
| `Allocation.AllocatedSums` | apps/dashboard/src/lib/management-demo.ts:72-80 | the parts add up to the total exactly |
| `Allocation.AllocatedNonNegative` | apps/dashboard/src/lib/management-demo.ts:72-80 | no part of a non-negative total is negative |
| `Allocation.AllocatedIsFair` | apps/dashboard/src/lib/management-demo.ts:76-76 | every part but the last is less than one unit below its exact share; the last takes what rounding left, less than one unit per other part; a single part is the whole total |
| `Allocation.BetweenLoop` | apps/dashboard/src/lib/management-demo.ts:98-115 | the month and day loops compute `Between` |
| `Allocation.BetweenSplits` | apps/dashboard/src/lib/management-demo.ts:98-115 | adjacent date ranges of one year add up |
| `Allocation.BetweenWholes` | apps/dashboard/src/lib/management-demo.ts:98-115 | a year is the sum of its months, a month the sum of its days |
| `Allocation.SpreadConserves` | apps/dashboard/src/lib/management-demo.ts:98-115 | through both levels of allocation the days of the year add up to the annual figure |
| `ManagementReport.LineLedger` | apps/dashboard/src/lib/management-demo.ts:92-115 | a line's daily ledger is non-negative and its whole year equals the annual figure |
| `ManagementFigures.LedgerExactly` | apps/dashboard/src/lib/management-demo.ts:92-103 | a year of a ledger is the property's share times the year's factor, rounded; a month its seasonal part |
| `ManagementFigures.DayExactly` | apps/dashboard/src/lib/management-demo.ts:107-112 | a day but for the month's last has its weight's part of the month, rounded down; weekends weigh 135 in the actuals of seasonal lines, other days 100 |
| `ManagementReport.PeriodIsSound` | apps/dashboard/src/lib/management-demo.ts:117-126 | start, end and cutoff lie in the year and the cutoff never follows the end |
| `ManagementReport.PeriodDaysAddUp` | apps/dashboard/src/lib/management-demo.ts:117-126 | elapsed and remaining days make up the period |
| `ManagementReport.WeekdayAdvances` | apps/dashboard/src/lib/management-demo.ts:107-110 | weekdays advance day by day, from a known Thursday |
| `ManagementReport.LeafCoheres` | apps/dashboard/src/lib/management-demo.ts:128-142 | plan to date within plan, last year to date within last year, forecast within rounding of actual plus 0.75 to 1.25 of the remaining plan, required daily amount covers the shortfall with less than one unit a day to spare |
| `ManagementFigures.MonthFigures` | apps/dashboard/src/lib/management-demo.ts:117-139 | in a month, plan and last year are the whole month of the ledgers, plan to date, actuals and last year to date the leading elapsed days of the same months |
| `ManagementFigures.YearFigures` | apps/dashboard/src/lib/management-demo.ts:117-139 | in a year, plan and last year are the whole ledgers, the other three all of 2025 and 2026 up to 18 September |
| `ManagementFigures.FiguresOf2025` | apps/dashboard/src/lib/management-demo.ts:92-140 | for 2025 plan, actuals and last year are the share times 0.9, 0.92 and 0.84, rounded, and forecast and actuals agree |
| `ManagementFigures.ElapsedMonthOf2026` | apps/dashboard/src/lib/management-demo.ts:92-140 | an elapsed month of 2026 has as actuals its seasonal part of the share times the line's factor |
| `ManagementFigures.ForecastExactly` | apps/dashboard/src/lib/management-demo.ts:139-140 | the forecast adds the remaining plan at the pace of the actuals, taken between 75 and 125 percent, and at plan when nothing was planned so far |
| `ManagementReport.AggregateLoop` | apps/dashboard/src/lib/management-demo.ts:83-87 | the accumulation loop computes the componentwise sum |
| `ManagementFigures.AggregateIsComponentwise` | apps/dashboard/src/lib/management-demo.ts:83-87 | every figure of an aggregate is the sum of that figure |
| `ManagementReport.PropertyIsSumOfLeaves` | apps/dashboard/src/lib/management-demo.ts:144-159 | a property's total, built group by group, is the sum over its lines |
| `ManagementReport.NetworkIsSumOfLeaves` | apps/dashboard/src/lib/management-demo.ts:161-165 | network totals are the sum over all leaves |
| `ManagementFigures.ReportMonthsAddUp` | apps/dashboard/src/lib/management-demo.ts:167-171 | plan, plan to date, actuals and last year of the twelve monthly network reports add up to the year's; last year to date does but for 29 February of the year before |
| `ManagementFigures.LeapDaysAreLastYear` | apps/dashboard/src/lib/management-demo.ts:131-138 | that difference is never negative and there is none in 2026 |
| `DemoTables.TablesArePartitioned` | apps/dashboard/src/lib/management-demo.ts:18-63 | both tables meet the conditions of these results |
| `Migrations.TrackedIsSorted` | packages/database/src/migration-runner.ts:39-55 | exactly the entries from version 22 on, ascending |
| `Migrations.Database.RunPendingSqlMigrations` | packages/database/src/migration-runner.ts:76-112 | a run succeeds exactly without duplicates, drift or failing bodies, returns the applied names, names the first fault otherwise, and a failing run leaves the database unchanged |
| `Migrations.CheckInstalled` | packages/database/src/migration-runner.ts:88-94 | the first loop refuses exactly on drift and fills in missing checksums |
| `Migrations.CommitsExactly` | packages/database/src/migration-runner.ts:87-105 | a run commits exactly when versions are unique, every recorded file has its recorded name and checksum, if any, and every unrecorded one executes |
| `Migrations.LedgerAfterRun` | packages/database/src/migration-runner.ts:88-108 | a committed run leaves every tracked file recorded with its name and checksum and every other row as it was |
| `Migrations.RunAppliesExactly` | packages/database/src/migration-runner.ts:95-110 | a committed run applies exactly the unrecorded files in strictly ascending order and records each with name and checksum |
| `Migrations.RunIsSafe` | packages/database/src/migration-runner.ts:76-112 | every run keeps what is recorded, executes no version again, and changes nothing when it fails |
| `Migrations.HistoryIsSafe` | packages/database/src/migration-runner.ts:76-112 | over any history with changing directories no version executes twice and recorded names and checksums never change |
| `Migrations.RerunAppliesNothing` | packages/database/src/migration-runner.ts:76-112 | an immediate rerun on the same directory succeeds, applies nothing and changes nothing |
| `CredentialBatch.ParseBootstrapCredentials` | packages/database/src/bootstrap-connect.ts:20-42 | for arbitrary JSON the loop with its two sets accepts exactly the lists of well-formed records without equal string identifiers or equal key hashes |
| `CredentialBatch.AcceptedNamesDiffer` | packages/database/src/bootstrap-connect.ts:27-39 | accepted records name different identifiers exactly when no repeated one stands in an array |
| `CredentialBatch.ArrayIdentifierSlipsThrough` | packages/database/src/bootstrap-connect.ts:38-39 | two records that put one identifier in an array each are accepted together |
| `CredentialBatch.AcceptedIsDistinct` | packages/database/src/bootstrap-connect.ts:38-41 | accepted records with string identifiers form a batch without duplicates |
| `BootstrapConnect.Database.BootstrapConnect` | packages/database/src/bootstrap-connect.ts:45-73 | a batch commits as specified, and a failing batch leaves all tables unchanged |
| `BootstrapConnect.ProcessCases` | packages/database/src/bootstrap-connect.ts:47-71 | an accepted record writes nothing, inserts one row or revokes one row, the last two with one audit row; one not spelled as stored can only insert |
| `BootstrapConnect.ProcessExactly` | packages/database/src/bootstrap-connect.ts:47-71 | what one record does in every case, with each refusal: unknown property, revocation of an unknown credential, conflict, revoked |
| `BootstrapConnect.InsertedExactly` | packages/database/src/bootstrap-connect.ts:64-70 | the row and audit entry of an insertion, written out |
| `BootstrapConnect.HistoryIsSafe` | packages/database/src/bootstrap-connect.ts:45-73 | over any history identifiers and hashes stay unique, bindings never change, revoked credentials stay revoked, and every insertion and revocation has exactly one audit row |
| `BootstrapConnect.RepeatWritesNothing` | packages/database/src/bootstrap-connect.ts:45-73 | repeating a successful batch writes nothing; it is accepted if and only if every identifier is spelled as stored and the batch does not revoke what it asks for, and otherwise the first record at fault decides between conflict and revoked |
| `BootstrapConnect.ParsedBatchRepeats` | packages/database/src/bootstrap-connect.ts:20-73 | a batch without duplicates that succeeds leaves every record satisfied; its repetition is accepted unchanged when all identifiers are in lower case and refused as a conflict otherwise |
| `BootstrapConnect.SelfRevokingIsRefused` | packages/database/src/bootstrap-connect.ts:45-73 | creating and revoking one credential in a batch succeeds on an empty table and is refused when repeated |
| `BootstrapConnect.MisspelledIsRefused` | packages/database/src/bootstrap-connect.ts:53-57 | a record whose identifiers are not in lower case creates its credential once; repeating it is a conflict, and revoking by that spelling fails |
| `BootstrapConnect.MisspelledNeverRevokes` | packages/database/src/bootstrap-connect.ts:53-60 | whatever the tables hold, a revocation spelled otherwise than stored is refused |
| `BootstrapConnect.UpperCaseUuid` | packages/database/src/bootstrap-connect.ts:18-18 | the pattern admits such spellings: a concrete identifier |
| `StripeState.ChangesAtMostOnce` | packages/shared/src/stripe-financial-state.ts:108-130 | along any webhooks the status changes at most once, and never once it is final |
| `StripeState.FirstEffectiveDecides` | packages/shared/src/stripe-financial-state.ts:98-130 | from pending the first effective webhook decides the outcome |
| `StripeState.FirstSuccessCaptures` | packages/shared/src/stripe-financial-state.ts:120-128 | an authorized payment is captured by the first success without a denied request and by nothing else |
| `StripeState.DecisionIsTruthful` | packages/shared/src/stripe-financial-state.ts:108-130 | a transition changes the status, a repair confirms it, and only a success for a denied request is refused |
| `StripeState.RedeliveryIsHarmless` | packages/shared/src/stripe-financial-state.ts:108-130 | a redelivered webhook changes nothing, wherever it arrives later |
| `StripeState.DeniedIsNeverCaptured` | packages/shared/src/stripe-financial-state.ts:120-124 | once the request is denied a payment never newly becomes captured |
| `StripeState.FirstConclusiveDecides` | packages/shared/src/stripe-financial-state.ts:139-156 | a refund is decided by the first conclusive provider status and then never changes |
| `StripeState.RefundDecisionIsTruthful` | packages/shared/src/stripe-financial-state.ts:139-156 | the action tells a transition, a confirmed status and a contradiction apart |

## Left out

- Rendering, navigation, query caching, and the formatting and spreadsheet exports: no property beyond the text produced.
- IEEE floating point: prices and allocations are exact; a result that depends on binary rounding is not captured.
- Grids with non-integer or non-finite coordinates in `packWorkspace`: the validator and the repair only pass integers.
- `bootstrapPropertyMappings`, `pushSchema` and the command-line entry points of the database package: the first is a simpler variant of the credential protocol, the others are schema text and wiring.
- `propertyClock`, `categoryFromRoomTypeName`, the mock forecast, `summariseForecast` and `serviceDays`: single expressions over library calls.
- Parsing of JSON text, date texts with missing or non-numeric parts in `stayNightKeys`, migration file names and ISO texts with a time part: the models start from parsed values.
- Metadata ownership and correlation parsing for payment webhooks: finite look-ups.
- `visibleWidgets`, `layoutKey` and the permission table: finite look-ups.
- Identifiers that the parser accepts inside an array: what the database driver does with them is not part of the model; past the parser identifiers are strings.
- Process: takes identifiers as UUID texts in the form the parser accepts; other texts are refused by the column type before any write, which is not modelled. The insertion order of rows returned by the database is the table order; an implementation-defined order of two conflicting rows is not captured, both orders end in the same refusal.
- EveryRunIsSafe: states safety only; a refresh that never settles leaves its requests waiting for ever, as in the source.
