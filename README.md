# SURRS core in Dafny

SURRS is a municipal infrastructure-reporting front end. Citizens report potholes,
waterlogging, sewage overflows and the like through a two-step wizard. They can upload photos
that a mock AI service "analyses" for materials. Administrators see the seeded reports
filtered, counted and totalled, and shown on a map with a weather overlay. This project models
the logic of that front end and proves what it guarantees.

| file | module | models |
|---|---|---|
| `wrappers.dfy` | `Wrappers` | `Option`, for JavaScript's `null` and `NaN` |
| `seqs.dfy` | `Seqs` | subsequences, occurrence counts, dropping one position (the `filter` idioms the components use) |
| `jsstring.dfy` | `JsString` | the ECMAScript string built-ins the dashboard relies on: `toLowerCase`, `includes`, `replace(/[\$,]/g, "")`, `parseInt` |
| `reports.dfy` | `Reports` | the report record shared by the admin dashboard and the map |
| `badges.dfy` | `Badges` | `getStatusColor` and `getSeverityColor` (identical in both dashboards) |
| `admin_dashboard.dfy` | `AdminDashboard` | the four seeded reports, `filteredReports`, `stats` with the cost total |
| `dashboard.dfy` | `Dashboard` | the citizen dashboard's three seeded reports and its three counters |
| `map_view.dfy` | `MapView` | marker colours, one marker per report, click selection, the mock weather and the rain-overlay guard |
| `browser.dfy` | `Browser` | the browser `File` (name, MIME type, size) |
| `report_issue.dfy` | `ReportIssue` | the report wizard as a class `ReportWizard`: step, form, submission flag, estimate, coordinates |
| `cloudinary_upload.dfy` | `CloudinaryUpload` | the upload widget as a class `Uploader`: the URL list, the busy flags, the screening of a batch and the sequential upload loop |

The report wizard and the upload widget keep state that their handlers update step by step, so
each is a class. Each `useState` becomes a field and each event handler becomes a method with a
`modifies` clause. Timer callbacks become methods of
their own (`CompleteAnalysis`, `CompleteSubmit`) that the environment calls later. The map
view's state (the fetched weather and the selected report) is small, so it is a value,
`ViewState`, and each handler is a function from the old state to the new one. The admin
dashboard's two filter selects only feed the filter, so they are its parameters. Everything
else is pure and is written as functions and lemmas. Integers are unbounded. The cost total is
exact as long as it stays below 2^53, which it does for the seeded data. JavaScript's `NaN`
is `None`, and it propagates through the sum the way `NaN + x` does.

Inputs the source gets from the platform are parameters:
- the result of the geolocation request (`GeoOutcome`), with its coordinates already formatted;
- which step of the upload loop throws, if one does (`Fault`);
- the analysis result, which is any one of the three canned results (the source picks at random).

Two behaviours are easy to miss, and the model follows the code in both. Submitting a report
appends it to no list: the timer only shows the confirmation step. The wizard's photo input is
a plain file input that records the first file; it does not use the upload widget.

## Model

| member | source | states |
|---|---|---|
| `JsString.ToLowerCase` | src/pages/AdminDashboard.tsx:120-121 | the length is kept, every character that is not an upper-case letter is kept, each upper-case letter becomes the lower-case letter at the same place in the alphabet, and no upper-case letter is left |
| `JsString.ToLowerCaseIdempotent` | src/pages/AdminDashboard.tsx:120-121 | lower-casing twice is lower-casing once |
| `JsString.Includes` | src/pages/AdminDashboard.tsx:120 | `includes` holds exactly when the needle occurs at some position of the haystack |
| `JsString.StripDollarsAndCommas` | src/pages/AdminDashboard.tsx:131 | the result is a subsequence of the input, holds no `$` or `,`, and holds every other character exactly as often as the input does |
| `JsString.StripAppend` | src/pages/AdminDashboard.tsx:131 | the global replace works character by character: stripping a concatenation strips each part |
| `JsString.StripDollarsAndCommasClean` | src/pages/AdminDashboard.tsx:131 | a string with no `$` or `,` is left as it is, so stripping twice is stripping once |
| `JsString.TrimStart` | src/pages/AdminDashboard.tsx:131 | `parseInt` starts reading at the first character that is not ECMAScript white space |
| `JsString.TrimStartDropsLeadingWhiteSpace` | src/pages/AdminDashboard.tsx:131 | the trimmed string is the suffix of the input after its leading run of white space, and everything dropped is white space |
| `JsString.DigitPrefixIsLongest` | src/pages/AdminDashboard.tsx:131 | `parseInt` reads the longest run of digits of the radix, stopping at the first non-digit |
| `JsString.ParseInt` | src/pages/AdminDashboard.tsx:131 | a number comes out only if the string holds a decimal digit; a string whose first character is not white space, a sign or a digit is NaN |
| `JsString.DecimalDigitsValue` | src/pages/AdminDashboard.tsx:131 | the decimal numeral of `n` has value `n` |
| `JsString.ParseIntOfDigits` | src/pages/AdminDashboard.tsx:131 | a non-empty string of decimal digits parses to its value |
| `JsString.ParseIntDecimalString` | src/pages/AdminDashboard.tsx:131 | `parseInt` inverts the decimal rendering of every natural number |
| `AdminDashboard.FilteredReports` | src/pages/AdminDashboard.tsx:119-123 | the result is a subsequence of the reports that keeps exactly those whose lower-cased type includes the type filter (or filter `all`) and whose lower-cased severity equals the severity filter (or `all`) |
| `AdminDashboard.FilterAppend` | src/pages/AdminDashboard.tsx:119-123 | filtering distributes over concatenation |
| `AdminDashboard.FilterAllIsIdentity` | src/pages/AdminDashboard.tsx:27-28 | with both selects on their initial `all`, every report is listed in order |
| `AdminDashboard.FilterIdempotent` | src/pages/AdminDashboard.tsx:119-123 | filtering an already filtered list changes nothing |
| `AdminDashboard.PotholeFilter` | src/pages/AdminDashboard.tsx:119-123 | the `pothole` filter keeps exactly the reports whose type contains "pothole" once lower-cased, whatever their severity |
| `AdminDashboard.CostOf` | src/pages/AdminDashboard.tsx:131 | a report's cost is a number only if its cost text holds a decimal digit, and a cost text without `$` or `,` is parsed as written |
| `AdminDashboard.Costs` | src/pages/AdminDashboard.tsx:131 | one parsed cost per report, position by position |
| `AdminDashboard.SumCosts` | src/pages/AdminDashboard.tsx:131 | the `reduce` total is a number exactly when every cost parsed |
| `AdminDashboard.SumCostsAppend` | src/pages/AdminDashboard.tsx:131 | the total over a concatenation is the sum of the totals |
| `AdminDashboard.CostsAppend` | src/pages/AdminDashboard.tsx:131 | parsing costs distributes over concatenation |
| `AdminDashboard.SumCostsSingle` | src/pages/AdminDashboard.tsx:131 | the total over one cost is that cost (the initial `0` adds nothing) |
| `AdminDashboard.TotalCostSnoc` | src/pages/AdminDashboard.tsx:131 | the `reduce` step: the total with one more report adds that report's parsed cost |
| `AdminDashboard.SumCostsOfFour` | src/pages/AdminDashboard.tsx:131 | the total of four costs is the left-to-right chain of additions starting from 0 |
| `AdminDashboard.TotalCostOfFour` | src/pages/AdminDashboard.tsx:131 | the total over four reports is the left-to-right sum of their four parsed costs |
| `AdminDashboard.StatusCoverage` | src/pages/AdminDashboard.tsx:127-129 | the three status counts add up to at most the number of reports, and to exactly that number when every status is Pending, In Progress or Resolved |
| `AdminDashboard.NoHighSeverity` | src/pages/AdminDashboard.tsx:130 | the high-severity count is zero exactly when no report has severity `High` |
| `AdminDashboard.ComputeStats` | src/pages/AdminDashboard.tsx:125-132 | `total` is the number of reports; `pending`, `inProgress` and `resolved` are the exact numbers of reports with that status, and `highSeverity` of reports with severity `High`; `totalCost` is the total of the parsed costs; each counter is at most the total; the three status counters sum to the total exactly when every status is one of the three; `highSeverity` is zero exactly when no report is `High` |
| `AdminDashboard.StripExample` | src/pages/AdminDashboard.tsx:131 | "$1,200" is stripped to "1200" |
| `AdminDashboard.ParseExample` | src/pages/AdminDashboard.tsx:131 | "1200" parses to 1200 |
| `AdminDashboard.DollarAmount` | src/pages/AdminDashboard.tsx:131 | a cost written `$` followed by a decimal numeral parses to that number |
| `AdminDashboard.SeedCost0` | src/pages/AdminDashboard.tsx:43 | the first seeded cost "$450" parses to 450 |
| `AdminDashboard.SeedCost1` | src/pages/AdminDashboard.tsx:57 | the second seeded cost "$280" parses to 280 |
| `AdminDashboard.SeedCost2` | src/pages/AdminDashboard.tsx:71 | the third seeded cost "$1,200" parses to 1200 |
| `AdminDashboard.SeedCost3` | src/pages/AdminDashboard.tsx:85 | the fourth seeded cost "$180" parses to 180 |
| `AdminDashboard.SeedTotalCost` | src/pages/AdminDashboard.tsx:31-88 | the seeded reports total 2110 |
| `AdminDashboard.SeedStatusColumn` | src/pages/AdminDashboard.tsx:31-88 | the seeded statuses, in order |
| `AdminDashboard.SeedSeverityColumn` | src/pages/AdminDashboard.tsx:31-88 | the seeded severities, in order |
| `AdminDashboard.SeedCounts` | src/pages/AdminDashboard.tsx:31-88 | the seeded statuses and severities, and how often each counted value occurs |
| `AdminDashboard.SeedStats` | src/pages/AdminDashboard.tsx:125-132 | the seeded statistics are 4 reports, 1 pending, 2 in progress, 1 resolved, 2 high severity, 2110 total cost |
| `Badges.StatusBadge` | src/pages/AdminDashboard.tsx:101-108 | `success` exactly for Resolved, `warning` exactly for In Progress, `destructive` exactly for Pending, `secondary` exactly for anything else |
| `Badges.SeverityBadge` | src/pages/AdminDashboard.tsx:110-117 | `destructive` exactly for High, `warning` exactly for Medium, `secondary` exactly for everything else (Low included) |
| `Badges.BadgeRanges` | src/pages/AdminDashboard.tsx:101-117 | the status badge is one of four variants and the severity badge one of three |
| `Dashboard.Summarize` | src/pages/Dashboard.tsx:109-150 | the total is the number of reports; resolved, in progress and high are the exact numbers of reports with that status or severity; each counter is at most the total; resolved plus in progress is at most the total; resolved is zero exactly when no report is resolved; high equals the total exactly when every report is high |
| `Dashboard.SeedStatusColumn` | src/pages/Dashboard.tsx:14-45 | the seeded statuses, in order |
| `Dashboard.SeedSeverityColumn` | src/pages/Dashboard.tsx:14-45 | the seeded severities, in order |
| `Dashboard.SeedSummary` | src/pages/Dashboard.tsx:14-45 | the three seeded reports yield 1 resolved, 1 in progress and 2 high severity |
| `Dashboard.BadgeTables` | src/pages/Dashboard.tsx:47-63 | the citizen dashboard's badge tables are the admin ones: each listed value and the default map as in the source |
| `MapView.MarkerColor` | src/components/MapView.tsx:100-107 | red exactly for High, amber exactly for Medium, green exactly for Low, grey exactly for anything else |
| `MapView.MarkerColorRange` | src/components/MapView.tsx:100-107 | the colour is one of four, and the match is case-sensitive (`high` is grey) |
| `MapView.Markers` | src/components/MapView.tsx:171-176 | one marker per report, and the `i`-th marker carries the `i`-th report |
| `MapView.MarkersPerReport` | src/components/MapView.tsx:171-176 | one marker per report, in order, with the report's id, position and severity colour |
| `MapView.WeatherArrives` | src/components/MapView.tsx:80-97 | the effect stores the mock weather and leaves the selection alone |
| `MapView.ClickMarker` | src/components/MapView.tsx:177-180 | a marker click selects that marker's report and passes the same report to the parent |
| `MapView.ViewDetails` | src/components/MapView.tsx:204 | the popup button passes the report to the parent without changing the selection |
| `MapView.ClickSelectsItsReport` | src/components/MapView.tsx:171-180 | clicking the `i`-th marker selects and reports the `i`-th report |
| `MapView.WeatherLayer` | src/components/MapView.tsx:48-63 | no layer before the weather has arrived; afterwards a layer holding at most one rectangle, present exactly when precipitation is positive |
| `MapView.RainShownIff` | src/components/MapView.tsx:49-55 | the rain overlay is drawn exactly when weather is known and its precipitation is positive |
| `MapView.MockWeatherShowsRain` | src/components/MapView.tsx:84-91 | no overlay at first; once the mock weather (15 % precipitation) arrives, the overlay is drawn |
| `ReportIssue.EmptyDraftDisablesBoth` | src/pages/ReportIssue.tsx:121-131 | a cleared form enables neither Continue nor Submit |
| `ReportIssue.ContinueNeedsAllThree` | src/pages/ReportIssue.tsx:245 | clearing any one of type, severity and description disables Continue |
| `ReportIssue.GuardsReadTheirOwnStep` | src/pages/ReportIssue.tsx:245-310 | Continue (line 245) ignores the photo and the location, and Submit (line 310) ignores type, severity and description |
| `ReportIssue.SelectChoicesEnableContinue` | src/pages/ReportIssue.tsx:27-40 | any issue type and any severity the two selects offer, with a description, enable Continue |
| `ReportIssue.EstimateFor` | src/pages/ReportIssue.tsx:77-85 | pothole, waterlogged and sewage each get their own estimate, every other type gets the municipal-engineers default, the four texts differ, and of the selectable types `drain` and `road` get the default |
| `ReportIssue.ReportWizard.constructor` | src/pages/ReportIssue.tsx:15-25 | step 1, an empty form, not submitting, no estimate, no coordinates |
| `ReportIssue.ReportWizard.SetIssueType` | src/pages/ReportIssue.tsx:200 | only the type field changes |
| `ReportIssue.ReportWizard.SetSeverity` | src/pages/ReportIssue.tsx:216 | only the severity field changes |
| `ReportIssue.ReportWizard.SetDescription` | src/pages/ReportIssue.tsx:236 | only the description field changes |
| `ReportIssue.ReportWizard.Continue` | src/pages/ReportIssue.tsx:241-245 | step 1 becomes step 2 exactly when type, severity and description are all non-empty; nothing else changes |
| `ReportIssue.ReportWizard.Back` | src/pages/ReportIssue.tsx:303 | step 2 becomes step 1; the form, the estimate and the submission flag are untouched |
| `ReportIssue.ReportWizard.SetLocationText` | src/pages/ReportIssue.tsx:284 | only the location field changes |
| `ReportIssue.ReportWizard.SelectImage` | src/pages/ReportIssue.tsx:70-76 | a non-empty selection changes only the image (to the first file) and starts an analysis for the type as it is now; an empty selection changes nothing |
| `ReportIssue.ReportWizard.CompleteAnalysis` | src/pages/ReportIssue.tsx:76-86 | the oldest pending analysis sets the estimate for the type it captured |
| `ReportIssue.ReportWizard.RequestLocation` | src/pages/ReportIssue.tsx:42-67 | a fix stores the coordinates and writes them into the location field; an error or missing geolocation changes nothing |
| `ReportIssue.ReportWizard.StartSubmit` | src/pages/ReportIssue.tsx:306-310 | submission starts exactly when an image is attached, the location is non-empty and no submission is pending |
| `ReportIssue.ReportWizard.CompleteSubmit` | src/pages/ReportIssue.tsx:94-101 | the flag is cleared and step 3 is shown; the form is not modified |
| `ReportIssue.ReportWizard.Reset` | src/pages/ReportIssue.tsx:121-131 | back to step 1 with all five form fields cleared and no estimate |
| `CloudinaryUpload.ValidFiles` | src/components/CloudinaryUpload.tsx:90-92 | the files whose MIME type is accepted and whose size is at most 10 MiB are kept in their relative order, each as often as it was selected, and no other file is |
| `CloudinaryUpload.ValidFilesAppend` | src/components/CloudinaryUpload.tsx:90-92 | each file is judged on its own: screening a concatenation screens each part |
| `CloudinaryUpload.AllValidKept` | src/components/CloudinaryUpload.tsx:90-92 | a batch of valid files is kept whole |
| `CloudinaryUpload.DefaultPropsLimits` | src/components/CloudinaryUpload.tsx:25-26 | with the default props, six valid files are refused as too many, and a GIF is never valid |
| `CloudinaryUpload.Screen` | src/components/CloudinaryUpload.tsx:86-110 | a missing list is ignored; a batch without a valid file is rejected; a batch that would pass `maxFiles` is rejected; otherwise the valid files are accepted and fit |
| `CloudinaryUpload.FreshUrls` | src/components/CloudinaryUpload.tsx:65-84 | `k` uploads create `k` URLs, none made before the counter's starting value, in strictly increasing creation order, so all distinct |
| `CloudinaryUpload.FreshUrlsSnoc` | src/components/CloudinaryUpload.tsx:65-84 | one more upload appends the URL made from the next counter value |
| `CloudinaryUpload.AppendFresh` | src/components/CloudinaryUpload.tsx:65-84 | appending the URL made from the counter, then advancing the counter, keeps every URL of the list distinct and already created |
| `CloudinaryUpload.AnalyzeImage` | src/components/CloudinaryUpload.tsx:35-62 | the analysis is one of the three canned results |
| `CloudinaryUpload.EachSeverityOnce` | src/components/CloudinaryUpload.tsx:40-59 | each of Low, Medium and High comes from exactly one canned result |
| `CloudinaryUpload.AppendedCount` | src/components/CloudinaryUpload.tsx:114-139 | a batch keeps every URL when nothing fails; when file `i` fails, the URLs of the `i` files before it stay, plus file `i`'s own exactly when its upload had already finished |
| `CloudinaryUpload.NotifiedCount` | src/components/CloudinaryUpload.tsx:115-128 | the parent hears about at most the files whose URL was kept, about all of them when nothing fails, and when file `i` fails about the `i` files before it, plus file `i` exactly when only its callback threw |
| `CloudinaryUpload.Uploader.SelectDisabled` | src/components/CloudinaryUpload.tsx:184 | outside an upload the button is disabled exactly when no batch can be accepted: on a full list every batch is refused, otherwise any single valid file would be accepted |
| `CloudinaryUpload.Uploader.constructor` | src/components/CloudinaryUpload.tsx:23-30 | an empty list, both flags clear, the given `maxFiles` and accepted types |
| `CloudinaryUpload.Uploader.HandleFileSelect` | src/components/CloudinaryUpload.tsx:86-145 | a rejected batch changes nothing; an accepted one appends one fresh URL per valid file in order and notifies the parent once per finished file, in the same order, with the URL that file appended and a canned analysis; URLs from before a failure stay; both flags end cleared; the list never exceeds `maxFiles` |
| `CloudinaryUpload.Uploader.UploadAll` | src/components/CloudinaryUpload.tsx:112-144 | the loop over the accepted files appends `AppendedCount` fresh URLs, notifies about `NotifiedCount` files with their own URLs, reports failure exactly when the fault hits a file, and ends with both flags cleared and the list within `maxFiles` |
| `CloudinaryUpload.Uploader.RemoveImage` | src/components/CloudinaryUpload.tsx:147-149 | exactly the entry at the index is dropped, the rest keep their order, and an index outside the list changes nothing |
| `Seqs.DropPositionInRange` | src/components/CloudinaryUpload.tsx:148 | filtering out an index inside the list removes exactly that element |
| `Seqs.DropPositionOutOfRange` | src/components/CloudinaryUpload.tsx:148 | filtering out an index outside the list keeps the list |
| `Seqs.Occurrences` | src/pages/AdminDashboard.tsx:127-130 | the `filter(...).length` count is the multiplicity of the key; it is zero exactly when the key is absent and the length exactly when every entry is the key |
| `Seqs.OccurrencesOfTwo` | src/pages/Dashboard.tsx:122-136 | counts of two distinct values sum to at most the length |
| `Seqs.OccurrencesOfThree` | src/pages/AdminDashboard.tsx:127-129 | counts of three distinct values sum to at most the length, with equality exactly when every entry is one of them |

## Left out

- Rendering: JSX, the progress bar, icons, toasts' wording and navigation (`navigate`, logout) are not modelled. The toasts that pick a branch appear only as `SelectOutcome`.
- Timing: `setTimeout` and the awaited delays are atomic steps. The pending analyses fire in selection order, since they all use the same delay.
- Interleaving: `RemoveImage` running while a batch is still uploading is not modelled. `HandleFileSelect` is one atomic step, and the select button is disabled while it runs.
- `Math.random` in the analysis is a nondeterministic choice among the canned results. `URL.createObjectURL` is a counter that yields a fresh URL.
- `ReportIssue.ReportWizard.RequestLocation`: the `toFixed(6)` formatting of the coordinates is an input, because it is floating-point formatting. The callback is applied at once, at step 2, instead of arriving asynchronously.
- The confirmation ID made from `Date.now()` (src/pages/ReportIssue.tsx:114) is not modelled, because it depends on the clock.
- `toLocaleDateString`/`toLocaleString` are not modelled, because they are locale formatting.
- The overlay's `fillOpacity`, the Leaflet layer group, map bounds and the custom marker icon are reduced to the rain rectangle's presence and colour.
- `JsString.ToLowerCase`: only ASCII letters are lower-cased; the full Unicode case mapping is not modelled.
- `JsString.ParseInt`: the result is an unbounded integer. A digit string beyond 2^53 would lose precision in a JavaScript number.
- `AdminDashboard.SumCosts`: a finite total that exceeds the double range is not modelled.
- The map's popup badges (src/components/MapView.tsx:189-194) and the admin dashboard's own weather card are display only and are not modelled.
- src/services/api.ts (an HTTP client no page calls) is not part of this model.
- src/pages/Login.tsx (a timer and a role-based redirect) is not part of this model.
- src/pages/Landing.tsx (static content) is not part of this model.
- `CloudinaryUpload.Uploader.constructor`: `maxFiles` is a natural number. A negative or fractional prop value is not modelled.
- `CloudinaryUpload.Uploader.HandleFileSelect`: the parent's callback takes the URL and the analysis. Whatever the parent does with them is outside the component.
