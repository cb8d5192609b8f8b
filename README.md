# PoultryWatch dashboard: decision rules and form state

A Dafny model of the logic inside the PoultryWatch farm-monitoring dashboard.
The dashboard is a mobile UI over fixed mock data. Its logic is a handful of
decision rules and two small forms:

- the environmental card's range classifier for temperature and humidity
  (`EnvironmentalMonitor`);
- the standards-comparison dialog's percentage rule and status mappings
  (`StandardsComparison`);
- the historical dialog's table rows (cell texts, highlight, trend icon), summary figures and
  date-range state (`HistoricalData`);
- the reports page's three-way performance-status split (`Reports`);
- the PDF report's status text and colour, its `yPos` layout counter and
  analysis loop, and its file name (`PdfGenerator`);
- the sign-in form and its validation (`Auth`);
- the data-entry form, its field edits, its submit handler (which does no
  validation of its own) with its reset, and its role-dependent view
  (`DataEntry`).

`IsoDates` models the `toISOString().split('T')[0]` idiom that three of these
use. `Wrappers` holds `Option`. Numbers are reals and strings are `seq<char>`.
The clock, number-to-text conversion and the drawing library are parameters
or left out.

Three things the code does not do, which a reader might expect of a performance dashboard:

- There is no aggregate score and no tier derived from thresholds. The
  dialog's "87/100" and every row's status are literals.
- `getPercentage` infers its direction on each call. It has no fixed
  per-metric direction and no zero-division guard.
- The humidity colour asymmetry is in the colour of the icon only. Both
  badges are "destructive" whenever the reading is not optimal.

The PDF's separator, analysis heading and first analysis line are at y = 135,
150 and 160, as the increments in the code give them.

## Model

| member | source | states |
|---|---|---|
| `IsoDates.DatePart` | src/pages/DataEntry.tsx:19 | the result is the longest prefix of the timestamp that holds no 'T' (prefix, no 'T', followed by 'T' or the end) |
| `IsoDates.DatePartOfTimestamp` | src/components/HistoricalDataModal.tsx:30-31 | for a timestamp `day + "T" + time` with no 'T' in `day`, the date part is exactly `day` |
| `EnvironmentalMonitor.TempOptimal` | src/components/EnvironmentalMonitor.tsx:13 | defines `tempOptimal`: 20 to 30 °C with both ends included (its agreement with the label is `TempStatusClassifies`) |
| `EnvironmentalMonitor.HumidityOptimal` | src/components/EnvironmentalMonitor.tsx:14 | defines `humidityOptimal`: 50 to 70 % with both ends included (its agreement with the label is `HumidityStatusClassifies`) |
| `EnvironmentalMonitor.TempStatus` | src/components/EnvironmentalMonitor.tsx:16-20 | defines `getTempStatus` as early returns, cold tested first; its three-way split is `TempStatusClassifies`, its colours and icon `StatusColours` |
| `EnvironmentalMonitor.HumidityStatus` | src/components/EnvironmentalMonitor.tsx:22-26 | defines `getHumidityStatus` as early returns, dry tested first; its split is `HumidityStatusClassifies`, its colours and icon `StatusColours` |
| `EnvironmentalMonitor.BadgeVariant` | src/components/EnvironmentalMonitor.tsx:49-76 | defines the badge variant of either reading from its optimal flag alone; stated per reading in `BadgesFollowOptimality` |
| `EnvironmentalMonitor.ActionMessage` | src/components/EnvironmentalMonitor.tsx:95-107 | defines the "Action Required" box and its nested message choice; characterised in `ActionBoxRules` |
| `EnvironmentalMonitor.Render` | src/components/EnvironmentalMonitor.tsx:11-113 | defines the card's reading-dependent view, the humidity bar unclamped; badges in `BadgesFollowOptimality`, the dashboard instance in `DashboardReadingsNeedNoAction` |
| `EnvironmentalMonitor.TempStatusClassifies` | src/components/EnvironmentalMonitor.tsx:13-20 | 'Too Cold' iff t < 20, 'Too Hot' iff t > 30, 'Optimal' iff `tempOptimal`; no other label |
| `EnvironmentalMonitor.HumidityStatusClassifies` | src/components/EnvironmentalMonitor.tsx:14-26 | 'Too Dry' iff h < 50, 'Too Humid' iff h > 70, 'Optimal' iff `humidityOptimal`; no other label |
| `EnvironmentalMonitor.BoundsAreInclusive` | src/components/EnvironmentalMonitor.tsx:13-14 | 20, 30, 50 and 70 themselves classify as 'Optimal' |
| `EnvironmentalMonitor.StatusColours` | src/components/EnvironmentalMonitor.tsx:16-26 | both temperature failures are destructive; too dry is warning, too humid destructive; success and the check icon exactly when optimal |
| `EnvironmentalMonitor.BadgesFollowOptimality` | src/components/EnvironmentalMonitor.tsx:49-76 | each badge is "default" iff its reading is optimal, else "destructive", including the too-dry case whose icon is warning-coloured |
| `EnvironmentalMonitor.TempProgress` | src/components/EnvironmentalMonitor.tsx:61 | the progress value lies in [0, 100] and equals 2.5·t on 0..40 °C |
| `EnvironmentalMonitor.TempProgressMonotone` | src/components/EnvironmentalMonitor.tsx:61 | the progress value is non-decreasing in the temperature |
| `EnvironmentalMonitor.TempProgressSaturates` | src/components/EnvironmentalMonitor.tsx:61 | 0 at or below 0 °C, 100 at or above 40 °C |
| `EnvironmentalMonitor.ActionBoxRules` | src/components/EnvironmentalMonitor.tsx:95-107 | the action box appears iff a reading is off; "both" text iff both are off, temperature text iff only temperature, humidity text iff only humidity |
| `EnvironmentalMonitor.DashboardReadingsNeedNoAction` | src/pages/DashboardHome.tsx:18-19 | the dashboard's 28.5 °C and 65 % are both optimal, so no action box is shown |
| `StandardsComparison.StatusIcon` | src/components/StandardsComparisonModal.tsx:62-73 | defines `getStatusIcon`: three recognised statuses, `null` (None) otherwise; characterised in `RecognisedStatuses` and `StatusPresentation` |
| `StandardsComparison.StatusBadge` | src/components/StandardsComparisonModal.tsx:75-86 | defines `getStatusBadge`: a class-named badge for good and warning, the destructive variant for critical, `null` otherwise; characterised in `RecognisedStatuses` and `StatusPresentation` |
| `StandardsComparison.DivisorNonzero` | src/components/StandardsComparisonModal.tsx:90-94 | the divisor the chosen branch of `getPercentage` divides by is nonzero (the precondition of `GetPercentage`) |
| `StandardsComparison.GetPercentage` | src/components/StandardsComparisonModal.tsx:88-95 | the percentage never exceeds 100, for any inputs whose chosen divisor is nonzero |
| `StandardsComparison.PercentageOfPositivesIsFull` | src/components/StandardsComparisonModal.tsx:88-95 | for positive current and standard the result is exactly 100 on either branch |
| `StandardsComparison.PercentageIsSymmetric` | src/components/StandardsComparisonModal.tsx:89-94 | for positive inputs swapping the two arguments gives the same result |
| `StandardsComparison.EveryRowShowsFullPercentage` | src/components/StandardsComparisonModal.tsx:19-60 | every `comparisonData` row has a nonzero divisor and shows 100 |
| `StandardsComparison.PercentageForDirection` | src/components/StandardsComparisonModal.tsx:89-94 | with the metric's direction given, the percentage is in (0, 100] and is 100 iff the reading meets the standard in that direction |
| `StandardsComparison.FcrRowHidesShortfall` | src/components/StandardsComparisonModal.tsx:27-34 | the FCR row, worse than standard, shows 100 as written but less than 100 with its own direction |
| `StandardsComparison.RecognisedStatuses` | src/components/StandardsComparisonModal.tsx:62-86 | icon and badge are present exactly for 'good', 'warning' and 'critical' |
| `StandardsComparison.StatusPresentation` | src/components/StandardsComparisonModal.tsx:62-86 | good gives "Above Standard", warning "Needs Improvement", critical "Critical"; icon colours success, warning, destructive |
| `StandardsComparison.EveryRowHasIconAndBadge` | src/components/StandardsComparisonModal.tsx:19-60 | every row's literal status is one of the three recognised ones |
| `HistoricalData.MortalityClass` | src/components/HistoricalDataModal.tsx:132 | defines the mortality cell's class; characterised in `MortalityHighlight` |
| `HistoricalData.TrendIconOf` | src/components/HistoricalDataModal.tsx:139-145 | defines the trend icon choice; characterised in `TrendMapping` |
| `HistoricalData.TrendClass` | src/components/HistoricalDataModal.tsx:140-144 | defines each icon's class (green up, red down, muted dot); characterised in `TrendColours` |
| `HistoricalData.RenderRow` | src/components/HistoricalDataModal.tsx:130-147 | defines one table row: date, the four cell texts with their suffixes, the highlight and the trend icon with its class |
| `HistoricalData.TableRows` | src/components/HistoricalDataModal.tsx:129-148 | the table has one row per record, in record order, each row the rendering of its own record |
| `HistoricalData.MortalityHighlight` | src/components/HistoricalDataModal.tsx:132 | destructive iff mortality > 3 strictly; 3.0 is success |
| `HistoricalData.TrendMapping` | src/components/HistoricalDataModal.tsx:139-145 | 'up' gives the up icon, 'down' the down icon, anything else the neutral dot |
| `HistoricalData.TrendColours` | src/components/HistoricalDataModal.tsx:139-145 | the row's trend class is the green one iff the trend is 'up' and the red one iff it is 'down' |
| `HistoricalData.TableIgnoresDateRange` | src/components/HistoricalDataModal.tsx:80-83 | the table is the same for every selected date range |
| `HistoricalData.HighlightedRows` | src/components/HistoricalDataModal.tsx:36-41 | exactly the 2nd, 4th and 6th rows are highlighted |
| `HistoricalData.SummaryMatchesTable` | src/components/HistoricalDataModal.tsx:88-113 | 3.05, 1.845 and 0.315 are the exact column means; 2018 is the rounded mean of the total feed |
| `HistoricalData.DateRange.constructor` | src/components/HistoricalDataModal.tsx:29-32 | both ends start as the date parts of the two clock readings |
| `HistoricalData.DateRange.SetFrom` | src/components/HistoricalDataModal.tsx:65 | sets 'from' and leaves 'to' unchanged |
| `HistoricalData.DateRange.SetTo` | src/components/HistoricalDataModal.tsx:75 | sets 'to' and leaves 'from' unchanged |
| `Reports.CardClass` | src/pages/Reports.tsx:86-92 | defines the card class ternary; its three outcomes are `GoodStatusView`, `WarningStatusView` and `OtherStatusView` |
| `Reports.BadgeVariant` | src/pages/Reports.tsx:101-107 | defines the badge variant ternary; outcomes as for `CardClass` |
| `Reports.StatusLabel` | src/pages/Reports.tsx:108-109 | defines the badge label ternary; outcomes as for `CardClass`, shared with the PDF by `StatusTextMatchesReportsPage` |
| `Reports.GoodStatusView` | src/pages/Reports.tsx:86-108 | 'good' gives the success card, badge 'default' and 'On Track' |
| `Reports.WarningStatusView` | src/pages/Reports.tsx:89-109 | 'warning' gives the warning card, badge 'secondary' and 'Needs Attention' |
| `Reports.OtherStatusView` | src/pages/Reports.tsx:15 | any other status, 'alert' included, gives the destructive card, 'destructive' and 'Critical' |
| `Reports.StatusViewsAgree` | src/pages/Reports.tsx:86-110 | card class, badge variant and label always come from the same branch |
| `Reports.BuiltInReportIsOnTrack` | src/pages/Reports.tsx:8-17 | with the built-in data the page shows 'On Track' on a success card |
| `PdfGenerator.StatusColor` | src/utils/pdfGenerator.ts:39-43 | every component of the status colour is in 0..255 |
| `PdfGenerator.StatusColours` | src/utils/pdfGenerator.ts:39-43 | good (34,197,94), warning (234,179,8), anything else (239,68,68) |
| `PdfGenerator.StatusText` | src/utils/pdfGenerator.ts:46-50 | defines `statusText`; equal to the reports page label by `StatusTextMatchesReportsPage` |
| `PdfGenerator.ReportFileName` | src/utils/pdfGenerator.ts:129 | defines the saved file name from the clock reading; characterised in `FileNameOfTimestamp` |
| `PdfGenerator.StatusTextMatchesReportsPage` | src/utils/pdfGenerator.ts:46-50 | the PDF status text equals the reports page's label for every status string |
| `PdfGenerator.HeaderMarks` | src/utils/pdfGenerator.ts:18-56 | defines the title block at its fixed positions, the status text at 58; spelled out position by position in `PageContents` |
| `PdfGenerator.MetricMarks` | src/utils/pdfGenerator.ts:58-98 | defines the metric rows, separator and analysis heading at the positions the counter reaches; spelled out in `PageContents` |
| `PdfGenerator.AnalysisMarks` | src/utils/pdfGenerator.ts:117-120 | one mark per analysis line, line k at y = 160 + 6k when started at 160, in the given order |
| `PdfGenerator.LayoutBody` | src/utils/pdfGenerator.ts:59-120 | the marks the `yPos` counter and the analysis loop produce are exactly `MetricMarks` followed by `AnalysisMarks(analysis, 160)`; `yPos` ends 6 below the last line; the marks run top to bottom |
| `PdfGenerator.GenerateReport` | src/utils/pdfGenerator.ts:14-130 | the page is exactly the header, the metric rows, the eleven analysis lines from 160 and the two footer lines; the status colour; the page runs top to bottom with everything above the footer ending by 226; the file name from the timestamp |
| `PdfGenerator.PageContents` | src/utils/pdfGenerator.ts:18-126 | the page `GenerateReport` draws holds 30 marks: the header (title 20, timestamps 28 and 33, rule 38, status heading 50, status text 58, metrics heading 75), the metric rows at 85 to 115 with values at x = 120, the rule at 135, the analysis heading at 150, line k of the analysis at 160 + 6k, and the footer lines at 280 and 285 |
| `PdfGenerator.PageLayout` | src/utils/pdfGenerator.ts:18-126 | header, body and footer that each run top to bottom and meet in order give a page that runs top to bottom, with the first 28 marks ending by 226 |
| `PdfGenerator.FileNameOfTimestamp` | src/utils/pdfGenerator.ts:129 | the file name is "poultrywatch-report-" + the date before the first 'T' + ".pdf" |
| `Auth.RoleName` | src/components/Auth.tsx:84-91 | defines the two role spellings the select offers; distinct by `RoleNamesDistinct` |
| `Auth.IsComplete` | src/components/Auth.tsx:24 | defines the submit check: both fields non-empty, no trimming; exercised by `WhitespaceNamePasses` and used by `LoginForm.HandleSubmit` |
| `Auth.RoleNamesDistinct` | src/components/Auth.tsx:90-91 | the two roles have distinct, non-empty spellings |
| `Auth.WhitespaceNamePasses` | src/components/Auth.tsx:24 | a blank name passes; an empty name or an empty role fails |
| `Auth.LoginForm.constructor` | src/components/Auth.tsx:16-19 | the form starts with empty name and role |
| `Auth.LoginForm.SetName` | src/components/Auth.tsx:78 | sets the name and keeps the role |
| `Auth.LoginForm.SetRole` | src/components/Auth.tsx:84-85 | sets the role to 'grower' or 'technician' and keeps the name |
| `Auth.LoginForm.HandleSubmit` | src/components/Auth.tsx:22-41 | `onLogin` is called iff both fields are non-empty; otherwise the "Please fill in all fields" toast; on success the payload is the form's name and role unchanged and the toast says "Logged in as " + role |
| `DataEntry.Get` | src/pages/DataEntry.tsx:18-26 | defines field access on `formData`; `Set` and `Initial` are stated through it |
| `DataEntry.Set` | src/pages/DataEntry.tsx:82-188 | an edit replaces exactly its own field and leaves every other field unchanged |
| `DataEntry.Initial` | src/pages/DataEntry.tsx:18-26 | a fresh form has today's date part and every other field empty |
| `DataEntry.DataEntryForm.constructor` | src/pages/DataEntry.tsx:18-26 | the form starts as the fresh form for the clock reading |
| `DataEntry.DataEntryForm.Update` | src/pages/DataEntry.tsx:82-188 | each onChange turns the state into the single-field edit of the old state |
| `DataEntry.DataEntryForm.HandleSubmit` | src/pages/DataEntry.tsx:28-46 | the handler does no validation: it always gives the success toast, and the state becomes the fresh form for the new clock reading |
| `DataEntry.Heading` | src/pages/DataEntry.tsx:53-55 | defines the heading from `isGrowerRole`; characterised in `RoleViews` |
| `DataEntry.RoleBadgeVariant` | src/pages/DataEntry.tsx:56 | defines the role badge variant; characterised in `RoleViews` |
| `DataEntry.RoleBadge` | src/pages/DataEntry.tsx:57 | defines the role badge text; characterised in `RoleViews` |
| `DataEntry.ShowsVerificationPanel` | src/pages/DataEntry.tsx:161-171 | defines when the technician verification panel is rendered; characterised in `RoleViews` |
| `DataEntry.RoleViews` | src/pages/DataEntry.tsx:48-171 | "Daily Data Entry", the "Grower" badge and variant 'default' iff grower; the verification panel iff technician |

## Findings

| source | as written | input that shows it | evidently intended | confidence | as-written member | corrected member |
|---|---|---|---|---|---|---|
| src/components/StandardsComparisonModal.tsx:88-95 | the direction is `current < standard`, so the larger ratio is always chosen and the result is 100 for every positive input | FCR row: current 1.85, standard 1.75 (worse, lower is better) shows 100.0% | the comment's per-metric direction (lower is better for mortality and FCR), giving 1.75/1.85·100 ≈ 94.6 | medium, not executed | `StandardsComparison.PercentageOfPositivesIsFull` | `StandardsComparison.PercentageForDirection` |

The dialog model keeps the as-written `GetPercentage`, because that is what
each row displays. `PercentageForDirection` is the corrected rule, and
`FcrRowHidesShortfall` relates the two on the FCR row.

## Left out

- Aggregate score: the "87/100", "Good Performance" and the row statuses are literals. Nothing computes them.
- Session persistence and navigation: `localStorage`, redirects and `window.location` are browser I/O.
- Simulated connectivity: `Math.random()` at sign-in and in the layout is nondeterministic and only decorative.
- Rendering-only components: the layout, the navigation, the profile page, the chart and the dashboard cards.
- Browser constraint validation on the data-entry form (the `required` date, `step` on the number inputs) can stop a submit before `handleSubmit` runs. It is not modelled: `DataEntry.DataEntryForm.HandleSubmit` is the handler once the browser lets the submit through.
- Toasts are modelled as the value shown. Their display and timing are not modelled.
- `onLogin`'s effect on the session is not modelled. It lives in the router and index pages.
- The clock: `new Date()`, `Date.now()` and `toLocaleDateString()` become ISO-timestamp or text parameters.
- Number-to-text conversion in the PDF (`${n}`) and in the historical table's cells (`{record.mortality}` and the others) is the parameter `show`. `toFixed(1)` on the dialog is not modelled.
- jsPDF drawing: font sizes, colours other than the status colour, the rule's end point, and the horizontal position of centred text (`pageWidth / 2`) are not modelled.
- IEEE floating point: numbers are exact reals. `StandardsComparison.GetPercentage` requires the chosen divisor to be nonzero instead of modelling Infinity or NaN.
- The humidity progress bar shows the reading unclamped. `EnvironmentalMonitor.Render` passes it through, and no property is claimed for it.
