# Coastal Sentinel hazard reporting — a Dafny model of the client-side logic

This project models the decision logic of a community hazard-reporting web
client:

- the **report wizard**: the type-selection page acquires the reporter's
  location (status `loading`, then `success` or `error`) and builds a place
  name from a reverse lookup; a hazard card opens the details page only once
  the location is acquired; the details page renders the type's fields from
  the hazard catalog, keeps a photo, a field map and a description, and
  hands a time-stamped report to the review page once a photo exists; the
  review page shows a badge, the field entries under labels made from their
  keys, and conditional sections, and submitting always lands on the
  thank-you page;
- the **map page**'s filter of reports by checked type and time period, the
  "time ago" text, the marker colour lookup and the type checkboxes;
- the **alert subscription page**'s preferences, its checkbox list of hazard
  types and the configuration record assembled on save.

The current time, the browser's geolocation capability and position
outcome, the reverse lookup's outcome, and the picture already read as a
data URL are parameters of the operations that use them.

Layout, one module per file:

| file | module | what it holds |
|---|---|---|
| common.dfy | `Common` | `Option`, JavaScript truthiness of an optional string, subsequences |
| text.dfy | `Text` | decimal printing of integers and the parser that undoes it |
| id_list.dfy | `IdList` | the checkbox handler shared by the map filter and the alert page |
| catalog.dfy | `Catalog` | the per-type field catalog and the selectable ids |
| location.dfy | `Location` | location status, place name, hazard-card guard |
| report_form.dfy | `ReportForm` | details-page guard, field map, slider and button semantics, the report record |
| report_review.dfy | `ReportReview` | review guard, badge label, key labels, value text, sections |
| wizard.dfy | `Wizard` | class `ReportWizard`: the page on screen and each page's state |
| map_page.dfy | `MapPage` | report filter, time-ago text, marker colour, class `MapFilters` |
| alerts.dfy | `Alerts` | configuration assembly, class `AlertSettings` |

The model follows the code as written, including where it differs from what
the pages evidently intend:

- The review page prints a slider entry's stored index ("2"), while the
  details page's own "Selected" badge shows the option label ("Large Patch")
  for the same value; see Findings.
- The details page starts with an empty photo, field map and description
  every time it is entered, so going back from the review page does not keep
  the entered values.
- Submitting has no failure outcome.
- A late location result is not guarded against a newer request.

## Model

| member | source | states |
|---|---|---|
| Catalog.CatalogWellFormed | src/pages/ReportFormPage.tsx:13-119 | every catalog entry has at least one field, field names are unique, every field has four distinct options, each label is longer than one character, and every slider runs from 0 to the last option's index (0..3) |
| Catalog.SelectableIdsAreCatalogKeys | src/pages/ReportPage.tsx:9-58 | the six ids offered on the type-selection page are exactly the keys of the form catalog |
| Location.FirstTruthy | src/pages/ReportPage.tsx:87 | `city \|\| town \|\| village` is the first truthy part, and absent exactly when none is truthy |
| Location.PlaceName | src/pages/ReportPage.tsx:87-89 | "<city>, <state>" with city the first present of city, town, village, when both parts are present; "Your Location" otherwise; never empty |
| Location.NameAfterLookup | src/pages/ReportPage.tsx:91-96 | a successful reverse lookup names the place by its address parts; a failed one names it "Location Acquired"; the name is never empty |
| Location.HazardSelect | src/pages/ReportPage.tsx:113-119 | a hazard card navigates to "/report/<id>" carrying the position and its name exactly when the status is success, and does nothing otherwise |
| Wizard.Path | src/App.tsx:29-32 | every wizard page lives under "/report" |
| Wizard.ReportWizard.constructor | src/pages/ReportPage.tsx:61-63 | the wizard opens on the type-selection page with status loading, no position and an empty name |
| Wizard.ReportWizard.OpenSelect | src/pages/ReportPage.tsx:61-68 | entering "/report" starts the type-selection page afresh with status loading |
| Wizard.ReportWizard.GetLocation | src/pages/ReportPage.tsx:67-107 | a run ends in exactly one of success or error; without geolocation it is error and no position query is issued; a position gives success with the lookup's name, and a failed lookup still gives success |
| Wizard.ReportWizard.SelectHazard | src/pages/ReportPage.tsx:113-119 | only with status success does choosing a card open the details page for that id with the acquired position and name; otherwise nothing changes |
| Wizard.ReportWizard.OpenForm | src/pages/ReportFormPage.tsx:127-142 | an unknown type or missing location state sends the user to "/report"; otherwise the details page starts with no photo, an empty field map and an empty description |
| Wizard.ReportWizard.CapturePhoto | src/pages/ReportFormPage.tsx:144-153 | a change event with a file stores its picture; one without a file changes nothing |
| Wizard.ReportWizard.Retake | src/pages/ReportFormPage.tsx:159-164 | the photo becomes null and the file input is cleared, which disables "Review Report" |
| Wizard.ReportWizard.SetField | src/pages/ReportFormPage.tsx:166-171 | the field map gets exactly that value under that name, every other entry unchanged, and still holds only values the page's controls produce |
| Wizard.ReportWizard.SetDescription | src/pages/ReportFormPage.tsx:343-349 | the description becomes the typed text and nothing else changes |
| Wizard.ReportWizard.Next | src/pages/ReportFormPage.tsx:173-185 | without a photo nothing happens (the button is disabled); with one the review page receives the type, position, name, photo, field map and description unchanged, stamped with the current time |
| Wizard.ReportWizard.OpenReview | src/pages/ReportReviewPage.tsx:12-17 | without carried report state the user is sent to "/report" (taking the render-time redirect as effective; see Left out); with it the review page shows that report |
| Wizard.ReportWizard.Submit | src/pages/ReportReviewPage.tsx:19-27 | submitting hands over the reviewed report and always ends on "/report/thank-you" |
| ReportForm.FormGuard | src/pages/ReportFormPage.tsx:131-142 | the page renders exactly when the type is one of the six catalog ids and location state was carried, and then with a well-formed catalog entry |
| ReportForm.WithField | src/pages/ReportFormPage.tsx:166-171 | the new map holds the value under the name, has the old keys plus that name, and keeps every other entry |
| ReportForm.WithFieldFits | src/pages/ReportFormPage.tsx:193-237 | storing a slider position in range or a button's label keeps every stored value one of its field's choices |
| ReportForm.EmptyFits | src/pages/ReportFormPage.tsx:128 | the empty field map the page starts from fits every entry |
| ReportForm.SliderPosition | src/pages/ReportFormPage.tsx:194-206 | an untouched slider shows position 0 without storing anything; a moved one shows its stored position |
| ReportForm.HighlightedIndex | src/pages/ReportFormPage.tsx:202-211 | exactly one label under a slider is highlighted: the first while the slider is untouched, otherwise the one at the stored position |
| ReportForm.SliderBadge | src/pages/ReportFormPage.tsx:214-218 | the "Selected" badge appears exactly when a value is stored, and then shows the option label at the stored position |
| ReportForm.ClickReplaces | src/pages/ReportFormPage.tsx:228-237 | clicking a choice button leaves exactly that button selected, adds at most one key and changes no other field |
| ReportReview.HazardLabel | src/pages/ReportReviewPage.tsx:33-40 | the badge shows the mapped label for the six catalog ids and the raw id for anything else; it equals the raw id exactly for unknown ids |
| ReportReview.KeyLabel | src/pages/ReportReviewPage.tsx:123 | the key label is as long as the key plus its number of upper-case letters: one space is added per upper-case letter |
| ReportReview.KeyLabelLowerCase | src/pages/ReportReviewPage.tsx:123 | a key label has no upper-case letter |
| ReportReview.KeyLabelConcat | src/pages/ReportReviewPage.tsx:123 | the transform works letter by letter: the label of a concatenation is the concatenation of the labels |
| ReportReview.KeyLabelRoundTrip | src/pages/ReportReviewPage.tsx:123 | a key without spaces is recovered from its label by dropping each space and upper-casing the next letter |
| ReportReview.KeyLabelOfLowerKey | src/pages/ReportReviewPage.tsx:123 | a key with no upper-case letter is shown unchanged |
| ReportReview.CamelKeyLabel | src/pages/ReportReviewPage.tsx:123 | a key made of lower-case text, one upper-case letter and lower-case text gets a label text with one space before that letter, lower-cased ("animalType" gives "animal type") |
| ReportReview.RawValueText | src/pages/ReportReviewPage.tsx:125 | a button's value is shown as stored; a slider's position is shown as its decimal digits, with no leading zero, which read back as the position |
| ReportReview.SliderShownAsIndex | src/pages/ReportReviewPage.tsx:120-126 | for every catalog slider and every position, the shown text is none of the slider's option labels |
| ReportReview.RawSizeExample | src/pages/ReportReviewPage.tsx:120-126 | oil-spill size at position 2 is shown as "2", not "Large Patch" |
| ReportReview.LabelledValueText | src/pages/ReportFormPage.tsx:214-218 | the intended display: a slider position shown as the label of that option, a button's label as stored, always one of the field's options |
| ReportReview.LabelledShowsPick | src/pages/ReportFormPage.tsx:166-171 | with the intended display every entry of a field map built on the details page is shown as the option the user picked |
| ReportReview.LabelledOilSpillExample | src/pages/ReportFormPage.tsx:18-30 | with the intended display oil-spill {size: 1, color: "Black"} shows "Small Slick" and "Black" |
| ReportReview.Summarize | src/pages/ReportReviewPage.tsx:70-140 | the card shows the badge label, the photo section only with a photo, one row per field entry (key label text, raw value) only when there is an entry, and the description only when it is not empty |
| ReportReview.ReviewGuard | src/pages/ReportReviewPage.tsx:12-17 | the card is rendered exactly when report state was carried |
| Text.IntToString | src/pages/MapPage.tsx:140-141 | an integer prints as a minus sign exactly when negative, followed by digits with no leading zero that read back as its magnitude |
| Text.NatToString | src/pages/MapPage.tsx:140-141 | a natural number prints as at least one digit with no leading zero |
| Text.ParseNatToString | src/pages/MapPage.tsx:140-141 | reading back the printed digits gives the number |
| Text.NatToStringInjective | src/pages/MapPage.tsx:140-141 | different numbers print differently |
| IdList.Without | src/pages/MapPage.tsx:190 | filtering an id out removes every occurrence, keeps every occurrence of every other id (same multiset minus the id) and keeps the order |
| IdList.Toggle | src/pages/Alerts.tsx:30-36 | checking appends the id at the end; unchecking removes every occurrence of the id and keeps every occurrence of the other ids, in order |
| IdList.CheckThenUncheck | src/pages/Alerts.tsx:30-36 | checking then unchecking an id that was not selected restores the list |
| IdList.UncheckIdempotent | src/pages/Alerts.tsx:34 | unchecking twice is the same as unchecking once |
| MapPage.FilterHazards | src/pages/MapPage.tsx:122-133 | the shown reports are a subsequence of the report list in original order; a report is shown exactly when its type is checked and its age matches the period, and then as many times as it occurs in the list |
| MapPage.DayWithinWeek | src/pages/MapPage.tsx:126-130 | "24h" shows exactly the "week" reports narrowed to ages under 86,400,000 ms, so every report kept under "24h" is kept under "week" |
| MapPage.AllShownInitially | src/pages/MapPage.tsx:115-116 | with all six types checked and period "all", every report is shown |
| MapPage.FormatTimeAgo | src/pages/MapPage.tsx:135-142 | the text ends in "h ago" exactly when at least an hour has passed, preceded by the decimal text of the whole hours elapsed; otherwise in "m ago" preceded by the minute count rounded down, which is negative (leading "-") for a report from the future |
| MapPage.WithSuffix | src/pages/MapPage.tsx:140-141 | the count's digits followed by the unit suffix |
| MapPage.MarkerColor | src/pages/MapPage.tsx:67-81 | a known type gets its colour, any other type the "other" colour #6b7280; the colour differs from it exactly for the five named types |
| MapPage.MapFilters.constructor | src/pages/MapPage.tsx:115-116 | initially all six types are checked and the period is "all" |
| MapPage.MapFilters.SetTypeChecked | src/pages/MapPage.tsx:186-192 | a type checkbox toggles its id in the checked list and leaves the period unchanged |
| MapPage.MapFilters.SetTimeFilter | src/pages/MapPage.tsx:157-173 | a radio button sets the period and leaves the checked types unchanged |
| MapPage.MapFilters.ActiveCount | src/pages/MapPage.tsx:310 | the "active reports" count is the number of shown reports, at most the number of reports |
| Alerts.Channel | src/pages/Alerts.tsx:47-48 | a channel's address is saved exactly when the channel is on, else null |
| Alerts.AssembleConfig | src/pages/Alerts.tsx:41-50 | enabled, selected ids, location and radius are copied unchanged; email and SMS addresses only when their channel is on |
| Alerts.AlertSettings.constructor | src/pages/Alerts.tsx:21-28 | alerts off, no type selected, email on, SMS off, radius 10, empty inputs |
| Alerts.AlertSettings.ToggleHazard | src/pages/Alerts.tsx:30-36 | a hazard checkbox toggles its id and changes nothing else |
| Alerts.AlertSettings.SetAlertsEnabled | src/pages/Alerts.tsx:89-92 | the alerts switch sets its flag |
| Alerts.AlertSettings.SetEmailNotifications | src/pages/Alerts.tsx:202-205 | the email switch sets its flag |
| Alerts.AlertSettings.SetSmsNotifications | src/pages/Alerts.tsx:234-237 | the SMS switch sets its flag |
| Alerts.AlertSettings.SetEmail | src/pages/Alerts.tsx:211-219 | the email input sets the address |
| Alerts.AlertSettings.SetPhone | src/pages/Alerts.tsx:242-251 | the phone input sets the number |
| Alerts.AlertSettings.SetLocation | src/pages/Alerts.tsx:118-124 | the location input sets the location |
| Alerts.AlertSettings.SetRadius | src/pages/Alerts.tsx:131-138 | the radius only takes values of its control, 5 to 50, so it always stays in that range |
| Alerts.AlertSettings.Save | src/pages/Alerts.tsx:38-56 | saving happens only with alerts on (the button is disabled otherwise) and every required address filled in, and yields the configuration of the current preferences |

## Left out

- Browser and network input/output: the geolocation query and the reverse-lookup request are not modelled; their outcomes are parameters of `GetLocation`.
- Reading the picture: the FileReader conversion to a data URL is not modelled; the picture is an opaque string given to `CapturePhoto`.
- Asynchrony: the delays of the location query, the lookup and the simulated submission (1000 ms) are not modelled; each operation runs to its end in one step, so the interval in which a started location run is still loading is not a separate state.
- Stale location results: there is no cancellation of an older location run in the code, and the model does not add one.
- MapPage.FilterHazards: takes one current time for the whole list, while the code reads the clock once per report.
- Number formatting: `toFixed(6)` coordinates, locale-dependent date formatting, and the ISO timestamp text; a timestamp is an integer in milliseconds.
- Numbers printed by `Text.IntToString` are exact integers; JavaScript's exponent notation for very large numbers is not modelled.
- Wizard.ReportWizard.OpenReview: assumes the `navigate("/report")` call the review page makes during render (src/pages/ReportReviewPage.tsx:14-16) takes effect. React Router ignores a navigate call made on a component's first render, so as written a visit without report state may instead stay on "/report/review" and render nothing; that outcome is not modelled.
- ReportReview.KeyLabel: lower-cases only the letters A to Z, while JavaScript's `toLowerCase` also lower-cases non-ASCII capitals.
- ReportReview.KeyLabel: is the label text before styling; the page's CSS `capitalize` class and the trailing ":" (src/pages/ReportReviewPage.tsx:122-123), which make "animal type" appear as "Animal Type:", are not modelled.
- The order of field entries on the review page: `Summarize` gives the entries as a set of rows.
- Lookups by a JavaScript object key that names an inherited property (such as "constructor") are not modelled; every lookup sees only the listed keys.
- Browser form validation of the email format on the alert page; only the `required` rule is modelled.
- The generated report id on the thank-you page, the map library (tiles, markers, view control), the route table's matching, and back navigation with the browser history.
- The static pages, the dashboard's mock data and the navigation bar.
- Console logging: the geolocation error (src/pages/ReportPage.tsx:99), the submitted report (src/pages/ReportReviewPage.tsx:21) and the alert configuration (src/pages/Alerts.tsx:52); and the alert page's `alert` pop-up.

## Findings

| source | as written | input that shows it | evidently intended | confidence | as-written member | corrected member |
|---|---|---|---|---|---|---|
| src/pages/ReportReviewPage.tsx:125 | every field value is printed raw, so a slider entry shows its stored index | oil-spill, size at position 2: the review shows "2" | the option label at that position, "Large Patch", as the details page's badge shows (src/pages/ReportFormPage.tsx:216) | medium; not executed | ReportReview.SliderShownAsIndex | ReportReview.LabelledValueText |

The review card model `ReportReview.Summarize` follows the code as written;
`ReportReview.LabelledShowsPick` proves the corrected display shows the
picked option for every entry of a field map built on the details page.
