# Crime-rate prediction: map, prediction page and prediction service

This project models the logic of three parts of a crime-risk web application and proves properties about it in Dafny.

- **The India crime map** (`IndiaMap`). A fixed table gives each state a crime-rate figure and a tier. When the SVG map loads, every `<path>` with a non-empty `title` gets three listeners:
  - mouse-enter shows a tooltip for a tabled state;
  - mouse-leave hides the tooltip;
  - click toggles the selected state and sets that path's stroke width.

  `MapView` is a class with the component's three state cells (`tooltipContent`, `tooltipPosition`, `selectedState`), plus the loaded document's paths and the listeners bound to each path. The listeners are its methods. Each listener remembers the selection as it was when the document loaded, as the source's closures do.
- **The prediction page** (`Prediction`). Several helpers turn a risk level into a text colour, a badge style, a badge label, a progress-bar background and an advisory text. All of them use the rule shared in `RiskTier`: 70 or more is high, 40 or more medium, anything lower low. The page also has the time-frame label and the breakdown colour tables. `PredictionForm` is a class holding the form state, driven by the district picker and the two halves of `handlePredict` (before and after the `await`). The HTTP call is an opaque `Received(payload)` or `Failed` response.
- **The prediction service** (`Backend`). `POST /api/predict` does the following:
  - checks the four parameters and reports the missing ones in a fixed order, with status 400;
  - draws a base risk from a per-state range, looked up by the lower-cased state name, with a default range;
  - scales the risk by a crime-type multiplier and caps it at 100;
  - fills in percentage splits whose last share is the remainder to 100.

  Each `random.uniform(lo, hi)` is a parameter constrained to `[lo, hi]`.

`Basics` holds the `Option` and `Result` datatypes.

The model keeps these behaviours as the code has them, although a reader of the component might expect otherwise:

- Leaving a region clears only the tooltip text. The stored position is kept.
- Titled paths with no table row still get the leave and click listeners. Only the tooltip is guarded by the table lookup.
- A click does not reset the stroke of the previously selected region.
- The table is not consistent with the 70/40 thresholds: Tamil Nadu has figure 40 but tier low.

## Model

| member | source | states |
|---|---|---|
| RiskTier.ClassifyThresholds | src/pages/Prediction.tsx:81-85 | a level is high iff it is at least 70, medium iff it is in [40, 70), low iff it is below 40; the boundaries go to the higher tier |
| RiskTier.ClassifyMonotone | src/pages/Prediction.tsx:81-91 | a higher level never falls in a lower tier |
| Prediction.RiskClass | src/pages/Prediction.tsx:81-85 | the text colour is the colour of the tier the shared rule assigns (red, amber, green) |
| Prediction.RiskBadge | src/pages/Prediction.tsx:87-91 | the badge style is the style of the tier the shared rule assigns |
| Prediction.BadgeLabel | src/pages/Prediction.tsx:219-221 | the badge text is "High/Medium/Low Risk" for the tier the shared rule assigns |
| Prediction.ProgressBackground | src/pages/Prediction.tsx:233-235 | the progress-bar background follows the same tier |
| Prediction.AdvisoryLevel | src/pages/Prediction.tsx:410-412 | the advisory text (High Caution / Increased Awareness / Standard Precautions) follows the same tier |
| Prediction.DisplaysAgree | src/pages/Prediction.tsx:81-91 | for every level and tier, each of the five displays shows that tier iff the level classifies to it, so all five agree |
| Prediction.TimeframeLabel | src/pages/Prediction.tsx:214-216 | the label is one of four periods, and "next 3 months" exactly when the value is none of immediate, week, month |
| Prediction.TimeframeOptionsDistinct | src/pages/Prediction.tsx:171-174 | the four time frames the form offers map to four different periods |
| Prediction.BreakdownColour | src/pages/Prediction.tsx:250-254 | the colour is one of four, and gray exactly when the share is none of Theft, Violence, Cyber |
| Prediction.ServiceBreakdownColours | src/pages/Prediction.tsx:242-254 | the service's four shares are drawn red, amber, blue and gray, in that order |
| Prediction.EnabledButtonPassesGuard | src/pages/Prediction.tsx:182 | the button is enabled iff all four fields are filled in and nothing is loading, so an enabled click passes the guard |
| Prediction.GuardMatchesService | src/pages/Prediction.tsx:45 | the page's guard passes iff the service finds no parameter missing |
| Prediction.PredictionForm.constructor | src/pages/Prediction.tsx:30-36 | all fields start empty, nothing is loading and no result is shown |
| Prediction.PredictionForm.HandleLocationChange | src/pages/Prediction.tsx:38-42 | sets the location to the district and the state to the district's state, and nothing else |
| Prediction.PredictionForm.SelectCrimeType | src/pages/Prediction.tsx:150 | sets only the crime type |
| Prediction.PredictionForm.SelectTimeframe | src/pages/Prediction.tsx:166 | sets only the time frame |
| Prediction.PredictionForm.StartPredict | src/pages/Prediction.tsx:44-64 | with a field empty it sends nothing and leaves loading unchanged; otherwise it sets loading and posts the four fields |
| Prediction.PredictionForm.CompletePredict | src/pages/Prediction.tsx:66-78 | loading ends on success and on failure; a success stores the payload and shows it; a failure keeps the previous result |
| Backend.MissingParameters | backend/app.py:30-34 | the appended list equals the missing list of the request |
| Backend.MissingExactly | backend/app.py:29-34 | a parameter is listed iff it is empty; nothing else is listed; the list follows the order location, state, crimeType, timeframe; it is empty iff all four are present |
| Backend.SplitJoin | backend/app.py:35 | splitting on ", " gives back any non-empty list of comma-free names joined with ", " |
| Backend.MessageSeparators | backend/app.py:35 | whenever a parameter is missing, the message is "Missing required parameters: " and then a text that splits on ", " into exactly the missing names, in order, with one comma fewer than there are names |
| Backend.AllMissingMessage | backend/app.py:35 | with every parameter absent, the message names all four, comma-separated, after "Missing required parameters: " |
| Backend.StateRange | backend/app.py:38 | the range is the table's entry for the lower-cased state, or (50, 70) when there is none; either way it is one of the table's ranges or the default, and a proper interval (min < max) |
| Backend.StateRangeBounds | backend/app.py:10-18 | every range has min < max and lies within [45, 80]; the lookup ignores letter case |
| Backend.RiskLevelBounds | backend/app.py:42-50 | the risk level lies in [36, 100]; an unrecognised crime type leaves the base draw unchanged |
| Backend.AssessRisk | backend/app.py:38-50 | the scaled and capped risk is the base draw times the crime type's multiplier, at most 100 |
| Backend.CrimeBreakdown | backend/app.py:53-57 | the shares come in the order Theft, Violence, Cyber, Other and sum to 100; each drawn share is within its range; Other is within [-5, 35] |
| Backend.OtherShareCanBeNegative | backend/app.py:54-57 | with the three drawn shares at their maxima, the Other share is -5 |
| Backend.TimeSplit | backend/app.py:60-64 | the four periods sum to 100 and morning, the remainder, is within [0, 30] |
| Backend.SocioeconomicFactors | backend/app.py:80-84 | exactly three factors, in order, each impact within its range |
| Backend.Predict | backend/app.py:21-87 | an error iff a parameter is missing, with status 400 and the ordered missing list; otherwise a prediction whose risk is at most 100 and whose splits sum to 100, with three factors |
| IndiaMap.TableTiers | src/components/IndiaMap.tsx:10-26 | every tier in the table follows the 70/40 rule except Tamil Nadu's: figure 40, tier low |
| IndiaMap.TooltipTierMatchesLegend | src/components/IndiaMap.tsx:95-108 | capitalising high, medium and low gives the legend's labels High, Medium, Low, in that order |
| IndiaMap.NatToString | src/components/IndiaMap.tsx:54 | the printed figure is a non-empty string of digits with no leading zero |
| IndiaMap.NatToStringRoundTrip | src/components/IndiaMap.tsx:54 | the printed figure reads back as the table's figure |
| IndiaMap.Anchor | src/components/IndiaMap.tsx:56-59 | the anchor is the horizontal centre of the box's top edge |
| IndiaMap.RenderTooltip | src/components/IndiaMap.tsx:81-87 | the tooltip is drawn iff there is content, at the stored x and 70 above the stored y, so always above the stored point |
| IndiaMap.HoverTooltipPlacement | src/components/IndiaMap.tsx:51-87 | the tooltip of a hovered state is at the anchor's x and 70 above its y, the anchor being the centre of the region's top edge in the map document's own coordinates |
| IndiaMap.DocumentAnchorMisplaced | src/components/IndiaMap.tsx:45-87 | unless the map document's viewport sits at the page's origin, the anchor taken from the document's box is not the region's top-edge centre on the page, where the fixed tooltip is drawn |
| IndiaMap.PageTooltipPlacement | src/components/IndiaMap.tsx:51-87 | with the map's offset on the page added in, the tooltip sits centred over the region's top edge on the page, 70 above it |
| IndiaMap.HandlerFor | src/components/IndiaMap.tsx:49-50 | a path gets listeners iff its title is present and non-empty; they close over that title, which is never empty, and the selection at load |
| IndiaMap.Toggle | src/components/IndiaMap.tsx:68 | the new selection is none iff the clicked name is the current selection, and otherwise the clicked name; every click changes the selection |
| IndiaMap.StrokeAfterClick | src/components/IndiaMap.tsx:69-73 | the clicked path gets stroke 4 iff the click selects it and 2 iff it clears the selection |
| IndiaMap.ToggleTwice | src/components/IndiaMap.tsx:68 | two clicks compared with the live selection undo each other |
| IndiaMap.BindingIgnoresStroke | src/components/IndiaMap.tsx:49-72 | setting a path's stroke width does not change the listeners it gets |
| IndiaMap.BindPaths | src/components/IndiaMap.tsx:47-50 | one entry per path; exactly the titled paths get listeners, each bound to its own title and the selection at load |
| IndiaMap.MapView.constructor | src/components/IndiaMap.tsx:29-31 | empty content, position (0, 0), no selection |
| IndiaMap.MapView.OnLoad | src/components/IndiaMap.tsx:44-50 | with no document nothing changes; otherwise the document's paths are bound, each with the current selection |
| IndiaMap.MapView.MouseEnter | src/components/IndiaMap.tsx:51-61 | over a tabled state, sets the tooltip text and anchors it at the box the path has when the pointer enters it; over any other path, changes nothing |
| IndiaMap.MapView.MouseEnterCorrected | src/components/IndiaMap.tsx:51-61 | as intended: the same as `MouseEnter`, except that the box is moved by the map's offset on the page before anchoring |
| IndiaMap.MapView.MouseLeave | src/components/IndiaMap.tsx:63-65 | any titled path clears the content and hides the tooltip; the position is unchanged |
| IndiaMap.MapView.Click | src/components/IndiaMap.tsx:67-74 | applies the toggle to the selection remembered at load; sets this path's stroke only; every other path is unchanged |
| IndiaMap.MapView.ClickCorrected | src/components/IndiaMap.tsx:67-74 | applies the toggle to the current selection, resets the previously selected state's paths, and keeps only the selected state emphasised |
| IndiaMap.HoverLeaveScenario | src/components/IndiaMap.tsx:51-65 | hovering Punjab shows its tooltip at (120, 130); leaving hides it and keeps the anchor (120, 200) |
| IndiaMap.OffsetTooltipScenario | src/components/IndiaMap.tsx:45-87 | as written, with the map at (200, 150) on the page, Punjab's tooltip is drawn at (120, 130) while Punjab's top edge is centred at (320, 350) on the page |
| IndiaMap.CorrectedTooltipScenario | src/components/IndiaMap.tsx:45-87 | corrected, Punjab's tooltip is drawn at (320, 280), centred 70 above its top edge on the page |
| IndiaMap.UntabledRegionScenario | src/components/IndiaMap.tsx:50-74 | an untabled titled region shows no tooltip but can still be selected |
| IndiaMap.StaleSelectionScenario | src/components/IndiaMap.tsx:67-73 | as written, two clicks on Punjab leave it selected with stroke 4 |
| IndiaMap.CorrectedSelectionScenario | src/components/IndiaMap.tsx:67-73 | corrected, the second click on Punjab clears the selection and sets stroke 2 |
| IndiaMap.StaleEmphasisScenario | src/components/IndiaMap.tsx:67-74 | as written, clicking Punjab and then Kerala leaves both at stroke 4 |
| IndiaMap.CorrectedEmphasisScenario | src/components/IndiaMap.tsx:67-74 | corrected, clicking Punjab and then Kerala emphasises Kerala only |

## Left out

- run.py (process launching, output polling, opening a browser) is not part of this model. It is pure process I/O.
- The dashboard, landing page, navigation bar and footer are not part of this model. They are static markup, chart data and a menu toggle.
- The `fetch` call, JSON decoding, `toast` and `console.error` are not modelled. The response is an opaque `Received(payload)` or `Failed`.
- The districts module is not part of this model. `getDistrictState` is passed to `HandleLocationChange` as a function. `getStateDisplayName`, used only in the result header's text, is left out.
- The disabled state picker (Prediction.tsx:134) cannot be changed by the user, so it has no method.
- The SVG object, `contentDocument`, `getElementsByTagName`, `addEventListener` and `getBoundingClientRect` are not modelled. The document is a sequence of path records (title, stroke width); an event names the index of the path it fires on, and `mouseenter` also receives the bounding box the path has at that moment, in the map document's own viewport.
- The page layout is not modelled: where the map document's viewport sits on the page (after the heading, the paragraph, the centred column and any scrolling) is a parameter `origin` of `MouseEnterCorrected`, and `MouseEnter`, like the source, does not translate the document's coordinates into the page's.
- Unmounting the map, and listeners left on a replaced document, are not modelled.
- Colours and class strings beyond those the tier and colour helpers return are not modelled.
- `random.uniform` draws are parameters constrained to their intervals. The order in which Python consumes the generator is not modelled. Rounding to two decimals is dropped: arithmetic is over `real`.
- Flask routing, CORS, `jsonify` and the catch-all exception handler (app.py:88-89) are not modelled. Request fields that are JSON `null` or not strings are not modelled either: a field is a string, and an absent key reads as "".
- Backend.ToLower: lower-cases ASCII letters only, whereas Python's `str.lower` also lowers non-ASCII letters, some of them to ASCII. For example U+212A KELVIN SIGN lowers to `k`, so "Karnataka" spelled with it gets (45, 65) from the service but (50, 70) from `StateRange`. Unicode case tables are not modelled.
- IndiaMap.Upper: upper-cases ASCII letters only. The table's tier names are all ASCII.
- IndiaMap.NatToString: prints whole numbers only. Every figure in the table is a whole number, and JavaScript's number-to-string conversion is not modelled beyond that.
- The legend's colour swatches (IndiaMap.tsx:98-106) are styling and are not modelled. Only the legend's labels and their order are.

## Findings

| source | as written | input that shows it | evidently intended | confidence | as-written member | corrected member |
|---|---|---|---|---|---|---|
| src/components/IndiaMap.tsx:67-73 | the click listener compares the clicked name with `selectedState` as captured when the map loaded, so the comparison never sees later clicks | load the map with nothing selected, then click Punjab twice: the selection stays Punjab and the stroke stays 4 | the second click on the selected region clears the selection and resets its stroke to 2 | high; not executed | IndiaMap.StaleSelectionScenario | IndiaMap.MapView.ClickCorrected |
| src/components/IndiaMap.tsx:67-74 | selecting a region sets only that path's stroke and never resets the previously selected region's stroke | click Punjab, then Kerala: both paths have stroke 4 while only Kerala is selected | only the selected region is emphasised; the previous one is reset to stroke 2 | medium; not executed | IndiaMap.StaleEmphasisScenario | IndiaMap.MapView.ClickCorrected |
| src/components/IndiaMap.tsx:45-87 | the anchor comes from `getBoundingClientRect` of a path inside the `<object>`'s own document, so it is in that document's viewport, while the tooltip is `position: fixed` in the page's viewport | the map sits below the heading and the paragraph, say at (200, 150) on the page; hovering Punjab, whose box is (100, 200, 40, 30) in the map, draws the tooltip at (120, 130) instead of (320, 280) | the map's own position on the page is added to the box before anchoring, so the tooltip sits 70 above the hovered region | medium; not executed | IndiaMap.OffsetTooltipScenario | IndiaMap.MapView.MouseEnterCorrected |
