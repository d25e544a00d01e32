# Tourist safety app: navigation panel and ID verification, in Dafny

This project models two React components of the tourist safety app.

- **The GPS navigation panel** (`GPSNavigation`). It holds its `useState`
  fields, the handlers that update them, and the search effect that React
  runs after a handler has changed `searchQuery`. `Session` is a snapshot of
  the fields, with one function per handler. `Panel` is a class with the same
  fields and one method per handler, each proved to leave the fields equal
  to that function applied to the old snapshot. Around them are:
  - the case-insensitive place search over the five fixed places;
  - the step cursor over the five fixed maneuvers, with the "i+1 of n" badge,
    the current step, the three-step look-ahead window, the Next button's
    disabled rule and the direction icon.
- **The ID verification of the police dashboard** (`PoliceDashboard`):
  - the substring rule that turns an input into one of three fixed records;
  - the `isScanning` / `verificationResult` lifecycle of manual and QR entry;
  - the colour switches and the `+` rule for statistic changes.

  A `setTimeout` callback is modelled as a `Timer` appended to a pending list.
  `FireTimer(k)` runs any pending callback, so every firing order is covered.

Files:
- `wrappers.dfy`: `Option`, for the nullable fields.
- `js_string.dfy`: the JavaScript string operations that are used
  (`trim` emptiness, ASCII `toLowerCase`, `includes`, `startsWith`).
- `location_search.dfy`: the places, the filter and the search effect.
- `step_cursor.dfy`: the maneuvers and everything derived from the step index.
- `gps_navigation.dfy`: the panel's state, handlers, invariant and scenarios.
- `police_dashboard.dfy`: the verification rule, the dashboard state and the
  colour mappers.

The main results:
- The step index always stays within `0 .. 4` (`RunKeepsInv`), so the
  current step always exists (`CurrentStepDefined`).
- The search results are always what the search effect computes for the
  current query: empty for a blank query, the filter of the fixed places
  otherwise. The dropdown is never shown for a blank query (`RunKeepsInv`).
- The Next button moves by exactly one or is disabled (`NextIndexSpec`).
- The look-ahead is `steps[i+1 .. min(i+4, n))` and never holds the current
  step (`UpcomingWindow`, `UpcomingExcludesCurrent`).
- Typing "Taj Mahal", picking the Agra entry from the dropdown, pressing
  Start and then the X button leaves the panel navigating with no
  destination (`NavigatingWithoutDestination`).
- Verification follows branch order, and surrounding text never downgrades a
  recognised ID (`Classify`, `ClassifyInContext`).
- A QR scan always completes with the valid Emma Wilson record
  (`ScanCompletes`).

### Behaviour of the code worth knowing

- **Selecting a place** hides the dropdown and sets the query to the
  place's name. The search effect then runs again and shows the dropdown
  once more, unless the name already was the query or is blank
  (`SelectDestinationSpec`).
- **The X button** clears the query and the destination at any time, also
  while navigating, so the panel can navigate with no destination
  (`NavigatingWithoutDestination`).
- **Start and stop** have no preconditions. Start without a destination does
  nothing, and stop works in any state. The buttons are only rendered in
  some states, but that does not constrain the handlers.
- **Nothing beyond the fixed data.** There is no route provider, trip
  summary or stale-response guard, and the step list is fixed. Start reads
  neither the route options nor the current location
  (`StartIgnoresLocationAndOptions`).
- **The untrimmed query.** A query that trims to nothing clears and hides
  the results. Any other query is filtered as typed, untrimmed.

## Model

| member | source | states |
|---|---|---|
| JsString.TrimStart | src/components/GPSNavigation.tsx:128 | the result is a suffix of the input that starts with a non-whitespace character (or is empty), and every removed character is whitespace |
| JsString.TrimEnd | src/components/GPSNavigation.tsx:128 | the result is a prefix of the input that ends with a non-whitespace character (or is empty), and every removed character is whitespace |
| JsString.TrimEmptyIffBlank | src/components/GPSNavigation.tsx:128 | `s.trim()` is empty exactly when every character of `s` is JavaScript whitespace; this is the test of the search effect and of manual verification |
| JsString.LowerChar | src/components/GPSNavigation.tsx:130-131 | the lowercased character is never an upper-case ASCII letter; letters move by 32 and every other character is kept |
| JsString.IncludesItself | src/components/GPSNavigation.tsx:130 | every string includes itself |
| JsString.IncludesCharacters | src/components/GPSNavigation.tsx:130-131 | a string that includes `t` contains every character of `t` |
| JsString.IncludesInContext | src/components/PoliceDashboard.tsx:126 | text added before and after a string never hides a substring it includes |
| LocationSearch.FilterMembership | src/components/GPSNavigation.tsx:129-132 | a place is in the filtered list exactly when it is in the input list and its lowercased name or address includes the lowercased query |
| LocationSearch.FilterAppend | src/components/GPSNavigation.tsx:129-132 | filtering distributes over concatenation, so the results keep the list's order |
| LocationSearch.FilterNone | src/components/GPSNavigation.tsx:129-132 | when no place matches, the filtered list is empty |
| LocationSearch.SearchEffectSpec | src/components/GPSNavigation.tsx:127-139 | a blank query gives empty, hidden results; any other query shows exactly the fixed places that match it |
| LocationSearch.MissesTajMahal | src/components/GPSNavigation.tsx:129-132 | a place whose name and address each lack a letter of the lowercased "Taj Mahal" does not match that query |
| LocationSearch.IndiaGateMisses | src/components/GPSNavigation.tsx:54 | the New Delhi entry does not match "Taj Mahal" |
| LocationSearch.GatewayOfIndiaMisses | src/components/GPSNavigation.tsx:55 | the Mumbai entry does not match "Taj Mahal" |
| LocationSearch.HawaMahalMisses | src/components/GPSNavigation.tsx:56 | the Jaipur entry does not match "Taj Mahal" |
| LocationSearch.MysorePalaceMisses | src/components/GPSNavigation.tsx:57 | the Mysore entry does not match "Taj Mahal" |
| LocationSearch.TajMahalFilter | src/components/GPSNavigation.tsx:52-58 | filtering the fixed places by "Taj Mahal" keeps only the Agra entry |
| LocationSearch.TajMahalQuery | src/components/GPSNavigation.tsx:127-139 | the query "Taj Mahal" shows exactly the Agra entry |
| StepCursor.StepCountIsLength | src/components/GPSNavigation.tsx:60-96 | the fixed maneuver list has five steps |
| StepCursor.NextIndexSpec | src/components/GPSNavigation.tsx:171-175 | Next moves forward by exactly one when it is enabled, does nothing exactly when the button is disabled (line 433), and keeps the index valid |
| StepCursor.AdvanceLands | src/components/GPSNavigation.tsx:171-175 | k presses of Next from a valid index land on min(i + k, n - 1) |
| StepCursor.AdvanceToLast | src/components/GPSNavigation.tsx:171-175 | from the first step, n - 1 or more presses reach the last step, where Next is disabled and does nothing |
| StepCursor.FourPressesShowLastStep | src/components/GPSNavigation.tsx:380 | on the five steps, four presses give the badge "5 of 5" and a fifth press changes nothing |
| StepCursor.BadgeInRange | src/components/GPSNavigation.tsx:380 | the badge of a valid index counts from 1 up to the number of steps |
| StepCursor.CurrentStep | src/components/GPSNavigation.tsx:389-398 | `steps[i]?` is defined exactly for a valid index, and is then the step at that index |
| StepCursor.Slice | src/components/GPSNavigation.tsx:409 | `slice(start, end)` clamps both bounds to the list (counting negative bounds from the end) and returns the elements between them, in order |
| StepCursor.UpcomingWindow | src/components/GPSNavigation.tsx:409 | the upcoming steps are `steps[i+1 .. min(i+4, n))`, in order, and there are min(3, n - 1 - i) of them |
| StepCursor.MockStepIdsDistinct | src/components/GPSNavigation.tsx:60-96 | the five fixed steps have distinct ids |
| StepCursor.UpcomingExcludesCurrent | src/components/GPSNavigation.tsx:409 | with distinct ids, neither the current step nor any step before it is upcoming |
| StepCursor.DirectionIcon | src/components/GPSNavigation.tsx:177-184 | left, right and u-turn each get their own icon, and everything else (including undefined) gets the up arrow |
| StepCursor.DirectionIconsDistinct | src/components/GPSNavigation.tsx:177-184 | two step directions get the same icon only when they are the same direction, and only "straight" gets the up arrow |
| GpsNavigation.InitialInv | src/components/GPSNavigation.tsx:99-111 | the state on mount satisfies the invariant: a valid step index, results consistent with the query, and the dropdown shown only for a non-blank query |
| GpsNavigation.CommitKeepsSearchConsistent | src/components/GPSNavigation.tsx:127-139 | setting the query and letting the effect run (only when the query changed) leaves the results consistent with the new query |
| GpsNavigation.TypeQueryKeepsInv | src/components/GPSNavigation.tsx:259 | typing in the search box keeps the invariant |
| GpsNavigation.SelectDestinationKeepsInv | src/components/GPSNavigation.tsx:153-157 | selecting a place keeps the invariant |
| GpsNavigation.ClearSearchKeepsInv | src/components/GPSNavigation.tsx:264-267 | the X button keeps the invariant |
| GpsNavigation.ApplyKeepsInv | src/components/GPSNavigation.tsx:153-175 | every handler (locate, type, select, start, stop, next, clear, the three checkboxes) keeps the invariant |
| GpsNavigation.RunKeepsInv | src/components/GPSNavigation.tsx:106 | after any sequence of events the invariant holds; in particular 0 <= currentStepIndex <= 4 |
| GpsNavigation.StartNavigationSpec | src/components/GPSNavigation.tsx:159-164 | start does nothing without a destination; with one it sets navigating and resets the index to 0 whatever it was, and changes nothing else |
| GpsNavigation.StartIgnoresLocationAndOptions | src/components/GPSNavigation.tsx:159-164 | start reads neither the current location nor the route options |
| GpsNavigation.StopNavigationSpec | src/components/GPSNavigation.tsx:166-169 | stop clears navigating and resets the index to 0, and keeps the destination, the query and the route options |
| GpsNavigation.StopThenStartRestarts | src/components/GPSNavigation.tsx:159-169 | stopping and starting again restarts from the first step |
| GpsNavigation.SelectDestinationSpec | src/components/GPSNavigation.tsx:153-157 | selecting sets the destination and the query to the place's name, and leaves navigation, the route options and the current location alone; if the name was already the query the dropdown stays hidden; if the name differs from the query and is not blank, the dropdown is shown and holds the place exactly when the place is one of the fixed ones |
| GpsNavigation.ClearSearchSpec | src/components/GPSNavigation.tsx:264-267 | the X button empties the query, drops the destination, and leaves the results empty and hidden; every other field, navigation included, is kept |
| GpsNavigation.NavigatingWithoutDestination | src/components/GPSNavigation.tsx:259-267 | typing "Taj Mahal" shows exactly the Agra entry in the dropdown; selecting it, pressing Start and then the X button (rendered since the query is not empty) leaves the panel navigating with no destination |
| GpsNavigation.CurrentStepDefined | src/components/GPSNavigation.tsx:389-398 | in every state the handlers produce, `mockNavigationSteps[currentStepIndex]?` is defined |
| GpsNavigation.RouteOptionsIndependent | src/components/GPSNavigation.tsx:346-364 | each checkbox sets its own flag to the box's value, keeps the other two flags, and changes nothing else in the session |
| GpsNavigation.Panel.constructor | src/components/GPSNavigation.tsx:99-111 | the fields start as on mount, with the invariant |
| GpsNavigation.Panel.RunSearchEffect | src/components/GPSNavigation.tsx:127-139 | the effect overwrites the results and the visibility with the search outcome for the current query, and nothing else |
| GpsNavigation.Panel.SetSearchQuery | src/components/GPSNavigation.tsx:127-139 | setting the query runs the effect exactly when the query changed |
| GpsNavigation.Panel.HandleLocate | src/components/GPSNavigation.tsx:114-124 | the mock location timer sets the current location to the fixed "Your Location" place |
| GpsNavigation.Panel.HandleQueryChange | src/components/GPSNavigation.tsx:259 | the search box's onChange commits the query and keeps the invariant |
| GpsNavigation.Panel.HandleDestinationSelect | src/components/GPSNavigation.tsx:153-157 | the fields end as `SelectDestination` of the old state, with the invariant |
| GpsNavigation.Panel.HandleStartNavigation | src/components/GPSNavigation.tsx:159-164 | the fields end as `StartNavigation` of the old state, with the invariant |
| GpsNavigation.Panel.HandleStopNavigation | src/components/GPSNavigation.tsx:166-169 | the fields end as `StopNavigation` of the old state, with the invariant |
| GpsNavigation.Panel.HandleNextStep | src/components/GPSNavigation.tsx:171-175 | the index moves as `NextIndex` on the five steps, with the invariant |
| GpsNavigation.Panel.HandleClearSearch | src/components/GPSNavigation.tsx:264-267 | the fields end as `ClearSearch` of the old state, with the invariant |
| GpsNavigation.Panel.HandleFastestRouteChange | src/components/GPSNavigation.tsx:346 | only the fastest-route flag changes, to the box's value |
| GpsNavigation.Panel.HandleAvoidTollsChange | src/components/GPSNavigation.tsx:355 | only the avoid-tolls flag changes, to the box's value |
| GpsNavigation.Panel.HandleAvoidHighwaysChange | src/components/GPSNavigation.tsx:364 | only the avoid-highways flag changes, to the box's value |
| GpsNavigation.Panel.ProgressBadge | src/components/GPSNavigation.tsx:380 | the badge shown is "i+1 of 5", with 1 <= i+1 <= 5 |
| GpsNavigation.WalkThroughAllSteps | src/components/GPSNavigation.tsx:153-175 | calling the select and start handlers, then the Next handler four times, shows "5 of 5", and a fifth call still shows "5 of 5" |
| GpsNavigation.ClearWhileNavigating | src/components/GPSNavigation.tsx:264-267 | on the panel object, calling the select, start and clear handlers in turn leaves it navigating with a null destination |
| PoliceDashboard.Classify | src/components/PoliceDashboard.tsx:124-168 | the result is valid exactly when the input includes 'GA-UK-001-2024' or 'TID-001234'; suspicious exactly when it includes only 'ST-US-002-2024'; invalid otherwise; never expired; risk low exactly when valid; an invalid record carries the input verbatim |
| PoliceDashboard.ClassifyIssuesRecord | src/components/PoliceDashboard.tsx:126-167 | every verification yields Emma Wilson's record, James Smith's record or the unknown record of the input, and that record classifies to itself again from its own ID |
| PoliceDashboard.SuspiciousIdIsSuspicious | src/components/PoliceDashboard.tsx:140-153 | 'ST-US-002-2024' on its own gives James Smith's suspicious record |
| PoliceDashboard.QrCodeIsValid | src/components/PoliceDashboard.tsx:126-139 | 'GA-UK-001-2024' classifies as Emma Wilson's valid, low-risk record |
| PoliceDashboard.TouristIdBeatsSuspicious | src/components/PoliceDashboard.tsx:126-140 | an input holding both 'TID-001234' and 'ST-US-002-2024', in either order, is classified valid, because of branch order |
| PoliceDashboard.ClassifyInContext | src/components/PoliceDashboard.tsx:126-154 | text around a valid input keeps it valid, and text around a suspicious input leaves it valid or suspicious, never invalid |
| PoliceDashboard.SeverityColor | src/components/PoliceDashboard.tsx:189-196 | high is red, medium orange, low yellow, each exactly; every other key is grey |
| PoliceDashboard.IncidentStatusColor | src/components/PoliceDashboard.tsx:198-206 | active is red, investigating orange, responded blue, resolved green, each exactly; every other key is grey |
| PoliceDashboard.TouristStatusColor | src/components/PoliceDashboard.tsx:208-215 | emergency is red, caution orange, safe green, each exactly; every other key is grey |
| PoliceDashboard.VerificationStatusColor | src/components/PoliceDashboard.tsx:217-225 | valid is green, expired orange, invalid and suspicious red, and only suspicious pulses; every other key is grey |
| PoliceDashboard.VerificationBadge | src/components/PoliceDashboard.tsx:217-225 | a record's status word never falls to grey, is green exactly for valid, and pulses exactly for suspicious |
| PoliceDashboard.ChangeColor | src/components/PoliceDashboard.tsx:251 | a change is green exactly when it starts with '+', and red otherwise |
| PoliceDashboard.ChangeColors | src/components/PoliceDashboard.tsx:66-71 | of the four statistic changes, '+12%' and '+2' are green and '-8%' and '-15%' are red; an unsigned '0%' and '' are red too |
| PoliceDashboard.InitialInv | src/components/PoliceDashboard.tsx:61-63 | the state on mount satisfies the dashboard invariant: while scanning no result is shown and a callback is pending, and any result shown is a record that its own ID classifies to |
| PoliceDashboard.ManualVerificationKeepsInv | src/components/PoliceDashboard.tsx:181-187 | manual verification keeps the invariant |
| PoliceDashboard.ScanQRKeepsInv | src/components/PoliceDashboard.tsx:173-179 | starting a QR scan keeps the invariant |
| PoliceDashboard.VerifyKeepsInv | src/components/PoliceDashboard.tsx:124-125 | scheduling a verification keeps the invariant |
| PoliceDashboard.FireKeepsInv | src/components/PoliceDashboard.tsx:125-170 | any pending callback firing keeps the invariant |
| PoliceDashboard.ManualVerificationSpec | src/components/PoliceDashboard.tsx:181-187 | a blank input changes nothing; any other raises the flag, clears the result, and schedules the verification of the input exactly as typed, untrimmed |
| PoliceDashboard.TrimmedEmptyIgnored | src/components/PoliceDashboard.tsx:182 | an input whose `trim()` is empty is ignored |
| PoliceDashboard.CompletionSpec | src/components/PoliceDashboard.tsx:125-170 | every completion lowers the flag, shows the classification of its input, and removes only itself from the pending list |
| PoliceDashboard.ScanCompletes | src/components/PoliceDashboard.tsx:173-179 | from any state, a QR scan raises the flag and clears the result; its callback schedules 'GA-UK-001-2024'; that completion shows Emma Wilson's record with the flag lowered and the other pending callbacks untouched |
| PoliceDashboard.Dashboard.constructor | src/components/PoliceDashboard.tsx:61-63 | the fields start empty, null and not scanning, with the invariant |
| PoliceDashboard.Dashboard.SetVerificationInput | src/components/PoliceDashboard.tsx:61 | only the input field changes |
| PoliceDashboard.Dashboard.HandleVerification | src/components/PoliceDashboard.tsx:124-125 | appends the completion callback for the input, and changes nothing else |
| PoliceDashboard.Dashboard.HandleScanQR | src/components/PoliceDashboard.tsx:173-179 | the fields end as `ScanQR` of the old state, with the invariant |
| PoliceDashboard.Dashboard.HandleManualVerification | src/components/PoliceDashboard.tsx:181-187 | the fields end as `ManualVerification` of the old state, with the invariant |
| PoliceDashboard.Dashboard.FireTimer | src/components/PoliceDashboard.tsx:125-178 | the fields end as `Fire` of the old state for that callback, with the invariant |
| PoliceDashboard.ScanToCompletion | src/components/PoliceDashboard.tsx:173-179 | on a new dashboard, scanning and letting both delays elapse shows the valid, low-risk 'GA-UK-001-2024' record with the flag lowered |

## Left out

- JsString.LowerChar: `toLowerCase` is modelled for ASCII letters only. Other characters keep their case, so a query with non-ASCII capitals can match differently.
- Time: the 1000, 2000 and 3000 ms delays are not modelled. The mock location timer is the `LocationFound` event. A verification or scan callback is a pending `Timer` that `FireTimer` may run in any order, so an order real delays would rule out is also covered.
- The map type selector, the map grid and route line, the icons and all markup and Tailwind strings are left out. The colour mappers keep only the colour category and the pulsing variant that each class string encodes. The statistic `colorMap` is presentation and is left out.
- Coordinates are kept as stored values (`real`) and never computed with.
- `handleUseCurrentLocation` and `handleChooseStartingPoint` only write to the console, so they are not modelled.
- `src/components/Gpslocation.js` (browser geolocation and a `fetch`) is I/O, so it is not part of this model.
- The dashboard's static statistics, incident and tourist arrays, `selectedFilter`, `searchTerm` and `showVerificationDialog` are left out. Nothing in the shown code changes them. Only their four change strings ('+12%', '-8%', '+2', '-15%') appear, in `ChangeColors`.
- PoliceDashboard.Dashboard.SetVerificationInput: the markup that edits `verificationInput` is not in the shown file. The method models the state setter alone.
- The hardcoded trip figures and the `icon` element of each maneuver are display only. The panel draws maneuver icons with `getDirectionIcon`.
