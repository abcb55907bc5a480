# Agriculture IoT dashboard: state store, generators and view logic in Dafny

This project models the logic of a browser dashboard for a small farm. The
dashboard has three fields with pumps, motors, valves and sprinklers, a list
of alerts, a set of automation rules, and a rolling window of live sensor
samples (soil moisture, temperature, humidity, water level).

All data is synthetic. The model covers three parts:

- **The state store** (`store.dfy`, module `Store`).
  - Each store operation has a pure updater: `ToggleDeviceIn`, `AcknowledgeAlertIn`, `AddAlertTo`, `ToggleRuleIn`, `AddRuleTo`, `DeleteRuleFrom` and `TickWindow`.
  - The class `DashboardStore` holds the six state slots as fields. Each method replaces one slot with its updater's result and states the whole new state.
  - A predicate `Integrity` captures the cross-references: each device names its own field, field and device ids are unique, and each rule drives a device of its own field. The seed data satisfies it. Device toggles, rule toggles and rule deletions preserve it. Adding a rule preserves it when the rule names a device of its own field, which the store itself does not check. Rules built by the add-rule dialog always do (`AutomationRules.BuiltRuleKeepsIntegrity`).
- **The generators and lookup** (`mock_data.dfy`, module `MockData`).
  - The seed tables.
  - `GenerateSensorData` and `GenerateHistoricalData`, written as loops.
  - The per-field baseline lookup.
- **The view derivations.** One module per view file:
  - `AlertsPanel`: sorting, the active badge, field names, the compact card.
  - `AlertsSection`: the four alert counts.
  - `HistoryTable`: filter, pages, the page buttons, CSV export. It includes the class `HistoryView` for the table's filter and page state.
  - `OverviewSection`: trends and statuses.
  - `ControlsSection`: device counts and area.
  - `AutomationSection`: rule counts.
  - `AutomationRules`: the rule list and the add-rule form. It includes the class `RuleForm` for the dialog's inputs.

`seqs.dfy` (module `Seqs`) defines the JavaScript array helpers the code relies on:

- `filter`, `find`, and `slice` (negative indices count from the end);
- `join`, and `split` on one character;
- decimal printing of integers.

`types.dfy` (module `Types`) gives the record types. Each string-literal union becomes a datatype:

- device type: pump, motor, valve, sprinkler;
- alert type: warning, critical, info;
- sensor key: one of the four readings;
- operator: less than, greater than, equals.

A rule's `lastTriggered` is an `Option`. Every other field is required.

Randomness and the clock are parameters:

- each `Math.random()` draw is a real in [0, 1);
- "now" is a millisecond timestamp;
- "today" is a day number.

The live window holds 25 samples. The code fills it with `generateSensorData(24)`, which returns 25 hourly samples (lib/mock-data.ts:133), so `DashboardStore.InitSensorData` promises 25. Each tick keeps that length.

The history table's page is not reset when the filter changes. The model keeps that behaviour: `HistoryView.SetFilter` leaves the page alone. The table's "Next" button is modelled as written, so it can move to page 0 (see "## Findings").

## Model

| member | source | states |
|---|---|---|
| MockData.GenerateSensorData | lib/mock-data.ts:129-145 | returns exactly `hours + 1` samples; sample `k` is taken `hours - k` hours before now, so the first is at now − hours h, the last is at now, and neighbours are one hour apart |
| MockData.Round | lib/mock-data.ts:162-165 | `Math.round` lands within half a unit of its argument, halves rounding up |
| MockData.RoundScaledDraw | lib/mock-data.ts:162-165 | for a draw in [0,1), `round(base + draw·spread)` lies in [base, base + spread] |
| MockData.FieldIndex | lib/mock-data.ts:157 | `floor(draw·3)` is a valid index into the three field names |
| MockData.HistoryRecord | lib/mock-data.ts:153-167 | a history record names one of North/South/East Field, has pump status "Active" or "Inactive", readings in [20,70], [18,38], [35,75], [50,95], and a timestamp `day` days back at `hour` o'clock |
| MockData.SlotOf | lib/mock-data.ts:151-152 | the loop's (day, hour) pair is generation slot `(6 − day)·6 + hour/4`, one of 42 |
| MockData.GenerateHistoricalData | lib/mock-data.ts:147-172 | builds 7 × 6 = 42 records and returns exactly 20: record `k` is generation slot `22 + k`, so they are the last twenty in generation order |
| MockData.GeneratedChronological | lib/mock-data.ts:151-156 | a later generation slot always has a later timestamp |
| MockData.GeneratedIdsDistinct | lib/mock-data.ts:151-159 | two different slots always get different `record-day-hour-fieldIndex` ids, whatever the field draws |
| MockData.RecordIdInjective | lib/mock-data.ts:159 | the record id determines its day, hour and field index |
| MockData.GetCurrentSensorValues | lib/mock-data.ts:174-187 | returns the table entry for field-1/2/3 and the field-1 entry for any other id; the result is always a table entry |
| MockData.SeedFieldsHaveBaselines | lib/mock-data.ts:180-184 | the baseline table's keys are exactly the seed field ids |
| Store.FindField | lib/dashboard-context.tsx:53 | `find` by id: none iff no field has the id, else the first field with it |
| Store.DevicesByField | lib/dashboard-context.tsx:105-111 | the devices of the first field with that id, or no devices when none has it |
| Store.ToggleDevices | lib/dashboard-context.tsx:96-100 | every device of the list is flipped and stamped if its id matches, kept otherwise |
| Store.ToggleDeviceIn | lib/dashboard-context.tsx:92-103 | keeps every field's metadata and device count; a device's status changes iff its id matches, a match gets `lastUpdated = now`, every other device is unchanged |
| Store.ToggleUnknownDevice | lib/dashboard-context.tsx:92-103 | an id no device has leaves the fields unchanged |
| Store.ToggleDeviceTwice | lib/dashboard-context.tsx:92-103 | toggling twice restores every status and field |
| Store.SeedIntegrity | lib/mock-data.ts:3-127 | the seed tables satisfy the store's cross-reference invariant |
| Store.SeedDevicesBelong | lib/mock-data.ts:3-38 | every seed device's `fieldId` is its enclosing field's id |
| Store.SeedIdsUnique | lib/mock-data.ts:3-38 | seed field ids are unique, and seed device ids are unique within and across fields |
| Store.SeedRulesReferToDevices | lib/mock-data.ts:76-127 | each seed rule's action names a device of the rule's own field, by its id and its name |
| Store.DevicesByFieldAfterToggle | lib/dashboard-context.tsx:92-111 | looking up a field's devices after a toggle gives the toggled version of the list before it |
| Store.ToggleDeviceKeepsIntegrity | lib/dashboard-context.tsx:92-103 | a device toggle preserves the cross-reference invariant |
| Store.AcknowledgeAlertIn | lib/dashboard-context.tsx:113-119 | keeps length, order and every other alert field; `acknowledged` becomes old value or id match, so it only ever goes to true |
| Store.AcknowledgeIdempotent | lib/dashboard-context.tsx:113-119 | acknowledging twice is the same as once |
| Store.AcknowledgeUnknownAlert | lib/dashboard-context.tsx:113-119 | an unknown id leaves the alerts unchanged |
| Store.AddAlertTo | lib/dashboard-context.tsx:121-127 | one longer; the head is the new alert with id `"alert-" + now`, the tail is the old list |
| Store.ToggleRuleIn | lib/dashboard-context.tsx:129-135 | keeps length, order and every other rule field; `enabled` flips iff the id matches |
| Store.ToggleRuleTwice | lib/dashboard-context.tsx:129-135 | toggling a rule twice restores the list |
| Store.AddRuleTo | lib/dashboard-context.tsx:137-143 | the old rules are an unchanged prefix and the last rule is the new one with id `"rule-" + now` |
| Store.DeleteRuleFrom | lib/dashboard-context.tsx:145-147 | no remaining rule has the id, every rule with another id remains, nothing is added |
| Store.DeleteRuleKeepsOrder | lib/dashboard-context.tsx:145-147 | deleting distributes over concatenation, so the remaining rules keep their order |
| Store.DeleteUnknownRule | lib/dashboard-context.tsx:145-147 | deleting leaves the list unchanged iff no rule has the id |
| Store.ToggleRuleKeepsIntegrity | lib/dashboard-context.tsx:129-135 | toggling a rule preserves the cross-reference invariant |
| Store.DeleteRuleKeepsIntegrity | lib/dashboard-context.tsx:145-147 | deleting a rule preserves the cross-reference invariant |
| Store.AddRuleKeepsIntegrity | lib/dashboard-context.tsx:137-143 | adding a rule that names a device of its field preserves the invariant |
| Store.Clamp | lib/dashboard-context.tsx:71-74 | `max(lo, min(hi, x))` lies in [lo, hi] and is `x` itself when `x` is in range |
| Store.StepIsSmall | lib/dashboard-context.tsx:71-74 | from an in-range value, one random-walk step moves by at most half its scale |
| Store.NextSample | lib/dashboard-context.tsx:69-75 | the appended sample is stamped now and its readings lie in [10,90], [15,45], [20,90], [10,100] |
| Store.TickWindow | lib/dashboard-context.tsx:64-77 | an empty window stays empty; otherwise the length is kept, element 0 is dropped and the next sample is appended |
| Store.TicksKeepLength | lib/dashboard-context.tsx:62-81 | any number of ticks keeps the window's length |
| Store.TickKeepsAscending | lib/dashboard-context.tsx:64-77 | a tick at a time after the newest sample keeps the window in ascending time order |
| Store.DashboardStore.constructor | lib/dashboard-context.tsx:46-51 | starts from the seed tables, field-1 selected, an empty window and the light theme, with the invariant holding |
| Store.DashboardStore.SelectedField | lib/dashboard-context.tsx:53 | the selected field is absent iff no field has the selected id; when present it is one of the fields, carries that id, and its devices are those `getDevicesByField` returns |
| Store.DashboardStore.CurrentSensorValues | lib/dashboard-context.tsx:54 | the current readings are the baseline of the selected field, or of field-1 when the table has no entry for it; always a table entry |
| Store.DashboardStore.InitSensorData | lib/dashboard-context.tsx:57-59 | the mount effect fills the window with `generateSensorData(24)`: 25 samples one hour apart, sample k taken at now − (24 − k) h, so the first is at now − 24 h and the last at now; nothing else changes |
| Store.DashboardStore.SetSelectedFieldId | lib/dashboard-context.tsx:47 | only the selected id changes |
| Store.DashboardStore.ToggleDevice | lib/dashboard-context.tsx:92-103 | only `fields` changes, to the toggled fields; the invariant is kept |
| Store.DashboardStore.AcknowledgeAlert | lib/dashboard-context.tsx:113-119 | only `alerts` changes, to the acknowledged list |
| Store.DashboardStore.AddAlert | lib/dashboard-context.tsx:121-127 | only `alerts` changes, the new alert prepended |
| Store.DashboardStore.ToggleRule | lib/dashboard-context.tsx:129-135 | only the rules change, to the toggled list; the invariant is kept |
| Store.DashboardStore.AddRule | lib/dashboard-context.tsx:137-143 | only the rules change, the new rule appended; the invariant is kept when the rule names a device of its field |
| Store.DashboardStore.DeleteRule | lib/dashboard-context.tsx:145-147 | only the rules change, to the filtered list; the invariant is kept |
| Store.DashboardStore.ToggleDarkMode | lib/dashboard-context.tsx:149-151 | only the theme flag changes, to its negation |
| Store.DashboardStore.Tick | lib/dashboard-context.tsx:62-81 | only the window changes, by one tick, and its length is kept |
| AlertsPanel.SortAlerts | components/dashboard/alerts-panel.tsx:34-37 | the sorted copy is a permutation of the alerts; every unacknowledged alert precedes every acknowledged one, and alerts with the same flag are newest first |
| AlertsPanel.Insert | components/dashboard/alerts-panel.tsx:34-37 | inserting into a sorted list keeps it sorted and adds exactly that alert |
| AlertsPanel.ActiveCount | components/dashboard/alerts-panel.tsx:51 | the "Active" badge is at most the number of alerts, and 0 iff every alert is acknowledged |
| AlertsPanel.AddAlertActiveCount | components/dashboard/alerts-panel.tsx:51 | adding an alert raises the badge by one iff the new alert is unacknowledged |
| AlertsPanel.AcknowledgeActiveCount | components/dashboard/alerts-panel.tsx:51 | acknowledging never raises the badge, and lowers it by the number of alerts with that id when they were all active |
| AlertsPanel.FieldNameOr | components/dashboard/alerts-panel.tsx:39-41 | the first matching field's name, or the fallback when no field matches or the name is empty |
| AlertsPanel.PanelFieldName | components/dashboard/alerts-panel.tsx:39-41 | never blank; "Unknown Field" when no field has the id |
| AlertsPanel.CompactFieldName | components/dashboard/alerts-panel.tsx:141-143 | never blank; "Unknown" when no field has the id |
| AlertsPanel.FieldNamesAgree | components/dashboard/alerts-panel.tsx:141-143 | the panel and the compact card show the same name iff a matching field has a non-empty name |
| AlertsPanel.SeedAlertsNameTheirField | components/dashboard/alerts-panel.tsx:39-41 | every seed alert names a seed field, so the panel never falls back for them |
| AlertsPanel.CompactAlerts | components/dashboard/alerts-panel.tsx:139-147 | at most 3 alerts, `min(3, active)` of them, all unacknowledged, the first ones in store order; empty (nothing rendered) iff every alert is acknowledged |
| AlertsSection.ActiveOfType | components/dashboard/sections/alerts-section.tsx:12-14 | counts unacknowledged alerts of one type; never more than the "Active" badge; 0 iff no alert is both of that type and unacknowledged |
| AlertsSection.CriticalCount | components/dashboard/sections/alerts-section.tsx:12 | the "Critical" card is at most the badge and 0 iff every critical alert is acknowledged |
| AlertsSection.WarningCount | components/dashboard/sections/alerts-section.tsx:13 | the "Warnings" card is at most the badge and 0 iff every warning is acknowledged |
| AlertsSection.InfoCount | components/dashboard/sections/alerts-section.tsx:14 | the "Info" card is at most the badge and 0 iff every info alert is acknowledged |
| AlertsSection.AcknowledgedCount | components/dashboard/sections/alerts-section.tsx:15 | acknowledged plus active alerts make up all alerts |
| AlertsSection.ActiveSplitsByType | components/dashboard/sections/alerts-section.tsx:12-14 | critical + warning + info counts equal the active badge |
| AlertsSection.CountsCoverAllAlerts | components/dashboard/sections/alerts-section.tsx:12-15 | the four summary counts sum to the number of alerts |
| HistoryTable.FilterHistory | components/dashboard/history-table.tsx:32-35 | "all" returns the data unchanged; any other filter returns exactly the records with that field name |
| HistoryTable.FilterHistoryKeepsOrder | components/dashboard/history-table.tsx:32-35 | filtering distributes over concatenation, so records keep their order |
| HistoryTable.PageOf | components/dashboard/history-table.tsx:37-40 | a page is the contiguous run of at most 10 records from index `(page − 1)·10`; page 0 is empty |
| HistoryTable.TotalPages | components/dashboard/history-table.tsx:42 | `ceil(n/10)`: the pages hold all `n` records with the last page non-empty, and there are none iff `n = 0` |
| HistoryTable.PagesUpToIsPrefix | components/dashboard/history-table.tsx:37-42 | pages 1..k together are the first `10k` records |
| HistoryTable.PagesCoverRecords | components/dashboard/history-table.tsx:37-42 | pages 1..totalPages, one after another, reproduce the filtered data |
| HistoryTable.ShowingMatchesPage | components/dashboard/history-table.tsx:137-139 | on pages 1..totalPages the "Showing a to min(page·10, n)" label counts exactly the records on the page |
| HistoryTable.PrevPage | components/dashboard/history-table.tsx:145 | "Prev" never yields a page below 1 and otherwise goes back one |
| HistoryTable.NextPageAsWritten | components/dashboard/history-table.tsx:156 | "Next" as written never exceeds totalPages and advances by one below it |
| HistoryTable.NextAsWrittenReachesPageZero | components/dashboard/history-table.tsx:153-158 | with a filter that matches nothing, "Next" is enabled on page 1 and moves to page 0 |
| HistoryTable.NextPage | components/dashboard/history-table.tsx:156 | the corrected "Next" stays within [1, max(1, totalPages)] and advances by one below the last page |
| HistoryTable.CsvCells | components/dashboard/history-table.tsx:48-57 | a data row has one cell per header: timestamp, field, the four readings, pump status |
| HistoryTable.CsvLines | components/dashboard/history-table.tsx:44-59 | `1 + n` lines: the seven headers comma-joined, then one comma-joined row per record in order |
| HistoryTable.CsvText | components/dashboard/history-table.tsx:44-59 | the exported text starts with the header line, and is that line alone when there are no records |
| HistoryTable.CsvLinesRoundTrip | components/dashboard/history-table.tsx:44-59 | when no cell holds a newline, splitting the CSV text at newlines gives back the header line and the rows, so the text has `1 + n` lines |
| HistoryTable.CsvRowRoundTrip | components/dashboard/history-table.tsx:48-57 | when no cell holds a comma, splitting a row at commas gives back its seven cells |
| HistoryTable.CsvCommaInFieldName | components/dashboard/history-table.tsx:48-57 | cells are not quoted, so a comma in a field name splits the row into more than seven columns |
| HistoryTable.GeneratedRecordsExportCleanly | components/dashboard/history-table.tsx:48-57 | a generated record's row splits back into its seven cells |
| HistoryTable.HeaderLineHasNoNewline | components/dashboard/history-table.tsx:45-47 | the header line holds no newline |
| HistoryTable.HistoryView.constructor | components/dashboard/history-table.tsx:26-30 | the table starts on filter "all", page 1, showing the first ten records |
| HistoryTable.HistoryView.ExportText | components/dashboard/history-table.tsx:44-59 | "Export CSV" writes the whole filtered list, not the page on screen: the text starts with the header line and, when no cell holds a newline, has one line per filtered record after it |
| HistoryTable.HistoryView.SetFilter | components/dashboard/history-table.tsx:78 | choosing a filter changes only the filter; the page is kept |
| HistoryTable.HistoryView.Prev | components/dashboard/history-table.tsx:142-147 | disabled on page 1; otherwise one page back, and from page 0 to page 1; afterwards the page is at least 1 |
| HistoryTable.HistoryView.Next | components/dashboard/history-table.tsx:153-158 | as written: disabled when the page equals the page count, otherwise one page on but never past the page count; with no pages it moves from page 1 to page 0, which shows no rows; the page never goes negative |
| OverviewSection.Classify | components/dashboard/sections/overview-section.tsx:22 | up iff the difference exceeds 0.5, down iff it is below −0.5, stable otherwise |
| OverviewSection.GetTrend | components/dashboard/sections/overview-section.tsx:15-25 | stable and "0%" with fewer than two samples; otherwise the last-two-sample trend, "0%" iff the previous value is 0, else a non-negative percentage of the change |
| OverviewSection.TrendDependsOnLastTwo | components/dashboard/sections/overview-section.tsx:17-18 | windows sharing their last two samples have the same trend |
| OverviewSection.TrendReverses | components/dashboard/sections/overview-section.tsx:19-22 | swapping the last two samples swaps up and down and keeps stable |
| OverviewSection.TrendAfterTick | components/dashboard/sections/overview-section.tsx:17-22 | after a tick, the trend compares the new sample with the previous newest one |
| OverviewSection.MoistureStatus | components/dashboard/sections/overview-section.tsx:32-36 | critical below 25, warning on [25, 40), normal from 40 |
| OverviewSection.MoistureStatusMonotone | components/dashboard/sections/overview-section.tsx:32-36 | a lower moisture never gets a better status |
| OverviewSection.TemperatureStatus | components/dashboard/sections/overview-section.tsx:38-42 | critical above 38 or below 10, warning on (35, 38] or [10, 15), normal on [15, 35] |
| OverviewSection.TemperatureStatusMonotone | components/dashboard/sections/overview-section.tsx:38-42 | moving further from the normal band never gets a better status |
| OverviewSection.CardStatus | components/dashboard/sections/overview-section.tsx:53-92 | humidity is always normal; water is a warning iff below 30 and never critical; moisture and temperature use their status functions |
| ControlsSection.SelectedDevices | components/dashboard/sections/controls-section.tsx:11 | the selected field's devices, or none when no field matches |
| ControlsSection.ActiveDevices | components/dashboard/sections/controls-section.tsx:13 | at most the device total; 0 iff every device is off |
| ControlsSection.Acres | components/dashboard/sections/controls-section.tsx:61 | the selected field's area, or 0 when no field is selected |
| ControlsSection.ToggleMovesActiveCount | components/dashboard/sections/controls-section.tsx:13 | toggling a device whose id is unique in the list moves the active count down one if it was on, up one if off |
| ControlsSection.ToggleAbsentKeepsCount | components/dashboard/sections/controls-section.tsx:13 | toggling an id not in the list keeps the active count |
| ControlsSection.ToggleKeepsDeviceTotal | components/dashboard/sections/controls-section.tsx:14 | a toggle never changes the selected field's device total |
| AutomationSection.FieldRules | components/dashboard/sections/automation-section.tsx:12 | exactly the rules of the selected field |
| AutomationSection.FieldRulesKeepOrder | components/dashboard/sections/automation-section.tsx:12 | selection distributes over concatenation, so rules keep store order |
| AutomationSection.ActiveRules | components/dashboard/sections/automation-section.tsx:12-13 | the "Active Rules" card is at most the field's rule count, and is 0 exactly when every rule of the selected field is disabled |
| AutomationSection.TriggeredTodayRules | components/dashboard/sections/automation-section.tsx:14-19 | at most all field rules; exactly the field's rules whose last trigger falls on today, so a rule that never fired is never counted |
| AutomationSection.TriggeredToday | components/dashboard/sections/automation-section.tsx:14-19 | the "Triggered Today" card is at most the field's rule count, and 0 iff no rule of the field last fired today |
| AutomationSection.AddRuleCounts | components/dashboard/sections/automation-section.tsx:12-19 | adding an enabled, never-fired rule of the field raises the total and active counts by one and keeps "triggered today" |
| AutomationSection.ToggleRuleCounts | components/dashboard/sections/automation-section.tsx:12-19 | toggling a rule keeps the total and "triggered today" counts |
| AutomationSection.ToggleRuleMovesActive | components/dashboard/sections/automation-section.tsx:12-13 | toggling a rule of the field whose id no other rule shares lowers "Active Rules" by one when it was on and raises it by one when it was off |
| AutomationRules.ListedRules | components/dashboard/automation-rules.tsx:48 | the listed rules are exactly those of the selected field |
| AutomationRules.BuildRule | components/dashboard/automation-rules.tsx:186-199 | nothing when name, value or device is empty or the device is not offered; otherwise one enabled, never-fired rule with the form's sensor, operator, value, device id and state, the matched device's name and the dialog's field |
| AutomationRules.BuiltRuleKeepsIntegrity | components/dashboard/automation-rules.tsx:189-198 | a rule built from the field's own devices keeps the store's invariant when added |
| AutomationRules.RuleForm.constructor | components/dashboard/automation-rules.tsx:179-184 | defaults: empty name, value and device, soil moisture, "is less than", Turn ON; submit is disabled |
| AutomationRules.RuleForm.Submitted | components/dashboard/automation-rules.tsx:294 | the Create button's condition is the submit guard: whenever the button is disabled, submit emits nothing |
| AutomationRules.RuleForm.SetName | components/dashboard/automation-rules.tsx:216 | only the name changes |
| AutomationRules.RuleForm.SetSensor | components/dashboard/automation-rules.tsx:223 | only the sensor changes |
| AutomationRules.RuleForm.SetOperator | components/dashboard/automation-rules.tsx:237 | only the operator changes |
| AutomationRules.RuleForm.SetValue | components/dashboard/automation-rules.tsx:255 | only the threshold changes |
| AutomationRules.RuleForm.SetDeviceId | components/dashboard/automation-rules.tsx:263 | only the chosen device changes |
| AutomationRules.RuleForm.SetState | components/dashboard/automation-rules.tsx:278 | only the target state changes |

## Left out

- The interval timer, `useEffect`/`useMemo`/`useCallback` and context wiring. One tick is one call of `DashboardStore.Tick`.
- `Math.random()`, `Date.now()` and `new Date()`. They are parameters: `TickDraws`, `HistoryDraw`, `now`, `today`.
- The sine, cosine and rounding terms of the `generateSensorData` readings. They are a parameter `reading`. Only the count and the timestamps of the samples are modelled.
- ISO and locale date strings. Timestamps are integer milliseconds.
  - The seed literals are read as UTC.
  - The CSV timestamp column comes from a parameter `iso`.
- `toFixed(1)` in the trend percentage. `Change` keeps the exact real.
- IEEE-754 double rounding. Readings, draws and differences are exact reals. The rounding of JavaScript doubles is not modelled in three places:
  - the tick step `last + (draw - 0.5) * scale` (`Store.Step`);
  - the trend difference `current - previous`, compared with ±0.5 (`OverviewSection.Classify`);
  - the trend percentage (`OverviewSection.GetTrend`).
  A result within one rounding step of the ±0.5 thresholds or of the step bound can come out differently. For example, take a soil-moisture reading of 45 (step scale 5) and a draw of 0.6000000000000001. The double sum is exactly 45.5. The source then shows Stable, while the exact model shows Up.
- Local time zones.
  - History timestamps use UTC day and hour arithmetic instead of local `setHours`.
  - "Triggered today" compares UTC day numbers instead of local `toDateString()`.
- `Number(value)` in the rule form. The threshold is `None` while its input is empty and a number otherwise.
- DOM side effects. This covers the dark-mode class on the document and the Blob/anchor download of the CSV.
- The error `useDashboard` throws outside its provider.
- The add-rule dialog's open/closed flag and its closing after an add (components/dashboard/automation-rules.tsx:46, 51-54).
- Presentational files: the reports panel, charts, stat cards, device controls, header, sidebar, page shell and the sensors, history and reports sections.
- MockData.GetCurrentSensorValues: the table lookup is modelled on the three table keys only. In the source, a key inherited from `Object.prototype` such as `"constructor"` would return a non-table value.
- AlertsPanel.SortAlerts: stability is not stated. The contract does not promise that alerts with the same flag and time keep their store order, which JavaScript's stable sort gives.
- Store.TickKeepsAscending: the code never checks that the clock moved forward. Ascending order is proved only for a tick whose time is later than the newest sample.
- Ids made from `Date.now()` can repeat within one millisecond. The model does not assume alert or rule ids are unique, and the lemmas that need uniqueness say so.

## Findings

| source | as written | input that shows it | evidently intended | confidence | as-written member | corrected member |
|---|---|---|---|---|---|---|
| components/dashboard/history-table.tsx:156 | "Next" sets the page to `Math.min(totalPages, p + 1)` and is disabled only when `page === totalPages` | a filter that matches none of the 20 records: totalPages is 0 and page is 1, so "Next" is enabled and moves to page 0, showing "Page 0 of 0" and "Showing -9 to 0" | the page never drops below 1: `Math.max(1, Math.min(totalPages, p + 1))` | medium; not executed | HistoryTable.NextAsWrittenReachesPageZero | HistoryTable.NextPage |
