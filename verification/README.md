# JerseyGrid data-centre copilot: the dashboard's computational core

This project models, in Dafny, the logic inside the JerseyGrid data-centre
dashboard (a React single-page app) that computes something. The layout,
styling and rendering are not modelled. Five modules:

- `JsCore` (`js_core.dfy`): the JavaScript semantics the pages rely on.
  This covers `Math.round` (halves go toward +∞), rounding to one decimal,
  `Math.max`/`Math.min`, optional fields and the truthiness of an optional
  number.
- `Scenario` (`scenario.dfy`): the Scenario Studio's what-if calculator.
  - Seven multiplicative adjustment blocks act on an 8500 cost and a 380 gCO₂/kWh
    intensity.
  - Each block is one `Adjustment`, and the calculation is a fold over the
    seven of them.
  - The fold is proved equal to a closed-form reference: the baseline times
    the product of the selected factors. The CO₂ cap and the ordered list of
    annotations (`keyChanges`) are proved alongside.
  - Form edits are modelled too.
- `Workload` (`workload.dfy`): the 24-hour workload shifter.
  - Its five buttons are shift left, shift right, flatten peaks, night mode
    and reset. They are modelled as pure functions of the previous profile,
    and a sequence of presses is a replay.
  - The chart's scaling and bar colours are modelled too.
- `Events` (`events.dfy`): the Event Center.
  - The six mock events, the category/status filter, the selection by id and
    the "N event(s) found" label.
  - The demand-response economics shown on the event card and in the details
    panel, and the status and category colours.
- `Insights` (`insights.dfy`): the Insights page.
  - The per-range metrics, trend series and breakdown tables.
  - The two bar charts: cost width, savings percentage, and the carbon chart
    with its 320 target.
  - The sign and colour of the breakdown's cost-vs-baseline cell.

Each operation has a partner it is proved against:
- an inverse (the two shifts; `ParseNat` for the count label);
- a closed-form reference (the scenario's factor product, `Reports` for the
  annotations);
- an invariant (total load under every button but reset; filter soundness,
  completeness and order);
- or the page's own data (every series records its percentages; no point is
  above the carbon target).

## Behaviour worth knowing

- The PV block has no neutral branch, and the battery and cooling blocks end
  in catch-all branches that still add an annotation. So `keyChanges` always
  has 3 to 7 entries, and the "No changes from baseline scenario" fallback is
  never shown (`Scenario.Calculate` proves `NoChangesNote !in keyChanges`;
  `Scenario.ReportedCount` proves the count).
- The CO₂ block is the last of the seven and takes the minimum with 320
  before applying its 8% cost penalty. The model applies that cap after the
  fold of all seven blocks (`Scenario.Pipeline`). Because no block after it
  touches CO₂, this gives the source's result, and `Scenario.PipelineCo2`
  proves the folded, capped figure equals the reference. With the limit on,
  the rounded intensity never exceeds 320 (`Scenario.CapBoundsRounded`).
- The selected event is looked up in the whole event list, not in the filtered
  one, so a filter can hide the event that is still shown as selected
  (`Events.SelectedMayBeHidden`).
- The YTD trend has five two-month points but its chart draws only the first
  four (`Insights.VisibleRowsPerRange`). The YTD breakdown is the same four
  quarters as the one-year breakdown (`Insights.BreakdownYtdIsOneYear`).

## Model

| member | source | states |
|---|---|---|
| JsCore.Round | src/pages/ScenarioStudio.tsx:122-124 | `Math.round` returns the integer within half a unit of its argument, ties counted upward |
| JsCore.RoundHalvesUp | src/pages/ScenarioStudio.tsx:122-124 | 2.5 rounds to 3 and -2.5 to -2: halves go toward +∞, not away from zero |
| JsCore.RoundMonotone | src/pages/ScenarioStudio.tsx:122-124 | rounding never reverses the order of two figures |
| JsCore.RoundOfInteger | src/pages/ScenarioStudio.tsx:122-124 | a whole number rounds to itself |
| JsCore.RoundToTenth | src/pages/ScenarioStudio.tsx:123 | `Math.round(x * 10) / 10` is a whole number of tenths within 0.05 of x |
| JsCore.Max | src/components/WorkloadShifter.tsx:70 | `Math.max` of two figures is at least both and is one of them |
| JsCore.Min | src/pages/ScenarioStudio.tsx:114 | `Math.min` of two figures is at most both and is one of them |
| JsCore.Truthy | src/components/EventCard.tsx:50 | a truthy optional number holds a value, and a held number is truthy exactly when it is not 0, so `undefined` and 0 both fail the `!x` guards |
| Scenario.ReferenceCost | src/pages/ScenarioStudio.tsx:45-117 | whatever the selections, the final daily cost is at least 3000 |
| Scenario.Calculate | src/pages/ScenarioStudio.tsx:39-128 | rounded cost and CO₂ of the reference figures; CO₂ at most 320 with the limit on; throughput fixed by battery cycling; annotations exactly the reported selections, in block order, 3 to 7 of them, never the fallback |
| Scenario.PriceAdjustment | src/pages/ScenarioStudio.tsx:45-52 | the price block never touches CO₂; it raises the cost exactly for high peak prices and lowers it exactly for off-peak rates; it annotates exactly when it changes something |
| Scenario.LoadAdjustment | src/pages/ScenarioStudio.tsx:54-63 | the load block moves cost and CO₂ the same way, upward exactly for AI training load, and annotates exactly when it changes something |
| Scenario.PvAdjustment | src/pages/ScenarioStudio.tsx:65-78 | every PV selection changes both figures in the same direction, downward exactly when sunny, and adds one annotation |
| Scenario.BatteryAdjustment | src/pages/ScenarioStudio.tsx:80-92 | the battery block never touches CO₂ and always adds one annotation; the cost goes down exactly for High and up exactly for Low |
| Scenario.GpuAdjustment | src/pages/ScenarioStudio.tsx:94-99 | shifting GPU load lowers both figures and adds one annotation; not shifting changes nothing |
| Scenario.CoolingAdjustment | src/pages/ScenarioStudio.tsx:101-110 | the cooling block never touches CO₂, never raises the cost and always adds one annotation; the cost is kept exactly for Balanced |
| Scenario.Co2LimitAdjustment | src/pages/ScenarioStudio.tsx:112-117 | the CO₂ block's own CO₂ factor is 1 (the cap is applied by Pipeline); with the limit on it raises the cost and annotates, with it off it changes nothing |
| Scenario.ThroughputFor | src/pages/ScenarioStudio.tsx:80-92 | the throughput lies between 600 and 2400 kWh, and stays at the starting 1200 exactly for the catch-all Medium branch |
| Scenario.Pipeline | src/pages/ScenarioStudio.tsx:39-117 | the seven blocks folded in the source's order, then the cap; with the limit on, the CO₂ figure never exceeds 320 |
| Scenario.PercentVsBaseline | src/pages/ScenarioStudio.tsx:119 | applying the percentage to the 8500 baseline gives back the cost |
| Scenario.NoteText | src/pages/ScenarioStudio.tsx:48-126 | no contract of its own: the annotation string the page lists for each note, the line-126 fallback included |
| Scenario.RunCost | src/pages/ScenarioStudio.tsx:40-117 | running blocks multiplies the cost by the product of their cost factors |
| Scenario.RunCo2 | src/pages/ScenarioStudio.tsx:41-117 | running blocks multiplies the CO₂ intensity by the product of their CO₂ factors |
| Scenario.CostProductConcat | src/pages/ScenarioStudio.tsx:45-117 | the product over two runs of blocks is the product of the two products |
| Scenario.CostProductWithout | src/pages/ScenarioStudio.tsx:45-117 | the product is any one block's factor times the product of the others |
| Scenario.CostProductOrderFree | src/pages/ScenarioStudio.tsx:45-117 | any rearrangement of the blocks gives the same cost product |
| Scenario.ReferenceCostOrderFree | src/pages/ScenarioStudio.tsx:45-117 | the final cost is 8500 times the selected factors taken in any order |
| Scenario.CostProductAtLeast | src/pages/ScenarioStudio.tsx:45-117 | factor-wise non-negative lower bounds give a lower bound on the product |
| Scenario.SmallestCostFactorsBelow | src/pages/ScenarioStudio.tsx:45-117 | each selected cost factor is at least the smallest option of its block (0.85, 0.7, 0.88, 0.92, 0.87, 0.94, 1) |
| Scenario.CostFactorsBounded | src/pages/ScenarioStudio.tsx:45-117 | the baseline times the selected factors is never below 3000 |
| Scenario.AppendStage | src/pages/ScenarioStudio.tsx:43-116 | appending one block's notes keeps the list in block order and covering exactly the reported selections so far |
| Scenario.RunNotes | src/pages/ScenarioStudio.tsx:43-116 | blocks that each append their own stage's notes leave an ordered, complete list |
| Scenario.PriceNotesReported | src/pages/ScenarioStudio.tsx:45-52 | the price block notes high-peak and low-off-peak prices and says nothing for the base case |
| Scenario.LoadNotesReported | src/pages/ScenarioStudio.tsx:54-63 | the load block notes AI training and weekend load and says nothing for the normal profile |
| Scenario.PvNotesReported | src/pages/ScenarioStudio.tsx:65-78 | the PV block notes each of the three availabilities |
| Scenario.BatteryNotesReported | src/pages/ScenarioStudio.tsx:80-92 | the battery block notes each cycling level, the moderate one through its catch-all branch |
| Scenario.GpuNotesReported | src/pages/ScenarioStudio.tsx:94-99 | the GPU block notes the shift exactly when shifting is allowed |
| Scenario.CoolingNotesReported | src/pages/ScenarioStudio.tsx:101-110 | the cooling block notes each flexibility level, balanced through its catch-all branch |
| Scenario.Co2LimitNotesReported | src/pages/ScenarioStudio.tsx:112-117 | the CO₂ block notes the constraint exactly when the limit is on |
| Scenario.AdjustmentsReportTheirStage | src/pages/ScenarioStudio.tsx:45-117 | the k-th block appends exactly the reported note of stage k |
| Scenario.ReportedStagesBelowSeven | src/pages/ScenarioStudio.tsx:126 | no selection ever reports the "No changes" fallback |
| Scenario.StageAtLeastPosition | src/pages/ScenarioStudio.tsx:43-116 | in a block-ordered list the j-th note comes from block j or later |
| Scenario.AlwaysReported | src/pages/ScenarioStudio.tsx:65-110 | PV, battery and cooling always report their selection |
| Scenario.PositionOf | src/pages/ScenarioStudio.tsx:43-116 | every reported note of a real stage is at some position of a complete list |
| Scenario.ReportedCount | src/pages/ScenarioStudio.tsx:65-126 | a complete block-ordered list has between 3 and 7 notes |
| Scenario.PipelineCost | src/pages/ScenarioStudio.tsx:40-117 | the step-by-step cost equals the closed-form reference cost |
| Scenario.PipelineCo2 | src/pages/ScenarioStudio.tsx:41-117 | the step-by-step CO₂ equals the reference, with the cap applied to the fully adjusted value |
| Scenario.PipelineNotes | src/pages/ScenarioStudio.tsx:43-116 | the blocks append exactly the reported selections, in block order, 3 to 7 of them |
| Scenario.PipelineMatchesReference | src/pages/ScenarioStudio.tsx:39-125 | the whole running calculation agrees with the reference in cost, CO₂, throughput and notes |
| Scenario.CapBoundsRounded | src/pages/ScenarioStudio.tsx:113-124 | with the limit on, the displayed CO₂ is at most 320 |
| Scenario.ThroughputDependsOnlyOnBattery | src/pages/ScenarioStudio.tsx:80-92 | two forms with the same battery cycling show the same throughput |
| Scenario.SameCo2Factors | src/pages/ScenarioStudio.tsx:54-99 | blocks with equal CO₂ factors give equal CO₂ products |
| Scenario.Co2FactorsIgnorePriceBatteryCooling | src/pages/ScenarioStudio.tsx:45-110 | the CO₂ factors depend only on load, PV and GPU shifting |
| Scenario.Co2IgnoresPriceBatteryCooling | src/pages/ScenarioStudio.tsx:45-124 | changing price profile, battery cycling or cooling never changes the CO₂ figure, raw or displayed |
| Scenario.CostVsBaselineSign | src/pages/ScenarioStudio.tsx:119-123 | the rounded percentage against the baseline has the sign of the cost's difference from 8500 |
| Scenario.DefaultScenario | src/pages/ScenarioStudio.tsx:25-34 | the initial form gives cost 7480, -12.0%, CO₂ 312, 1200 kWh and the sunny-PV, moderate-battery, balanced-cooling notes |
| Scenario.DefaultPipeline | src/pages/ScenarioStudio.tsx:39-117 | the initial form's running figures are 7480 and 311.6 before rounding |
| Scenario.RunSeven | src/pages/ScenarioStudio.tsx:45-117 | running seven blocks is applying them one after another |
| Scenario.DefaultScenarioWithCo2Limit | src/pages/ScenarioStudio.tsx:112-117 | with the limit on, the initial form's CO₂ (already below the cap) stays 312 while the cost takes the 8% penalty to 8078 |
| Scenario.ApplyEdit | src/pages/ScenarioStudio.tsx:135-137 | an edit replaces the one named field and leaves every other field as it was |
| Scenario.NameDoesNotAffectResults | src/pages/ScenarioStudio.tsx:135-137 | renaming a scenario never changes its results |
| Workload.SumConcat | src/components/WorkloadShifter.tsx:49 | the total of two runs of hours is the sum of their totals |
| Workload.SumRepeat | src/components/WorkloadShifter.tsx:50 | n hours at level v hold n·v load |
| Workload.Sum | src/components/WorkloadShifter.tsx:38 | no contract of its own: the `reduce` total; SumConcat, SumRepeat and SumUpdate state its laws |
| Workload.ShiftLeft | src/components/WorkloadShifter.tsx:16-23 | every hour takes the next hour's load and the last takes the first's |
| Workload.ShiftRight | src/components/WorkloadShifter.tsx:26-33 | every hour takes the previous hour's load and the first takes the last's |
| Workload.ShiftsAreInverse | src/components/WorkloadShifter.tsx:16-33 | shifting left then right, or right then left, gives back the profile |
| Workload.ShiftsKeepValues | src/components/WorkloadShifter.tsx:16-33 | a shift rearranges the hourly values and changes none |
| Workload.ShiftsKeepTotal | src/components/WorkloadShifter.tsx:16-33 | a shift keeps the total load |
| Workload.RotationKeepsSum | src/components/WorkloadShifter.tsx:16-33 | any rotation of the profile keeps the total |
| Workload.ShiftLeftTimesRotates | src/components/WorkloadShifter.tsx:16-23 | n left shifts move the first n hours to the end |
| Workload.FullDayOfShifts | src/components/WorkloadShifter.tsx:16-23 | as many left shifts as hours give back the profile |
| Workload.InitialProfileAfterDayOfShifts | src/components/WorkloadShifter.tsx:6-23 | 24 left shifts of the initial profile give the initial profile |
| Workload.Mean | src/components/WorkloadShifter.tsx:38 | the mean times the number of hours is the total |
| Workload.Toward | src/components/WorkloadShifter.tsx:39-42 | each hour's distance from the target shrinks to 70% |
| Workload.SumToward | src/components/WorkloadShifter.tsx:39-42 | the new total is 70% of the old total plus 30% of the target's |
| Workload.FlattenPeaks | src/components/WorkloadShifter.tsx:36-44 | each hour moves 30% of the way to the profile's mean |
| Workload.FlattenKeepsTotal | src/components/WorkloadShifter.tsx:36-44 | flattening keeps the total load |
| Workload.FlattenKeepsOrder | src/components/WorkloadShifter.tsx:36-44 | flattening keeps the order between any two hours, strict and non-strict |
| Workload.FlattenKeepsBounds | src/components/WorkloadShifter.tsx:36-44 | a profile within bounds stays within them |
| Workload.FlattenFixesConstant | src/components/WorkloadShifter.tsx:36-44 | a flat profile is left unchanged |
| Workload.NightHoursAreChartNight | src/components/WorkloadShifter.tsx:53 | the hours night mode loads are exactly the chart's night band, 20:00 to 06:00 |
| Workload.NightHoursDistinct | src/components/WorkloadShifter.tsx:53 | night mode's hours are distinct hours of the day |
| Workload.IsNightHour | src/components/WorkloadShifter.tsx:130 | no contract of its own: the chart's 20:00–06:00 band; NightHoursAreChartNight proves it is the set of night-mode hours |
| Workload.SetHours | src/components/WorkloadShifter.tsx:56-58 | the listed hours take the new level and the others keep theirs |
| Workload.NightLevelsByHour | src/components/WorkloadShifter.tsx:50-58 | the night-mode profile holds the raised level in the 20:00–06:00 band and the 0.1 floor elsewhere |
| Workload.LoadPerNightHour | src/components/WorkloadShifter.tsx:54 | the 0.1 floor on all 24 hours plus the share on each of the ten night hours adds back up to the total |
| Workload.NightMode | src/components/WorkloadShifter.tsx:47-62 | night hours carry 0.1 plus an equal share of the load above the floors; day hours carry 0.1 |
| Workload.SumUpdate | src/components/WorkloadShifter.tsx:56-58 | setting one hour changes the total by the difference |
| Workload.SumSetHours | src/components/WorkloadShifter.tsx:56-58 | setting distinct hours from floor b to v adds v-b per hour to the total |
| Workload.RaisedFloorTotal | src/components/WorkloadShifter.tsx:50-58 | raising distinct hours of a flat floor adds the raise once per hour |
| Workload.SumRepeatShare | src/components/WorkloadShifter.tsx:54 | n equal shares of a total add back up to it |
| Workload.NightShare | src/components/WorkloadShifter.tsx:54 | the ten night shares add back up to the load above the floors |
| Workload.NightLevelsRaised | src/components/WorkloadShifter.tsx:50-58 | night mode's total is the floors plus the raise on each night hour |
| Workload.NightModeKeepsTotal | src/components/WorkloadShifter.tsx:47-62 | night mode keeps the total load |
| Workload.NightModeIsLevels | src/components/WorkloadShifter.tsx:47-62 | night mode is the 0.1 floor with each night hour raised by its share |
| Workload.NightLevelsTotal | src/components/WorkloadShifter.tsx:49-58 | the floor plus the shares adds back up to the previous profile's total |
| Workload.Act | src/components/WorkloadShifter.tsx:14-67 | reset restores the initial profile; every other button keeps the total load and the 24 hours |
| Workload.Replay | src/components/WorkloadShifter.tsx:14-67 | any sequence of presses leaves a 24-hour profile |
| Workload.ReplayConcat | src/components/WorkloadShifter.tsx:14-67 | replaying two runs of presses is replaying one after the other |
| Workload.ResetForgetsHistory | src/components/WorkloadShifter.tsx:65-67 | after a reset, earlier presses no longer matter |
| Workload.ReplayKeepsTotal | src/components/WorkloadShifter.tsx:14-62 | any run of presses without reset keeps the total load |
| Workload.MaxWorkload | src/components/WorkloadShifter.tsx:70 | the chart's scale is at least 1.2 and every hour, and is 1.2 or one of the hours |
| Workload.BarHeight | src/components/WorkloadShifter.tsx:129 | a bar never rises above 100% of the chart, and a non-negative hour never drops below 0% |
| Workload.BarHeightBounds | src/components/WorkloadShifter.tsx:129 | non-negative hours draw bars 0–100% high, and 100% exactly at the scale's top |
| Workload.PercentOfScale | src/components/WorkloadShifter.tsx:129 | a value up to a positive scale is a percentage up to 100, reaching 100 only at the scale |
| Workload.BarColourOf | src/components/WorkloadShifter.tsx:130-143 | red above 0.9, else green in the night band, else blue |
| Workload.NightModeBarsAfterHeavyDay | src/components/WorkloadShifter.tsx:47-143 | after night mode with more than 10.4 total load, night bars are red and day bars blue |
| Events.CategoryLabel | src/components/FilterBar.tsx:16 | no category is called "All" |
| Events.StatusLabel | src/components/FilterBar.tsx:17 | no status is called "All" |
| Events.LabelsAreDistinct | src/components/FilterBar.tsx:16-17 | distinct categories, and distinct statuses, have distinct labels |
| Events.Matches | src/pages/EventCenter.tsx:150-154 | "All"/"All" matches every event; a category or status selection that is neither "All" nor any label matches no event |
| Events.FilterEvents | src/pages/EventCenter.tsx:150-154 | the result holds only matching events, holds every matching event, and keeps the input's order |
| Events.FilterKeepsMultiplicities | src/pages/EventCenter.tsx:150-154 | each matching event is kept as many times as it occurs in the input and every other event is dropped, which fixes the count the label shows |
| Events.FilterAllIsIdentity | src/pages/EventCenter.tsx:150-154 | "All"/"All" lists every event |
| Events.FilterSplits | src/pages/EventCenter.tsx:150-154 | filtering by both is filtering by category then status, or status then category |
| Events.FilterIdempotent | src/pages/EventCenter.tsx:150-154 | filtering twice is filtering once |
| Events.FindById | src/pages/EventCenter.tsx:157 | nothing is found exactly when no event has the id; a found event is in the list and has the id |
| Events.FindByIdIsFirst | src/pages/EventCenter.tsx:157 | the lookup returns the first event with the id |
| Events.InitialSelectedId | src/pages/EventCenter.tsx:147 | the first event's id, or "" for an empty list |
| Events.InitialPage | src/pages/EventCenter.tsx:145-147 | both filters start at "All" and the first event is selected |
| Events.Step | src/pages/EventCenter.tsx:189-218 | each control changes its own part of the page state and nothing else |
| Events.Visible | src/pages/EventCenter.tsx:150-154 | the list shows events of the full list, in its order |
| Events.Selected | src/pages/EventCenter.tsx:157 | the details panel shows an event of the list with the selected id |
| Events.SelectionIgnoresFilters | src/pages/EventCenter.tsx:145-157 | changing a filter never changes the selected event |
| Events.SelectedMayBeHidden | src/pages/EventCenter.tsx:150-157 | choosing "Internal" hides the selected event 1, which stays selected |
| Events.InitialPageShowsEverything | src/pages/EventCenter.tsx:145-157 | the page opens with all six events listed |
| Events.InitialPageSelectsFirst | src/pages/EventCenter.tsx:147-157 | the page opens with event 1 in the details panel |
| Events.NatToString | src/pages/EventCenter.tsx:203 | a count is written as a non-empty string of digits |
| Events.ParseNatToString | src/pages/EventCenter.tsx:203 | reading the written count back gives the count |
| Events.PluralSuffix | src/pages/EventCenter.tsx:203 | the suffix is "s" exactly when the count is not 1 |
| Events.CountLabel | src/pages/EventCenter.tsx:203 | the label has at least 13 characters |
| Events.CountLabelPlural | src/pages/EventCenter.tsx:203 | the label ends "events found" exactly when the count is not 1 |
| Events.CountLabelStartsWithCount | src/pages/EventCenter.tsx:203 | the label starts with the count, which reads back as the count |
| Events.CardRevenue | src/components/EventCard.tsx:49-55 | the card shows revenue exactly when price, reduction and duration are all truthy, and the revenue is price × reduction × duration |
| Events.DetailsEconomics | src/components/EventDetails.tsx:45-53 | the details show economics exactly when all four figures are truthy; revenue is price × reduction × duration, lost compute is loss × reduction × duration, and net is their difference |
| Events.NetImpactIsMarginTimesEnergy | src/components/EventDetails.tsx:45-53 | net impact is (price − loss per kWh) × reduction × duration |
| Events.NetPositiveIffPriceBeatsLoss | src/components/EventDetails.tsx:45-53 | with positive energy, net impact is positive exactly when price beats the loss per kWh |
| Events.DetailsImpliesCard | src/components/EventDetails.tsx:45-53 | wherever the details show economics, the card shows the same revenue |
| Events.CardWithoutDetails | src/components/EventCard.tsx:49-55 | without a compute-loss figure the card shows revenue but the details show no economics |
| Events.ShowsRevenueBadge | src/components/EventCard.tsx:147 | the badge appears exactly when the card has its three figures |
| Events.NetDisplay | src/components/EventDetails.tsx:234-258 | green with a "+" exactly when net is positive; otherwise red with no "+" prefix |
| Events.GreenIffPriceBeatsLoss | src/components/EventDetails.tsx:234-258 | with positive energy, the net figure is green with a '+' prefix exactly when price beats loss |
| Events.GridEventFigures | src/pages/EventCenter.tsx:9-140 | events 1, 3 and 6 show 1440/960/480, 1200/840/360 and 1120/784/336 |
| Events.OnlyGridEventsHaveEconomics | src/pages/EventCenter.tsx:8-142 | among the six events, exactly the Grid DR ones show economics |
| Events.StatusColour | src/components/EventCard.tsx:30-37 | Active red, Upcoming gold, anything else grey (the same in the details panel) |
| Events.StatusColoursDistinct | src/components/EventDetails.tsx:35-42 | the three statuses have distinct colours, and an unknown status shares Resolved's grey |
| Events.CategoryColour | src/components/EventCard.tsx:39-46 | Grid DR cyan, Internal red, Maintenance gold, anything else grey |
| Events.CategoryColoursDistinct | src/components/EventCard.tsx:39-46 | the three categories have distinct colours, none of them grey |
| Insights.GenerateMetrics | src/pages/Insights.tsx:54-118 | every range reports 64% savings, with positive cost and savings |
| Insights.MetricsSavingsConsistent | src/pages/Insights.tsx:54-118 | the savings percentage is the savings over cost-plus-savings, for every range |
| Insights.MetricsGrowWithRange | src/pages/Insights.tsx:54-118 | a longer range never reports less cost, savings or energy |
| Insights.GenerateTrendData | src/pages/Insights.tsx:121-161 | 7, 4, 3, 5 and 4 points for 7d, 30d, 90d, YTD and 1y |
| Insights.GeneratePerformanceBreakdown | src/pages/Insights.tsx:163-194 | 7 days, 4 weeks, 3 months, or 4 quarters for YTD and 1y |
| Insights.BreakdownYtdIsOneYear | src/pages/Insights.tsx:163-194 | the YTD breakdown is the one-year breakdown |
| Insights.BreakdownMatchesTrendCosts | src/pages/Insights.tsx:121-194 | outside YTD the breakdown lists the trend's periods with the same costs; YTD's two differ in length |
| Insights.Take | src/pages/Insights.tsx:324 | a clamped prefix: at most n elements, each equal to the original's |
| Insights.RowLimit | src/pages/Insights.tsx:324 | every series but YTD fits within its limit; the YTD limit is one short of the series' length |
| Insights.VisibleRows | src/pages/Insights.tsx:324 | the chart draws a prefix of the series |
| Insights.VisibleRowsPerRange | src/pages/Insights.tsx:324 | outside YTD the whole series is drawn; YTD draws four rows and never its fifth point |
| Insights.MaxCost | src/pages/Insights.tsx:325 | the largest cost of the series: at least every cost and equal to one of them |
| Insights.CostWidth | src/pages/Insights.tsx:325-326 | a bar is at most 100% wide, full exactly at the largest cost, and visible for positive cost |
| Insights.WidthOfShare | src/pages/Insights.tsx:326 | a share of a positive maximum is at most 100%, reaching it only at the maximum |
| Insights.SavingsPercent | src/pages/Insights.tsx:327-328 | a defined percentage is used even when it is 0; else, with a truthy amount, a positive cost and a positive amount give a share strictly between 0 and 100; with no percentage and a falsy amount, 0 |
| Insights.SeriesRecordPercentages | src/pages/Insights.tsx:121-161 | every trend point records its percentage, so the fallback is never used |
| Insights.CarbonWidth | src/pages/Insights.tsx:420-421 | an intensity on the 0–400 scale draws a bar 0–100% wide |
| Insights.TargetWidth | src/pages/Insights.tsx:422 | the target marker sits at 80% of the scale |
| Insights.IsAboveTarget | src/pages/Insights.tsx:423 | a point is flagged exactly when its bar's width passes the target marker's |
| Insights.AboveTargetIffPastMarker | src/pages/Insights.tsx:421-423 | a point is flagged above target exactly when its bar passes the marker; the target itself is not |
| Insights.NoPointAboveTarget | src/pages/Insights.tsx:121-161 | no point of any series is above the 320 target |
| Insights.BaselineDisplay | src/pages/Insights.tsx:916-921 | "+" exactly above zero; green exactly below zero |
| Insights.ZeroShowsUnsignedRed | src/pages/Insights.tsx:916-921 | a zero difference shows no sign and is red |
| Insights.BreakdownAllGreen | src/pages/Insights.tsx:163-194 | every breakdown row is below its baseline, so the whole table is green with no "+" prefix |

## Left out

- Rendering, layout, styles, icons and the tab and toggle state of each page. These are presentation, not computation.
- React state hooks and event handlers. Each state update is modelled as the pure function passed to `setState`; the component lifecycle is not modelled.
- Number formatting (`toLocaleString`, `toFixed`, the "$" and "%" decorations). These depend on the locale.
- IEEE-754 doubles. All arithmetic is on exact reals, so the model has no rounding error, NaN or Infinity. The source's mock figures are decimal literals whose products are computed exactly here.
- Insights.CostWidth: requires a positive largest cost. With an all-zero series the source computes 0/0 = NaN, which reals cannot express.
- Insights.SavingsPercent: requires a nonzero cost-plus-amount on the amount branch. The source would divide by zero there and show Infinity or NaN.
- Workload.ShiftLeft: requires a non-empty profile. The source's non-null assertion on `shift()` promises one, and the profile always has 24 hours.
- Workload.ShiftRight: requires a non-empty profile. The source's non-null assertion on `pop()` promises one, and the profile always has 24 hours.
- Scenario.Calculate: only the options the form offers are modelled, each input being a closed datatype. The source's fields are plain strings. For a value outside the offered options the price, load and PV blocks would add nothing, while the battery and cooling blocks would take their catch-all branches (moderate cycling, balanced cooling).
- Workload.FlattenPeaks: the empty profile (a NaN mean in the source) is not described by the contract. The component never holds one.
- Workload.Replay: requires a 24-hour profile, the only kind the component ever holds.
- The Event fields `description`, `recommendations`, `affectedAssets` and the free-text fields other than id, category and status. They are only displayed.
- The KPI cards' subtitles and the Insights toggles. They do not change any figure.
- The scenario's run button and result-panel visibility (`handleRunScenario`). This only stores `Calculate`'s result.
- The other pages and components of the app (Assets, Optimization Engine, Live Operations, the power-flow diagram, cluster table, asset and KPI cards). They are not part of this model.
