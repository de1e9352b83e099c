# Carbon-footprint dashboard — a Dafny model

This project models the logic behind the pages of a company's carbon-footprint dashboard. It is a
Next.js application whose pages keep their data in React state. The model covers:

- **Main dashboard.** Six emission categories with their total, percentage shares and trend cards.
  It also has a monthly chart filtered by year and date range, and a reduction goal whose progress
  a button advances.
- **Statistics page.** Monthly data for 2023 and 2024 filtered by a date range. From the filtered
  months it derives a pie chart of categories, a period total, a monthly average and the change
  from the other year.
- **Personal footprint calculator.** A five-step questionnaire. Submitting it computes a yearly
  footprint from housing, transport and consumption factors, scaled by recycling and lifestyle
  multipliers. The result is rounded to hundredths and classed into one of five profiles.
- **Carbon-credit marketplace.** A fixed catalogue with a type filter and a search box, and a cart
  with a running total.
- **Seven asset-management tables.** Waste, energy, vehicles, buildings, supply chain, machinery
  and personnel. Each is a list with a search box, an edit/add dialog, delete, summary cards and
  coloured badges.

Each page that changes state is a `class` whose fields are the page's state variables. Its
methods are the event handlers, and they state the whole new state. The pure computations are
functions with lemmas about them. The seven asset pages share one generic class,
`Tables.AssetTable`. Each page supplies its record's form conversions, merge, build and search
fields through a `RecordOps` value.

Modules:
- `Wrappers`: `Option`.
- `Seqs`: filter, sum, count and average as left folds.
- `Text`: ASCII lower-casing, substring search, decimal `toString` and `parseInt`.
- `Tables`: search, edit, add with the next numeric id, delete, and the `AssetTable` class.
- `Months`: the month-range filter shared by the dashboard and the statistics page.
- `Dashboard`, `Statistics`, `Calculator`, `Marketplace`.
- `Waste`, `Energy`, `Vehicles`, `Buildings`, `SupplyChain`, `Machinery`, `Personnel`.

The calculator's schema allows wider answers than the page's sliders produce, and the model
follows the schema:
- The single-use-plastics answer may be any real in 0..5. Its slider only gives the integers 1..5
  (calculadora/page.tsx:1097-1102).
- The energy-efficiency answer may be any real in 1..5. Its slider only gives integers
  (calculadora/page.tsx:505-512).

So every property proved for these answers also holds for what the sliders produce.

The household counts (adults, children, elderly) are required by the schema but have no starting
value. The adults field displays a fixed 1 (calculadora/page.tsx:402), but only typing into a
field sets its answer. The model keeps each count absent until it is typed, so an untouched form
fails the schema and shows no result.

Where the code and its documentation disagree, the model follows the code: "Volver a calcular"
clears the result but leaves the wizard on the step it was on.

## Model

| member | source | states |
|---|---|---|
| Text.Lower | src/app/dashboard/gestion-activos/residuos/page.tsx:145-147 | `toLowerCase`: same length, each character lower-cased (ASCII) |
| Text.Capitalize | src/app/dashboard/gestion-activos/cadena-suministros/page.tsx:311 | only the first character is upper-cased; the rest is kept |
| Text.LowerCapitalize | src/app/dashboard/gestion-activos/cadena-suministros/page.tsx:311 | capitalising a label does not change what a case-insensitive search sees |
| Text.ContainsEmpty | src/app/dashboard/gestion-activos/residuos/page.tsx:145-147 | every string contains the empty search term |
| Text.Show | src/app/dashboard/gestion-activos/residuos/page.tsx:172-174 | `toString` of a natural number is a non-empty string of decimal digits |
| Text.LeadingDigits | src/app/dashboard/gestion-activos/residuos/page.tsx:172-174 | the prefix `parseInt` reads is a run of digits at the start of the string |
| Text.ParseInt | src/app/dashboard/gestion-activos/residuos/page.tsx:172-174 | `parseInt` yields a number exactly when the string starts with a digit (NaN otherwise) |
| Text.LeadingDigitsOfNumeral | src/app/dashboard/gestion-activos/residuos/page.tsx:172-174 | on a numeral, `parseInt` reads the whole string |
| Text.DigitsValueShow | src/app/dashboard/gestion-activos/residuos/page.tsx:172-174 | the digits of `toString(n)` have the value n |
| Text.ParseShow | src/app/dashboard/gestion-activos/residuos/page.tsx:172-174 | round trip: `parseInt(toString(n)) == n` |
| Text.ShowInjective | src/app/dashboard/gestion-activos/residuos/page.tsx:172-174 | distinct numbers get distinct strings |
| Tables.Search | src/app/dashboard/gestion-activos/residuos/page.tsx:143-148 | the search keeps exactly the rows with a field that contains the lower-cased term, in order; the same code is on all seven asset pages |
| Tables.SearchConcat | src/app/dashboard/gestion-activos/residuos/page.tsx:143-148 | the search works row by row, so the rows it shows keep their order |
| Tables.SearchEmptyTerm | src/app/dashboard/gestion-activos/residuos/page.tsx:143-148 | an empty search box shows every row |
| Tables.SearchSumAtMost | src/app/dashboard/gestion-activos/residuos/page.tsx:143-148 | a non-negative card total over the searched rows never exceeds the total over all rows |
| Tables.Edit | src/app/dashboard/gestion-activos/residuos/page.tsx:163-169 | the edit branch of `handleSubmit`: same length, the row with the form's id is merged with the form, every other row is unchanged |
| Tables.EditMissingId | src/app/dashboard/gestion-activos/residuos/page.tsx:163-169 | editing an id that no row has changes nothing |
| Tables.Delete | src/app/dashboard/gestion-activos/residuos/page.tsx:207-209 | `handleDelete` keeps exactly the rows whose id differs |
| Tables.DeleteLength | src/app/dashboard/gestion-activos/residuos/page.tsx:207-209 | deleting removes as many rows as carry that id |
| Tables.DeleteConcat | src/app/dashboard/gestion-activos/residuos/page.tsx:207-209 | deletion works row by row, so the remaining rows keep their order |
| Tables.DeleteMissing | src/app/dashboard/gestion-activos/residuos/page.tsx:207-209 | deleting an absent id changes nothing |
| Tables.WithId | src/app/dashboard/gestion-activos/residuos/page.tsx:207-209 | the rows a delete removes: exactly those with the id |
| Tables.DeleteSum | src/app/dashboard/gestion-activos/residuos/page.tsx:207-209 | a card total after a delete is the old total less the deleted rows' share |
| Tables.NextId | src/app/dashboard/gestion-activos/residuos/page.tsx:172-174 | the add branch's new id: `parseInt` of the last id (or "0") plus one, as a string |
| Tables.NextIdNaN | src/app/dashboard/gestion-activos/residuos/page.tsx:172-174 | when the last id does not start with a digit, the new id is "NaN" |
| Tables.CountingIds | src/app/dashboard/gestion-activos/residuos/page.tsx:98-136 | the dummy data's ids "1", "2", … are numerals that increase |
| Tables.AscendingUnique | src/app/dashboard/gestion-activos/residuos/page.tsx:98-136 | increasing numeric ids are pairwise distinct |
| Tables.NextIdOfNumerals | src/app/dashboard/gestion-activos/residuos/page.tsx:172-174 | on numeric ids the new id is the last id plus one, or "1" for an empty list |
| Tables.NextIdFresh | src/app/dashboard/gestion-activos/residuos/page.tsx:172-174 | on increasing ids the new id is a numeral larger than every existing id |
| Tables.AddKeepsAscending | src/app/dashboard/gestion-activos/residuos/page.tsx:171-194 | appending a row with the next id keeps the ids increasing |
| Tables.FilterKeepsAscending | src/app/dashboard/gestion-activos/residuos/page.tsx:207-209 | removing rows keeps the ids increasing |
| Tables.DeleteKeepsAscending | src/app/dashboard/gestion-activos/residuos/page.tsx:207-209 | deleting keeps the ids increasing |
| Tables.EditKeepsAscending | src/app/dashboard/gestion-activos/residuos/page.tsx:163-169 | an edit that keeps ids keeps every row's id and the increasing order |
| Tables.AssetTable.constructor | src/app/dashboard/gestion-activos/residuos/page.tsx:85-141 | the initial state: the dummy rows, an empty search, the blank form, the dialog closed, not editing |
| Tables.AssetTable.Filtered | src/app/dashboard/gestion-activos/residuos/page.tsx:143-148 | the rows shown are exactly those that match the search term |
| Tables.AssetTable.SetSearchTerm | src/app/dashboard/gestion-activos/residuos/page.tsx:300 | the search box sets only the term |
| Tables.AssetTable.SetForm | src/app/dashboard/gestion-activos/residuos/page.tsx:150-159 | a form input sets only the dialog's form |
| Tables.AssetTable.SetDialogOpen | src/app/dashboard/gestion-activos/residuos/page.tsx:422 | the dialog's open state changes alone |
| Tables.AssetTable.HandleEdit | src/app/dashboard/gestion-activos/residuos/page.tsx:201-205 | `handleEdit`: the form is filled from the record, and the dialog opens in edit mode |
| Tables.AssetTable.OpenForAdd | src/app/dashboard/gestion-activos/vehiculos/page.tsx:203-207 | the add button: blank form, dialog open, not editing |
| Tables.AssetTable.HandleSubmit | src/app/dashboard/gestion-activos/residuos/page.tsx:161-199 | `handleSubmit`: edit merges by id, add appends a record with the next id; the dialog closes and the form is reset; increasing ids are preserved |
| Tables.AssetTable.HandleDelete | src/app/dashboard/gestion-activos/residuos/page.tsx:207-209 | `handleDelete`: the rows become the delete of the old rows; increasing ids are preserved |
| Months.IndexOf | src/app/dashboard/page.tsx:138-162 | `indexOf`: -1 exactly when absent, otherwise the first position of the name |
| Months.MonthIndices | src/app/dashboard/page.tsx:138-162 | each month abbreviation is found at its own 0-based position |
| Months.DayNumberOrdersDates | src/app/dashboard/page.tsx:138-162 | the day key orders valid dates as the calendar does, in both directions |
| Months.DayNumber | src/app/dashboard/page.tsx:141-160 | a number that orders the dates `new Date(year, month, day)` builds, as `>=` and `<=` compare them |
| Months.InRange | src/app/dashboard/page.tsx:140-160 | a month passes when the range is incomplete, or when its first day lies between the range's ends, both included |
| Months.RangeFilter | src/app/dashboard/page.tsx:138-162 | the effect keeps exactly the months whose first day lies in a complete range (all months when the range is incomplete) |
| Months.NoRangeKeepsAll | src/app/dashboard/estadisticas/page.tsx:240-263 | without a complete range the year's list is kept whole |
| Months.RangeFilterConcat | src/app/dashboard/estadisticas/page.tsx:240-263 | the filter preserves the year's month order |
| Months.RangeFilterOne | src/app/dashboard/estadisticas/page.tsx:240-263 | a single month is kept exactly when it is in range |
| Months.WholeYearKeepsAll | src/app/dashboard/estadisticas/page.tsx:240-263 | 1 January – 31 December of the selected year keeps every month |
| Months.NextYearKeepsNothing | src/app/dashboard/estadisticas/page.tsx:240-263 | a range wholly in the next year keeps nothing |
| Dashboard.TotalEmissions | src/app/dashboard/page.tsx:133-136 | `totalEmissions`: the sum of the categories' emissions |
| Dashboard.GoalReduction | src/app/dashboard/page.tsx:397 | the goal is a fifth of the total |
| Dashboard.CategoriesTotal | src/app/dashboard/page.tsx:133-136 | the six categories total 1.5 tonnes; the goal reads 0.3 |
| Dashboard.Shares | src/app/dashboard/page.tsx:310-318 | each bar is the category's emissions over the total, times 100, in category order |
| Dashboard.SharesSum | src/app/dashboard/page.tsx:310-318 | the summed shares times the total are 100 times the summed emissions |
| Dashboard.SharesAddUpTo100 | src/app/dashboard/page.tsx:310-318 | with a non-zero total, the bars add up to 100% |
| Dashboard.Cards | src/app/dashboard/page.tsx:200-219 | the first three categories; the arrow points up exactly above 0.2 tonnes; the change figure is a tenth of the emissions |
| Dashboard.CardArrows | src/app/dashboard/page.tsx:213-217 | buildings and vehicles show up arrows; machinery at exactly 0.2 shows a down arrow |
| Dashboard.ChartData | src/app/dashboard/page.tsx:138-162 | the effect's chart data: the selected year's months whose first day lies in the complete range |
| Dashboard.YearDataNamed | src/app/dashboard/page.tsx:106-125 | every month of the chart data is named by one of the twelve abbreviations |
| Dashboard.NoRangeChartsWholeYear | src/app/dashboard/page.tsx:138-162 | without a complete range the chart shows the whole year |
| Dashboard.NextYearEmptiesChart | src/app/dashboard/page.tsx:138-162 | a range in the following year empties the chart |
| Dashboard.Advance | src/app/dashboard/page.tsx:415 | one click: exactly five points more while that stays within 100, otherwise 100; never lower |
| Dashboard.AdvanceTimesCapped | src/app/dashboard/page.tsx:415 | n clicks from p ≤ 100 give min(p + 5n, 100) |
| Dashboard.SevenClicksReachGoal | src/app/dashboard/page.tsx:128-131 | from the initial 65%, six clicks give 95% and seven reach 100% |
| Dashboard.DashboardPage.constructor | src/app/dashboard/page.tsx:128-131 | initial state: 65%, 2024, no range, all of 2024's months |
| Dashboard.DashboardPage.UpdateProgress | src/app/dashboard/page.tsx:415 | the progress advances by one click; the rest is unchanged |
| Dashboard.DashboardPage.SetSelectedYear | src/app/dashboard/page.tsx:239 | the year changes and the chart is refiltered for it |
| Dashboard.DashboardPage.SetDateRange | src/app/dashboard/page.tsx:252 | the range changes and the chart is refiltered for it |
| Statistics.DataConsistent | src/app/dashboard/estadisticas/page.tsx:42-227 | in every month of the data the six categories add up to the total |
| Statistics.Filtered | src/app/dashboard/estadisticas/page.tsx:240-263 | the effect's filtered months: the selected year's months whose first day lies in the complete range |
| Statistics.NoRangeWholeYear | src/app/dashboard/estadisticas/page.tsx:241-263 | without a complete range the page uses the whole year |
| Statistics.PeriodTotal | src/app/dashboard/estadisticas/page.tsx:266-269 | the sum of the monthly totals |
| Statistics.PieData | src/app/dashboard/estadisticas/page.tsx:265-299 | six slices, one per category, each its category's sum over the filtered months; they add up to the category sums (SliceSum) |
| Statistics.CategorySums | src/app/dashboard/estadisticas/page.tsx:271-294 | the six category values of the pie, added together |
| Statistics.CategorySumsAddUp | src/app/dashboard/estadisticas/page.tsx:265-299 | for consistent months the six category sums add up to the period total |
| Statistics.SliceSum | src/app/dashboard/estadisticas/page.tsx:265-299 | the slices add up to the six category sums |
| Statistics.SlicesAddUpToPeriodTotal | src/app/dashboard/estadisticas/page.tsx:352 | for every year and range, the pie adds up to the period total shown |
| Statistics.PreviousYear | src/app/dashboard/estadisticas/page.tsx:302-315 | the comparison year differs from the selected one |
| Statistics.Change | src/app/dashboard/estadisticas/page.tsx:302-315 | the percentage change: undefined exactly for a zero base; change × base = (current − base) × 100; negative exactly when emissions fell |
| Statistics.YearlyChange | src/app/dashboard/estadisticas/page.tsx:302-315 | the change of the selected year's total against the other year's |
| Statistics.Total2023 | src/app/dashboard/estadisticas/page.tsx:43-164 | the twelve months of 2023 total 15.0 tonnes |
| Statistics.Total2024 | src/app/dashboard/estadisticas/page.tsx:165-226 | the six months of 2024 total 6.6 tonnes |
| Statistics.YearlyChanges | src/app/dashboard/estadisticas/page.tsx:302-315 | 2024 shows -56% against 2023; 2023 shows +1400/11% against 2024 |
| Statistics.MonthlyAverageAsWritten | src/app/dashboard/estadisticas/page.tsx:373-376 | the average as written is undefined (NaN) exactly when no month is left |
| Statistics.EmptyRangeAverageIsNaN | src/app/dashboard/estadisticas/page.tsx:373-376 | a range in the next year leaves no months, and the page divides by zero |
| Statistics.MonthlyAverage | src/app/dashboard/estadisticas/page.tsx:373-376 | the guarded average: the period total over the number of months, 0 for no months |
| Statistics.MonthlyAverageAgrees | src/app/dashboard/estadisticas/page.tsx:373-376 | on a non-empty period the guarded average equals the written one |
| Statistics.MonthlyAverageBounds | src/app/dashboard/estadisticas/page.tsx:373-376 | the guarded average lies between the smallest and largest monthly total, and is 0 for an empty period |
| Statistics.StatisticsPage.constructor | src/app/dashboard/estadisticas/page.tsx:230-300 | state after mount: 2024, no range, all of 2024, with the pie and totals derived from it |
| Statistics.StatisticsPage.Refresh | src/app/dashboard/estadisticas/page.tsx:240-300 | the effect: the chart, pie and category totals are recomputed from the year and range |
| Statistics.StatisticsPage.SetSelectedYear | src/app/dashboard/estadisticas/page.tsx:325-329 | the year changes and the effect refilters |
| Statistics.StatisticsPage.SetDateRange | src/app/dashboard/estadisticas/page.tsx:338-341 | the range changes and the effect refilters |
| Statistics.StatisticsPage.PieTotal | src/app/dashboard/estadisticas/page.tsx:352 | the period total card equals the filtered months' total |
| Calculator.SchemaValid | src/app/dashboard/calculadora/page.tsx:42-90 | the bounds the schema puts on every numeric answer, with the three household counts required |
| Calculator.HouseholdCount | src/app/dashboard/calculadora/page.tsx:52-54 | a household count must be present and lie in 0..20 |
| Calculator.Defaults | src/app/dashboard/calculadora/page.tsx:120-154 | the form's starting answers; the household counts have none |
| Calculator.EnergyFactor | src/app/dashboard/calculadora/page.tsx:172-177 | fossil 1.5, mixed 1, anything else 0.5 |
| Calculator.InsulationFactor | src/app/dashboard/calculadora/page.tsx:179-184 | none 1.2, basic 1, anything else 0.8 |
| Calculator.HeatingFactor | src/app/dashboard/calculadora/page.tsx:185-192 | oil 1.5, gas 1.2, electric 1, anything else 0.8 |
| Calculator.CoolingFactor | src/app/dashboard/calculadora/page.tsx:193-198 | air conditioning 1.3, fans 1.1, anything else 1 |
| Calculator.HousingTerm | src/app/dashboard/calculadora/page.tsx:171-209 | the housing term: 2 × size/100 × the energy, efficiency, insulation, heating, cooling and water factors |
| Calculator.TransportFactor | src/app/dashboard/calculadora/page.tsx:212-217 | car 2, public transport 1, anything else 0.5 |
| Calculator.CarTypeFactor | src/app/dashboard/calculadora/page.tsx:218-227 | gasoline 1.5, diesel 1.8, hybrid 1, electric 0.5, no car or none given 0 |
| Calculator.DrivingTerm | src/app/dashboard/calculadora/page.tsx:228-235 | the driving term: km/100 × the transport, car-type and fuel-efficiency factors |
| Calculator.TransportTerm | src/app/dashboard/calculadora/page.tsx:231-238 | driving plus public transport, flights and long-distance trips |
| Calculator.DietFactor | src/app/dashboard/calculadora/page.tsx:241-248 | meat-heavy 2, average 1.5, vegetarian 1, anything else 0.8 |
| Calculator.ConsumptionTerm | src/app/dashboard/calculadora/page.tsx:249-260 | the consumption term: 2 × diet × local food × (1 + waste) × clothing × electronics |
| Calculator.BaseFootprint | src/app/dashboard/calculadora/page.tsx:168-260 | the running sum before the multipliers |
| Calculator.RecyclingFactor | src/app/dashboard/calculadora/page.tsx:263-266 | one minus a tenth per separated material |
| Calculator.CompostingFactor | src/app/dashboard/calculadora/page.tsx:267 | 0.9 when composting, 1 otherwise |
| Calculator.PlasticReductionFactor | src/app/dashboard/calculadora/page.tsx:268 | one minus 0.05 per plastics-reduction point |
| Calculator.RecyclingMultiplier | src/app/dashboard/calculadora/page.tsx:263-270 | the product of the recycling, composting and plastics factors |
| Calculator.LifestyleMultiplier | src/app/dashboard/calculadora/page.tsx:272-282 | the product of the work-from-home, green-investment, community and offset factors |
| Calculator.Footprint | src/app/dashboard/calculadora/page.tsx:165-282 | the unrounded footprint: the base sum times both multipliers |
| Calculator.CarEfficiencyFactor | src/app/dashboard/calculadora/page.tsx:228-230 | 10 over the fuel efficiency, or 1 when it is missing or zero |
| Calculator.FactorRanges | src/app/dashboard/calculadora/page.tsx:171-254 | the bounds of every lookup-table factor |
| Calculator.CarEfficiencyPositive | src/app/dashboard/calculadora/page.tsx:228-230 | within the schema's efficiency bounds the factor is at least 0.2 |
| Calculator.RecycledCount | src/app/dashboard/calculadora/page.tsx:263-265 | at most five recycled materials are counted |
| Calculator.RecyclingFactorSteps | src/app/dashboard/calculadora/page.tsx:266 | each extra material recycled lowers the factor by 0.1, and it stays within 0.5..1 |
| Calculator.MultipliersInRange | src/app/dashboard/calculadora/page.tsx:263-282 | on valid answers the recycling and lifestyle multipliers lie in (0, 1] |
| Calculator.TermsNonneg | src/app/dashboard/calculadora/page.tsx:171-254 | on valid answers every additive term is non-negative |
| Calculator.FootprintNonneg | src/app/dashboard/calculadora/page.tsx:165-282 | on valid answers the footprint is non-negative |
| Calculator.FootprintFollowsTransport | src/app/dashboard/calculadora/page.tsx:231-282 | with the other terms fixed, a larger transport term never lowers the footprint |
| Calculator.OtherTermsUnchanged | src/app/dashboard/calculadora/page.tsx:171-282 | the transport answers affect only the transport term |
| Calculator.MoreDrivingNeverLowers | src/app/dashboard/calculadora/page.tsx:231-235 | more weekly driving never lowers the footprint |
| Calculator.MoreFlightsNeverLower | src/app/dashboard/calculadora/page.tsx:237 | more flights never lower the footprint |
| Calculator.MoreTripsNeverLower | src/app/dashboard/calculadora/page.tsx:238 | more long-distance trips never lower the footprint |
| Calculator.MoreRecyclingNeverRaises | src/app/dashboard/calculadora/page.tsx:263-270 | on valid answers, separating one more material never raises the footprint |
| Calculator.NoCarIgnoresDriving | src/app/dashboard/calculadora/page.tsx:218-235 | without a car the driving term is 0, whatever the kilometres |
| Calculator.HouseholdIgnored | src/app/dashboard/calculadora/page.tsx:42-90 | housing type and household size are asked but never used |
| Calculator.Round2 | src/app/dashboard/calculadora/page.tsx:284 | `Math.round(x*100)/100` is within half a hundredth of x |
| Calculator.Round2Hundredths | src/app/dashboard/calculadora/page.tsx:284 | the rounded result is a whole number of hundredths |
| Calculator.Label | src/app/dashboard/calculadora/page.tsx:287-296 | the profile names the page sets |
| Calculator.Classify | src/app/dashboard/calculadora/page.tsx:287-296 | the five profile bands, each as an if-and-only-if |
| Calculator.ClassifyMonotone | src/app/dashboard/calculadora/page.tsx:287-296 | a larger footprint never gets a milder profile |
| Calculator.RoundedAndProfileDisagreeAtFour | src/app/dashboard/calculadora/page.tsx:284-296 | 3.999 is shown as 4 yet classed Eco-Warrior, because the profile uses the unrounded value |
| Calculator.DefaultsNeedHousehold | src/app/dashboard/calculadora/page.tsx:42-154 | the starting answers fail the schema; with the household counts typed in they pass exactly when each count is in 0..20 |
| Calculator.DefaultsFootprint | src/app/dashboard/calculadora/page.tsx:120-154 | the starting answers with any household counts typed in give 6.327, shown as 6.33, "Consciente del Clima" |
| Calculator.Wizard.constructor | src/app/dashboard/calculadora/page.tsx:114-116 | starts on step 0 with no result or profile |
| Calculator.Wizard.Progress | src/app/dashboard/calculadora/page.tsx:344 | the progress bar lies in 20..100 and is full on the last step |
| Calculator.Wizard.OnSubmit | src/app/dashboard/calculadora/page.tsx:165-298 | `onSubmit`: the result is the rounded footprint and the profile is classed from the unrounded one |
| Calculator.Wizard.NextStep | src/app/dashboard/calculadora/page.tsx:300-306 | advances while there is a next step; on the last step it submits, and calculates only when the answers pass the schema |
| Calculator.SubmitUntouchedForm | src/app/dashboard/calculadora/page.tsx:300-306 | clicking through the five steps of an untouched form shows no result, because the schema rejects the missing household counts |
| Calculator.SubmitFilledDefaults | src/app/dashboard/calculadora/page.tsx:300-306 | the same clicks with household counts in 0..20 typed in show 6.33 |
| Calculator.Wizard.PrevStep | src/app/dashboard/calculadora/page.tsx:308-312 | goes back one step, except on the first |
| Calculator.Wizard.Recalculate | src/app/dashboard/calculadora/page.tsx:1335-1338 | clears the result and profile, shows the form again, keeps the step |
| Calculator.ResultBar | src/app/dashboard/calculadora/page.tsx:1250-1256 | a result within 0..20 tonnes fills 0..100% of the bar |
| Marketplace.CatalogueIdsDistinct | src/app/dashboard/marketplace/page.tsx:58-123 | the five projects have ids "1" to "5", pairwise distinct |
| Marketplace.FilteredCredits | src/app/dashboard/marketplace/page.tsx:142-148 | a card is shown exactly when its type matches the filter and its name or description contains the term, case-insensitively |
| Marketplace.NoFilterShowsAll | src/app/dashboard/marketplace/page.tsx:142-148 | "all" and an empty search show the whole catalogue |
| Marketplace.TotalPrice | src/app/dashboard/marketplace/page.tsx:138-140 | the cart total: the sum of its entries' prices |
| Marketplace.AddRaisesTotal | src/app/dashboard/marketplace/page.tsx:130-140 | adding a credit raises the total by exactly its price |
| Marketplace.RemoveLowersTotal | src/app/dashboard/marketplace/page.tsx:134-140 | removing an id lowers the total and the count by all entries with that id |
| Marketplace.RemoveKeepsOrder | src/app/dashboard/marketplace/page.tsx:134-136 | the remaining entries keep their order |
| Marketplace.RemoveMissingId | src/app/dashboard/marketplace/page.tsx:134-136 | removing an absent id changes nothing |
| Marketplace.AddThenRemove | src/app/dashboard/marketplace/page.tsx:130-136 | add then remove drops every copy of that credit, earlier ones included |
| Marketplace.TotalNonneg | src/app/dashboard/marketplace/page.tsx:138-140 | with non-negative prices the total is non-negative |
| Marketplace.ViewCart | src/app/dashboard/marketplace/page.tsx:285-301 | the badge count, the empty message exactly when empty, and the total exactly when not |
| Marketplace.MarketplacePage.constructor | src/app/dashboard/marketplace/page.tsx:126-128 | empty cart, "all" filter, empty search |
| Marketplace.MarketplacePage.SetFilter | src/app/dashboard/marketplace/page.tsx:174 | sets only the filter |
| Marketplace.MarketplacePage.SetSearchTerm | src/app/dashboard/marketplace/page.tsx:167 | sets only the search term |
| Marketplace.MarketplacePage.AddToCart | src/app/dashboard/marketplace/page.tsx:130-132 | appends the credit; the total rises by its price |
| Marketplace.MarketplacePage.RemoveFromCart | src/app/dashboard/marketplace/page.tsx:134-136 | removes every entry with the id; the total falls by their prices |
| Waste.Merge | src/app/dashboard/gestion-activos/residuos/page.tsx:163-169 | the edit branch: each field the form gives replaces the record's |
| Waste.Build | src/app/dashboard/gestion-activos/residuos/page.tsx:171-194 | the add branch: a record from the form under the new id, with the page's defaults for blank fields |
| Waste.SearchFields | src/app/dashboard/gestion-activos/residuos/page.tsx:143-148 | the search looks in the name, type and disposal method |
| Waste.MergeOwnForm | src/app/dashboard/gestion-activos/residuos/page.tsx:163-169 | saving an unchanged edit form leaves the record as it was |
| Waste.MergeEmptyForm | src/app/dashboard/gestion-activos/residuos/page.tsx:163-169 | an empty form changes no field |
| Waste.BuildFromFilledForm | src/app/dashboard/gestion-activos/residuos/page.tsx:171-194 | a record added from a filled form equals that record under the new id |
| Waste.BuildDefaults | src/app/dashboard/gestion-activos/residuos/page.tsx:171-194 | the defaults of a record added from a blank form |
| Waste.OpsKeepIds | src/app/dashboard/gestion-activos/residuos/page.tsx:161-199 | build uses the given id and merge keeps the record's id |
| Waste.InitialIdsAscending | src/app/dashboard/gestion-activos/residuos/page.tsx:98-136 | the dummy data's ids increase |
| Waste.QuantityKg | src/app/dashboard/gestion-activos/residuos/page.tsx:211-217 | tonnes count 1000 kg; kilograms and other units are taken as given |
| Waste.CarbonTotal | src/app/dashboard/gestion-activos/residuos/page.tsx:280-285 | the "Huella de Carbono Total" card: every stream's footprint, whatever the search box shows |
| Waste.TotalWaste | src/app/dashboard/gestion-activos/residuos/page.tsx:211-217 | the total in kg: tonnes times 1000, other units as given |
| Waste.RecycledWaste | src/app/dashboard/gestion-activos/residuos/page.tsx:219-225 | the recycled kg: each stream's kg times its recycling rate over 100 |
| Waste.RecycledAtMostTotal | src/app/dashboard/gestion-activos/residuos/page.tsx:211-225 | recycled waste lies between 0 and the total waste |
| Waste.RateTone | src/app/dashboard/gestion-activos/residuos/page.tsx:373-379 | the recycling-rate colour bands, each as an if-and-only-if |
| Waste.RateToneMonotone | src/app/dashboard/gestion-activos/residuos/page.tsx:373-379 | a higher rate never gets a more alarming colour |
| Waste.TypeTone | src/app/dashboard/gestion-activos/residuos/page.tsx:330-344 | the badge colour of each waste type |
| Waste.DisposalTone | src/app/dashboard/gestion-activos/residuos/page.tsx:355-363 | the badge colour of each disposal method |
| Waste.TypeToneInjective | src/app/dashboard/gestion-activos/residuos/page.tsx:330-344 | each waste type has its own colour |
| Waste.DisposalToneInjective | src/app/dashboard/gestion-activos/residuos/page.tsx:355-363 | each disposal method has its own colour |
| Energy.Merge | src/app/dashboard/gestion-activos/energia/page.tsx:157-164 | the edit branch: each field the form gives replaces the record's |
| Energy.Build | src/app/dashboard/gestion-activos/energia/page.tsx:165-191 | the add branch: a record from the form under the new id, with the page's defaults for blank fields |
| Energy.SearchFields | src/app/dashboard/gestion-activos/energia/page.tsx:136-141 | the search looks in the name, type and location |
| Energy.MergeOwnForm | src/app/dashboard/gestion-activos/energia/page.tsx:157-164 | saving an unchanged edit form leaves the record as it was |
| Energy.BuildFromFilledForm | src/app/dashboard/gestion-activos/energia/page.tsx:165-191 | a record added from a filled form equals that record under the new id |
| Energy.BuildDefaults | src/app/dashboard/gestion-activos/energia/page.tsx:165-191 | the defaults of a record added from a blank form |
| Energy.OpsKeepIds | src/app/dashboard/gestion-activos/energia/page.tsx:155-196 | build uses the given id and merge keeps the record's id |
| Energy.InitialIdsAscending | src/app/dashboard/gestion-activos/energia/page.tsx:93-131 | the dummy data's ids increase |
| Energy.CarbonTotal | src/app/dashboard/gestion-activos/energia/page.tsx:277-282 | the "Huella de Carbono Total" card: the sum of the shown rows' footprints |
| Energy.TotalProduction | src/app/dashboard/gestion-activos/energia/page.tsx:261-262 | the production card: the production of the sources the search box lets through |
| Energy.RenewableProduction | src/app/dashboard/gestion-activos/energia/page.tsx:208-212 | the production of the solar, wind and biomass sources |
| Energy.NonRenewableProduction | src/app/dashboard/gestion-activos/energia/page.tsx:214-218 | the production of every other source |
| Energy.ProductionSplits | src/app/dashboard/gestion-activos/energia/page.tsx:208-218 | renewable plus non-renewable production is the total production |
| Energy.RenewableAtMostTotal | src/app/dashboard/gestion-activos/energia/page.tsx:208-212 | renewable production lies between 0 and the total |
| Energy.CardsAgreeWithoutSearch | src/app/dashboard/gestion-activos/energia/page.tsx:261-272 | with an empty search the production card shows the full total, which bounds the renewable card |
| Energy.StatusTone | src/app/dashboard/gestion-activos/energia/page.tsx:327-331 | green exactly for active, red for inactive, yellow for maintenance |
| Vehicles.Merge | src/app/dashboard/gestion-activos/vehiculos/page.tsx:148-155 | the edit branch: each field the form gives replaces the record's |
| Vehicles.Build | src/app/dashboard/gestion-activos/vehiculos/page.tsx:156-177 | the add branch: a record from the form under the new id, with the page's defaults for blank fields |
| Vehicles.SearchFields | src/app/dashboard/gestion-activos/vehiculos/page.tsx:130-135 | the search looks in the name, brand, model and licence plate |
| Vehicles.MergeOwnForm | src/app/dashboard/gestion-activos/vehiculos/page.tsx:148-155 | saving an unchanged edit form leaves the record as it was |
| Vehicles.BuildFromFilledForm | src/app/dashboard/gestion-activos/vehiculos/page.tsx:156-177 | a record added from a filled form equals that record under the new id |
| Vehicles.BuildDefaults | src/app/dashboard/gestion-activos/vehiculos/page.tsx:156-177 | the defaults of a record added from a blank form |
| Vehicles.OpsKeepIds | src/app/dashboard/gestion-activos/vehiculos/page.tsx:146-182 | build uses the given id and merge keeps the record's id |
| Vehicles.InitialIdsAscending | src/app/dashboard/gestion-activos/vehiculos/page.tsx:83-124 | the dummy data's ids increase |
| Vehicles.AddBlankVehicle | src/app/dashboard/gestion-activos/vehiculos/page.tsx:146-207 | the add button, then saving the untouched dialog, appends a default vehicle with the next id and keeps ids increasing |
| Vehicles.CarbonTotal | src/app/dashboard/gestion-activos/vehiculos/page.tsx:230-235 | the "Huella de Carbono Total" card: the sum of the shown rows' footprints |
| Vehicles.AverageCarbon | src/app/dashboard/gestion-activos/vehiculos/page.tsx:244-249 | the average footprint of the shown vehicles, 0 for none |
| Vehicles.TotalMileage | src/app/dashboard/gestion-activos/vehiculos/page.tsx:256-257 | the total mileage of the shown vehicles |
| Vehicles.AverageWithinFootprints | src/app/dashboard/gestion-activos/vehiculos/page.tsx:244-249 | the average footprint lies between the smallest and the largest |
| Vehicles.FuelTone | src/app/dashboard/gestion-activos/vehiculos/page.tsx:305-313 | the fuel badge colours, each as an if-and-only-if |
| Buildings.Merge | src/app/dashboard/gestion-activos/edificios/page.tsx:144-151 | the edit branch: each field the form gives replaces the record's |
| Buildings.Build | src/app/dashboard/gestion-activos/edificios/page.tsx:152-172 | the add branch: a record from the form under the new id, with the page's defaults for blank fields |
| Buildings.SearchFields | src/app/dashboard/gestion-activos/edificios/page.tsx:126-131 | the search looks in the name, address and type |
| Buildings.MergeOwnForm | src/app/dashboard/gestion-activos/edificios/page.tsx:144-151 | saving an unchanged edit form leaves the record as it was |
| Buildings.BuildFromFilledForm | src/app/dashboard/gestion-activos/edificios/page.tsx:152-172 | a record added from a filled form equals that record under the new id |
| Buildings.BuildDefaults | src/app/dashboard/gestion-activos/edificios/page.tsx:152-172 | the defaults of a record added from a blank form |
| Buildings.OpsKeepIds | src/app/dashboard/gestion-activos/edificios/page.tsx:142-177 | build uses the given id and merge keeps the record's id |
| Buildings.InitialIdsAscending | src/app/dashboard/gestion-activos/edificios/page.tsx:86-121 | the dummy data's ids increase |
| Buildings.CarbonTotal | src/app/dashboard/gestion-activos/edificios/page.tsx:227-232 | the "Huella de Carbono Total" card: the sum of the shown rows' footprints |
| Buildings.AverageCarbon | src/app/dashboard/gestion-activos/edificios/page.tsx:241-246 | the average footprint of the shown buildings, 0 for none |
| Buildings.TotalArea | src/app/dashboard/gestion-activos/edificios/page.tsx:253-254 | the total area of the shown buildings |
| Buildings.AverageWithinFootprints | src/app/dashboard/gestion-activos/edificios/page.tsx:241-246 | the average footprint lies between the smallest and the largest |
| Buildings.SearchLowersTotals | src/app/dashboard/gestion-activos/edificios/page.tsx:231-255 | searching never raises the carbon or area cards |
| Buildings.RatingTone | src/app/dashboard/gestion-activos/edificios/page.tsx:300-310 | the energy-rating colours, each as an if-and-only-if |
| SupplyChain.Merge | src/app/dashboard/gestion-activos/cadena-suministros/page.tsx:120-127 | the edit branch: each field the form gives replaces the record's |
| SupplyChain.Build | src/app/dashboard/gestion-activos/cadena-suministros/page.tsx:128-148 | the add branch: a record from the form under the new id, with the page's defaults for blank fields and no type |
| SupplyChain.SearchFields | src/app/dashboard/gestion-activos/cadena-suministros/page.tsx:102-107 | the search looks in the name, type and location |
| SupplyChain.MergeOwnForm | src/app/dashboard/gestion-activos/cadena-suministros/page.tsx:120-127 | saving an unchanged edit form leaves the record as it was |
| SupplyChain.BuildFromFilledForm | src/app/dashboard/gestion-activos/cadena-suministros/page.tsx:128-148 | a record added from a filled form equals that record under the new id |
| SupplyChain.BuildDefaults | src/app/dashboard/gestion-activos/cadena-suministros/page.tsx:128-148 | the defaults of a record added from a blank form, with no type |
| SupplyChain.OpsKeepIds | src/app/dashboard/gestion-activos/cadena-suministros/page.tsx:118-153 | build uses the given id and merge keeps the record's id |
| SupplyChain.InitialIdsAscending | src/app/dashboard/gestion-activos/cadena-suministros/page.tsx:64-97 | the initial items' ids increase |
| SupplyChain.AverageScoreAsWritten | src/app/dashboard/gestion-activos/cadena-suministros/page.tsx:172-178 | the average score as written is undefined (NaN) exactly for an empty list |
| SupplyChain.AverageScoreEmptyIsNaN | src/app/dashboard/gestion-activos/cadena-suministros/page.tsx:172-178 | deleting the last item leaves the average card at NaN |
| SupplyChain.CarbonTotal | src/app/dashboard/gestion-activos/cadena-suministros/page.tsx:165-170 | the total footprint of all items |
| SupplyChain.AverageScore | src/app/dashboard/gestion-activos/cadena-suministros/page.tsx:172-178 | the guarded average score: the summed scores over the number of items, 0 for none |
| SupplyChain.AverageScoreAgrees | src/app/dashboard/gestion-activos/cadena-suministros/page.tsx:172-178 | on a non-empty list the guarded average equals the written one |
| SupplyChain.AverageScoreInRange | src/app/dashboard/gestion-activos/cadena-suministros/page.tsx:172-178 | with scores in 0..100 the guarded average lies in 0..100 |
| SupplyChain.SupplierCount | src/app/dashboard/gestion-activos/cadena-suministros/page.tsx:247-250 | the supplier count never exceeds the number of items |
| SupplyChain.InitialSupplierCount | src/app/dashboard/gestion-activos/cadena-suministros/page.tsx:247-250 | the initial items include exactly one supplier |
| SupplyChain.InitialAverageScore | src/app/dashboard/gestion-activos/cadena-suministros/page.tsx:172-178 | the initial items average a score of 81.25 |
| SupplyChain.ScoreTone | src/app/dashboard/gestion-activos/cadena-suministros/page.tsx:320-324 | the score colour bands, each as an if-and-only-if |
| SupplyChain.ScoreToneMonotone | src/app/dashboard/gestion-activos/cadena-suministros/page.tsx:320-324 | a higher score never gets a more alarming colour |
| SupplyChain.KindTone | src/app/dashboard/gestion-activos/cadena-suministros/page.tsx:300-308 | the type badge colour: blue, green and yellow for supplier, logistics and warehouse; purple otherwise |
| SupplyChain.KindLabel | src/app/dashboard/gestion-activos/cadena-suministros/page.tsx:311 | the capitalised label matches the type name case-insensitively |
| Machinery.Merge | src/app/dashboard/gestion-activos/maquinaria/page.tsx:136-143 | the edit branch: each field the form gives replaces the record's |
| Machinery.Build | src/app/dashboard/gestion-activos/maquinaria/page.tsx:144-166 | the add branch: a record from the form under the new id, with the page's defaults for blank fields |
| Machinery.SearchFields | src/app/dashboard/gestion-activos/maquinaria/page.tsx:117-123 | the search looks in the name, type, model and serial number |
| Machinery.MergeOwnForm | src/app/dashboard/gestion-activos/maquinaria/page.tsx:136-143 | saving an unchanged edit form leaves the record as it was |
| Machinery.BuildFromFilledForm | src/app/dashboard/gestion-activos/maquinaria/page.tsx:144-166 | a record added from a filled form equals that record under the new id |
| Machinery.BuildDefaults | src/app/dashboard/gestion-activos/maquinaria/page.tsx:144-166 | the defaults of a record added from a blank form |
| Machinery.OpsKeepIds | src/app/dashboard/gestion-activos/maquinaria/page.tsx:134-171 | build uses the given id and merge keeps the record's id |
| Machinery.InitialIdsAscending | src/app/dashboard/gestion-activos/maquinaria/page.tsx:80-112 | the dummy data's ids increase |
| Machinery.ActiveCount | src/app/dashboard/gestion-activos/maquinaria/page.tsx:247-251 | the active count never exceeds the number of machines |
| Machinery.CarbonTotal | src/app/dashboard/gestion-activos/maquinaria/page.tsx:221-226 | the "Huella de Carbono Total" card: the sum of the shown rows' footprints |
| Machinery.AverageCarbon | src/app/dashboard/gestion-activos/maquinaria/page.tsx:235-240 | the average footprint of the shown machines, 0 for none |
| Machinery.AverageWithinFootprints | src/app/dashboard/gestion-activos/maquinaria/page.tsx:235-240 | the average footprint lies between the smallest and the largest |
| Machinery.ActiveSplit | src/app/dashboard/gestion-activos/maquinaria/page.tsx:247-251 | active and non-active machines together are all machines |
| Machinery.StatusTone | src/app/dashboard/gestion-activos/maquinaria/page.tsx:293-297 | green exactly for active, red for inactive, yellow for maintenance |
| Personnel.Build | src/app/dashboard/gestion-activos/personal/page.tsx:133-149 | a new employee is active and stamped with today's date |
| Personnel.Merge | src/app/dashboard/gestion-activos/personal/page.tsx:125-132 | the edit branch: each field the form gives replaces the record's |
| Personnel.SearchFields | src/app/dashboard/gestion-activos/personal/page.tsx:110-116 | the search looks in the name, email, position and department |
| Personnel.MergeOwnForm | src/app/dashboard/gestion-activos/personal/page.tsx:125-132 | saving an unchanged edit form leaves the record as it was |
| Personnel.BuildFromFilledForm | src/app/dashboard/gestion-activos/personal/page.tsx:133-149 | an employee added from a filled form equals that record under the new id, made active and dated today |
| Personnel.BuildDefaults | src/app/dashboard/gestion-activos/personal/page.tsx:133-149 | the defaults of a record added from a blank form |
| Personnel.OpsKeepIds | src/app/dashboard/gestion-activos/personal/page.tsx:123-154 | build uses the given id and merge keeps the record's id |
| Personnel.InitialIdsAscending | src/app/dashboard/gestion-activos/personal/page.tsx:73-105 | the dummy data's ids increase |
| Personnel.ActiveCount | src/app/dashboard/gestion-activos/personal/page.tsx:230-233 | the active count never exceeds the number of employees |
| Personnel.CarbonTotal | src/app/dashboard/gestion-activos/personal/page.tsx:204-209 | the "Huella de Carbono Total" card: the sum of the shown rows' footprints |
| Personnel.AverageCarbon | src/app/dashboard/gestion-activos/personal/page.tsx:218-223 | the average footprint of the shown employees, 0 for none |
| Personnel.AverageWithinFootprints | src/app/dashboard/gestion-activos/personal/page.tsx:218-223 | the average footprint lies between the smallest and the largest |
| Personnel.AddRaisesActiveCount | src/app/dashboard/gestion-activos/personal/page.tsx:133-149 | adding an employee raises the active count by exactly one |
| Personnel.StatusTone | src/app/dashboard/gestion-activos/personal/page.tsx:275-277 | green exactly for active employees |

## Left out

- Rendering, styling, icons, charts and the number formatting of `toFixed` are not modelled. The model computes the values the page passes to them.
- Floating point: numbers are exact reals, so rounding error in sums and products is not captured. `Math.round` is modelled exactly, as the floor of x + 0.5.
- Browser input: answers are taken as already parsed numbers. Most of the calculator's number fields go through `parseInt` (calculadora/page.tsx:400, 421, 442 and others). That drops any decimals and gives NaN for a cleared field; neither effect is modelled. Only the fuel-efficiency field uses `parseFloat` (calculadora/page.tsx:722). In the asset dialogs only the add branch parses numbers, with `parseFloat`. The edit branch stores the text typed in (residuos/page.tsx:150-155, 163-169), which the page would then concatenate in its card totals or fail to format with `toFixed`. The model merges typed numbers.
- Tables.NextId: ids are unbounded naturals. JavaScript numbers are exact only up to 2^53, where `parseInt(id) + 1` can repeat an id, and `toString` switches to exponent notation from 10^21 (residuos/page.tsx:172-174). Neither limit is modelled.
- The current date (`new Date()`) is a `Today` parameter, and the date picker's dates are (year, month, day) triples. Time of day and time zones are left out.
- Text.Lower: lower-cases ASCII letters only; JavaScript's full Unicode case mapping is not modelled.
- Text.ParseInt: reads leading ASCII digits only; leading white space, a sign and hexadecimal prefixes, which `parseInt` also accepts, are not modelled.
- The asset pages' data would come from a fetch in a full deployment; here the dummy lists are the initial state, and the network is left out.
- In six of the seven asset pages the "add" button is a link to a registration page, so `handleSubmit`'s add branch cannot be reached from the page itself. The branch is modelled anyway. The registration pages are not part of this model.
- SupplyChain.SearchFields: an item added from a blank form has no type. The page's search would throw on it whenever its name does not match, since `item.type` is read only then; the model searches it as an empty type. Rendering that item's type label (`item.type.charAt(0)`, cadena-suministros/page.tsx:311) would also throw, and that crash is not modelled.
- The calculator's tabs: the page renders no tab triggers, so `onValueChange` (calculadora/page.tsx:349-350) never fires. Only the buttons move between steps.
- Calculator.Wizard.OnSubmit: the form's own submit event is reached only through the last step's button (`NextStep`), after the schema check. The schema's failure messages are not modelled.
- The calculator's recommendations, the carbon-credit project list it shows with the result, and the marketplace's static texts are fixed content with no logic, and are left out.
- The dashboard's "desde el mes pasado" texts and the carbon-credit card are static content with no logic, and are left out.
- Dashboard.Shares: requires a non-zero total. With a zero total the page would show NaN bars, but the categories are constants that total 1.5.
- Statistics.Change: returns `None` where the page would divide by a zero total and show NaN or Infinity.
- Statistics.StatisticsPage.constructor: the state is the one after the mount effect has run. The empty pie before the first effect is not modelled.
- Console logging in `onSubmit` is left out.

## Findings

| source | as written | input that shows it | evidently intended | confidence | as-written member | corrected member |
|---|---|---|---|---|---|---|
| src/app/dashboard/gestion-activos/cadena-suministros/page.tsx:172-178 | the average sustainability score divides the sum by the number of items with no guard | delete every item (for instance, the one item of a one-item list): the card shows NaN | 0 for an empty list, as the other asset pages' averages do with `\|\| 0` | likely; not executed | SupplyChain.AverageScoreAsWritten (with SupplyChain.AverageScoreEmptyIsNaN) | SupplyChain.AverageScore (with SupplyChain.AverageScoreInRange) |
| src/app/dashboard/estadisticas/page.tsx:373-376 | the monthly average divides the period total by the number of filtered months with no guard | select 2024 and a range wholly in 2025: no month is left and the card shows NaN | 0 for an empty period | likely; not executed | Statistics.MonthlyAverageAsWritten (with Statistics.EmptyRangeAverageIsNaN) | Statistics.MonthlyAverage (with Statistics.MonthlyAverageBounds) |
