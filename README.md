# Payroll dashboard: daily salary rule and the screens around it

This project models the salary arithmetic of a support-team payroll dashboard and proves properties of it. The dashboard pays each agent per day:

- `base = conversations * 20`.
- A late penalty of 2000 for every started block of 5 minutes by which the combined response time exceeds 5 minutes. The combined time is the mean of the first-response and response averages.
- A penalty of 500 per unreplied chat.
- The final pay is `max(base - penalty, 0)`.

Every input is first coerced with `Number(x) || 0`.

That rule is written out again in six places. The model has:

- one canonical definition of the rule, with the constants as parameters (`SalaryRule`);
- the configuration (`SalaryConfig`);
- each copy as it is written, each proved equal to the canonical rule or shown to differ.

Around the rule it models:

- the two copies of the date-range preset resolver, over a calendar with leap years and JavaScript's `Date` normalisation (`Calendar`, `NotePage`, `PayoutCompute`);
- the admin upload row editor, selection, validation, sorting and paging (`AdminUpload`);
- the client-side totals of the summary screen (`Summary`);
- the record card and its edit form (`RecordCard`);
- the payout batch totals (`SalaryBatches`);
- the notice bar's dismissal state machine over a key-value store (`Notice`).

Values arrive from forms and JSON as `Value = Undefined | Null | NaN | Num(real) | Text(string)`:

- `Values.ToNumber` is `Number(x)`, with None standing for NaN.
- `Values.Coerce` is `Number(x) || 0`.
- `Values.Truthy` is JavaScript truthiness.

Minutes and money are exact `real`s:

- `Math.ceil` is `-((-x).Floor)`.
- `toFixed(2)` read back as a number is `Arith.Round2`: the magnitude is rounded to the nearest hundredth, a half going to the larger magnitude, and the sign is put back, so halves go away from zero.

Dates are `(year, month 1..12, day)` without time of day. `new Date(y, m, d)` is `Calendar.MakeDate`: the month is normalised into the year, then day `d` counts from the first of that month, so day 0 is the last day of the month before.

Screens with state are classes:
- `NotePage.NotePayoutPage`
- `PayoutCompute.PayoutComputePage`
- `AdminUpload.AdminUploadPage`
- `RecordCard.EditForm`
- `Notice.NoticeBar`

Their fields are the React state, and their methods are the handlers, with the network response passed in as a parameter.

## Model

| member | source | states |
|---|---|---|
| SalaryConfig.ConfigConstants | config/salaryConfig.js:3-6 | pay per conversation 20, unreplied penalty 500, late penalty 2000, threshold 5 |
| SalaryConfig.BonusRulesAscending | config/salaryConfig.js:7-12 | the bonus tiers are strictly ascending by `max` |
| SalaryConfig.BonusRulesAllZero | config/salaryConfig.js:8-11 | every bonus amount is 0 |
| Values.Coerce | app/SalaryCalculator.jsx:6-9 | `Number(x) \|\| 0` is 0 when `Number(x)` is NaN and the number otherwise |
| Values.CoerceDefaults | app/SalaryCalculator.jsx:6-9 | undefined, null, NaN, the empty string and non-numeric text coerce to 0; a number is kept |
| Values.ParseDigits | app/Irrp5QQCN2J2sXrMpNOnFH/page.jsx:144-147 | `Number` of a digit string typed into an input is its decimal value |
| Values.CoerceIdempotent | app/summary/page.jsx:107-112 | coercing an already coerced value again changes nothing, as when `calcDaily` receives coerced inputs |
| Arith.Ceil | app/SalaryCalculator.jsx:21 | `Math.ceil(x)` is the integer n with x <= n < x + 1 |
| Arith.Round2 | app/SalaryCalculator.jsx:33 | `Number(x.toFixed(2))` is a whole number of hundredths within half a hundredth of x; a half goes up for x >= 0 and down for x < 0 |
| Arith.Round2Nearest | app/SalaryCalculator.jsx:33 | no whole number of hundredths is nearer to x than the rounded value |
| Arith.Round2Odd | app/SalaryCalculator.jsx:33 | rounding commutes with negation |
| Arith.Round2Ties | app/SalaryCalculator.jsx:33 | 2.125 rounds to 2.13 and -2.125 to -2.13 |
| Arith.Round2Exact | app/SalaryCalculator.jsx:33 | a whole number of hundredths, of either sign, is left as it is |
| Arith.Round2Monotone | app/SalaryCalculator.jsx:33 | rounding to hundredths never reverses an order |
| SalaryRule.LateBlocks | app/SalaryCalculator.jsx:19-23 | no block when combined <= threshold; otherwise the least number n >= 1 of 5-minute blocks covering the excess |
| SalaryRule.DailyPay | app/SalaryCalculator.jsx:12-29 | final is never negative, is at least base - penalty, and is either 0 or base - penalty |
| SalaryRule.DailyPayMeaning | app/SalaryCalculator.jsx:12-29 | base = conv * rate; combined is the mean; penalty = blocks * late penalty + unreplied * unreplied penalty; final = base - penalty when base >= penalty, else 0 |
| SalaryRule.AbsentInputsAreZero | app/SalaryCalculator.jsx:6-9 | absent or non-numeric inputs give the rule on zeros, with base 0 |
| SalaryRule.NoPenaltyIffWithinThreshold | app/SalaryCalculator.jsx:19-23 | with no unreplied chats the penalty is 0 exactly when combined <= threshold (strict comparison) |
| SalaryRule.LateBlocksLeast | app/SalaryCalculator.jsx:20-22 | any excess, however small, costs at least one block, and never more than any k blocks that cover it |
| SalaryRule.LateBlocksMonotone | app/SalaryCalculator.jsx:19-22 | a longer combined time never costs fewer blocks |
| SalaryRule.FinalAntitoneInUnrepliedRate | app/SalaryCalculator.jsx:26-29 | a lower per-chat penalty never gives a lower final pay for a non-negative chat count |
| SalaryRule.ThresholdBoundary | app/SalaryCalculator.jsx:19 | exactly at the threshold nothing is late; one hundredth above costs one block |
| SalaryRule.Scenarios | app/SalaryCalculator.jsx:12-29 | (1000, 5, 5, 0) pays 20000; (1000, 7, 9, 2) pays 17000 after a 3000 penalty; (0, 0, 0, 3) pays 0 |
| AppSalaryCalculator.ComputeSalaryIsRule | app/SalaryCalculator.jsx:5-37 | `computeSalary` has the rule's base, penalty and final under the configuration, and returns the rule's combined time rounded to hundredths |
| AppSalaryCalculator.PayIsRule | app/SalaryCalculator.jsx:12-35 | the same on coerced numbers |
| AppSalaryCalculator.ComputeSalaryFinalNonNegative | app/SalaryCalculator.jsx:29 | the final pay is never negative |
| AppSalaryCalculator.PenaltyIgnoresDisplayRounding | app/SalaryCalculator.jsx:19-33 | a combined time of 5.004 displays as 5.00 yet costs one 2000 block |
| AppSalaryCalculator.DefaultInputs | app/SalaryCalculator.jsx:40-43 | the initial form gives base 20000, penalty 0, final 20000 |
| ComponentSalaryCalculator.SameAsComputeSalary | components/SalaryCalculator.jsx:4-34 | base, combined, penalty and final equal those of `computeSalary` for every input |
| ComponentSalaryCalculator.FinalIsFlooredDifference | components/SalaryCalculator.jsx:26 | final >= 0; final = base - penalty when base >= penalty, else 0 |
| ComponentSalaryCalculator.UnrepliedAddsFiveHundred | components/SalaryCalculator.jsx:24 | one more unreplied chat adds exactly 500 to the penalty |
| ComponentSalaryCalculator.LatePenaltyBlocks | components/SalaryCalculator.jsx:16-21 | no late penalty for combined <= 5; above it 2000 per started block, at least 2000 |
| ComponentSalaryCalculator.CalculateLate | components/SalaryCalculator.jsx:16-21 | the same on coerced numbers |
| Calendar.MakeDate | app/note.jsx:23-24 | `new Date(y, m, d)` always gives a valid calendar date |
| Calendar.SetDateShift | app/note.jsx:30-31 | `setDate(getDate() - k)` is the date k days earlier, across month and year ends |
| Calendar.FirstOfMonth | app/note.jsx:23 | `new Date(y, m, 1)` is the first of month m + 1 |
| Calendar.FirstOfMonthBeforeJanuary | app/dduhfhjdbnschdbbejfhiwdknsbciwuuddbsbcihefihjnnjwwebi/page.jsx:57 | month index -1 normalises to December of the year before |
| Calendar.DayZeroOfNextMonth | app/note.jsx:24 | day 0 of the next month is the last day of the month, December included |
| Calendar.PresetRangeOrdered | app/note.jsx:26-61 | every preset's range starts no later than it ends |
| Calendar.LastDaysSpan | app/note.jsx:34-48 | the last-n window ends today and starts n - 1 days earlier |
| NotePage.RangeIsPreset | app/note.jsx:19-65 | this `rangeForPreset` gives, for every key and date, the range the key stands for |
| NotePage.SingleDayPresets | app/note.jsx:27-33 | today and yesterday are single days; yesterday is the day before, rolling back over month and year ends |
| NotePage.LastDaysPresets | app/note.jsx:34-48 | last3, last7 and last30 end today and span 3, 7 and 30 days |
| NotePage.ThisMonthPreset | app/note.jsx:49-53 | this month runs from day 1 to the month's last day |
| NotePage.LastMonthPreset | app/note.jsx:54-60 | last month is the whole previous month; January wraps to December of the prior year |
| NotePage.OtherKeysUnset | app/note.jsx:62-63 | custom and unknown keys give empty bounds |
| NotePage.PresetOrdered | app/note.jsx:26-61 | every range this copy gives has from <= to |
| NotePage.LastMonthInJanuary | app/note.jsx:54-60 | on 15 January 2024 last month is 1 to 31 December 2023 |
| NotePage.GuardsRefuse | app/note.jsx:90-127 | compute needs both bounds; save is refused without a result, with items missing or not an array, or empty |
| NotePage.DrawerIsRuleAtFifty | app/note.jsx:337-349 | the drawer's salary is the shared rule with the per-chat penalty set to 50 |
| NotePage.DrawerVersusRule | app/note.jsx:342-349 | with no unreplied chats the drawer equals the rule's final; with a non-negative count it is at least the rule's final |
| NotePage.DrawerUndercharges | app/note.jsx:348 | 1000 conversations, 7 and 9 minutes, 2 unreplied: the drawer shows 17900 where the rule pays 17000 |
| NotePage.IntendedDrawerIsRule | app/note.jsx:342-349 | with 500 per chat the drawer equals the rule's final and is never negative |
| NotePage.NotePayoutPage.constructor | app/note.jsx:69-75 | the page opens on "today" with both bounds today, no result and nothing expanded |
| NotePage.NotePayoutPage.SelectPreset | app/note.jsx:82-88 | any preset but custom overwrites both bounds with the range the key stands for; custom keeps them |
| NotePage.NotePayoutPage.Compute | app/note.jsx:90-104 | refused exactly without both bounds; a response replaces the result, a failure keeps it |
| NotePage.NotePayoutPage.SaveBatch | app/note.jsx:124-136 | posts `{from, to, items}` with the current bounds and the result's items exactly when the save guard lets it, and nothing otherwise |
| NotePage.NotePayoutPage.SetRange | app/note.jsx:171-190 | under the custom preset the typed bounds replace the old ones |
| NotePage.NotePayoutPage.CloseDetails | app/note.jsx:316-320 | Close collapses the user and empties its records |
| NotePage.SaveAfterPresetChange | app/note.jsx:80-87 | a result computed for today and saved after switching to yesterday is posted with yesterday's bounds |
| NotePage.ComputeWithClearedBound | app/note.jsx:89-90 | with a typed bound cleared under custom, compute is refused |
| NotePage.NotePayoutPage.ViewUserDetails | app/note.jsx:106-122 | expands the user; the fetched items, or [] when missing, replace the shown records; a failed request keeps them |
| PayoutCompute.EndOfMonthIsLastDay | app/dduhfhjdbnschdbbejfhiwdknsbciwuuddbsbcihefihjnnjwwebi/page.jsx:23-26 | `startOfMonth` is day 1 and `endOfMonth` the last day of the date's month |
| PayoutCompute.PreviousMonthStart | app/dduhfhjdbnschdbbejfhiwdknsbciwuuddbsbcihefihjnnjwwebi/page.jsx:57 | the first of month - 1 is the previous month's first day; January goes to December of the year before |
| PayoutCompute.RangeIsPreset | app/dduhfhjdbnschdbbejfhiwdknsbciwuuddbsbcihefihjnnjwwebi/page.jsx:20-65 | this `rangeForPreset` gives, for every key and date, the range the key stands for |
| PayoutCompute.CopiesAgree | app/dduhfhjdbnschdbbejfhiwdknsbciwuuddbsbcihefihjnnjwwebi/page.jsx:20-65 | both copies of `rangeForPreset` return the same range for every key and date, for dates without time of day |
| PayoutCompute.OtherKeysUnset | app/dduhfhjdbnschdbbejfhiwdknsbciwuuddbsbcihefihjnnjwwebi/page.jsx:62-63 | custom and unknown keys give empty bounds |
| PayoutCompute.GuardsAgree | app/dduhfhjdbnschdbbejfhiwdknsbciwuuddbsbcihefihjnnjwwebi/page.jsx:90-108 | the compute and save guards accept exactly what the other screen's guards accept; an empty item list is not saved |
| PayoutCompute.UserBreakdown | app/dduhfhjdbnschdbbejfhiwdknsbciwuuddbsbcihefihjnnjwwebi/page.jsx:119-120 | the breakdown of the first item whose user matches (or [] when it has none), and [] when no item matches |
| PayoutCompute.PayoutComputePage.constructor | app/dduhfhjdbnschdbbejfhiwdknsbciwuuddbsbcihefihjnnjwwebi/page.jsx:69-75 | the page opens on "today" with both bounds today, no result and nothing expanded |
| PayoutCompute.PayoutComputePage.SelectPreset | app/dduhfhjdbnschdbbejfhiwdknsbciwuuddbsbcihefihjnnjwwebi/page.jsx:81-87 | any preset but custom overwrites both bounds with the key's range; custom keeps them |
| PayoutCompute.PayoutComputePage.SetRange | app/dduhfhjdbnschdbbejfhiwdknsbciwuuddbsbcihefihjnnjwwebi/page.jsx:150-164 | under the custom preset the typed bounds replace the old ones |
| PayoutCompute.PayoutComputePage.Compute | app/dduhfhjdbnschdbbejfhiwdknsbciwuuddbsbcihefihjnnjwwebi/page.jsx:89-105 | refused exactly without both bounds; a response replaces the result and closes the details; a failure changes nothing |
| PayoutCompute.PayoutComputePage.SaveBatch | app/dduhfhjdbnschdbbejfhiwdknsbciwuuddbsbcihefihjnnjwwebi/page.jsx:107-110 | posts `{from, to, items}` with the current bounds and the result's items exactly when the result has at least one item, and nothing otherwise |
| PayoutCompute.PayoutComputePage.ViewUserDetails | app/dduhfhjdbnschdbbejfhiwdknsbciwuuddbsbcihefihjnnjwwebi/page.jsx:117-121 | expands the user and shows the first matching item's breakdown |
| PayoutCompute.PayoutComputePage.CloseDetails | app/dduhfhjdbnschdbbejfhiwdknsbciwuuddbsbcihefihjnnjwwebi/page.jsx:302-305 | Close collapses the user and, unlike the other payout screen, keeps the breakdown |
| AdminUpload.CalcSalaryIsRule | app/Irrp5QQCN2J2sXrMpNOnFH/page.jsx:13-31 | `calcSalary` with the configuration gives the rule's final, the same final as `computeSalary`, and the rule's combined time rounded |
| AdminUpload.CalcPayIsRule | app/Irrp5QQCN2J2sXrMpNOnFH/page.jsx:13-31 | the same on coerced numbers |
| AdminUpload.SetField | app/Irrp5QQCN2J2sXrMpNOnFH/page.jsx:126 | `{ ...row, [field]: value }` sets that field, keeps the id and every other field |
| AdminUpload.CreateRow | app/Irrp5QQCN2J2sXrMpNOnFH/page.jsx:34-41 | a new row has the fresh id and every field empty |
| AdminUpload.UpdateRows | app/Irrp5QQCN2J2sXrMpNOnFH/page.jsx:124-128 | same length and order; rows with another id unchanged; rows with the id change field f to the value and nothing else |
| AdminUpload.RemoveRowsMeaning | app/Irrp5QQCN2J2sXrMpNOnFH/page.jsx:130-132 | every row with the id is gone, every other row stays, in order (removal distributes over concatenation) |
| AdminUpload.TotalPayoutMeaning | app/Irrp5QQCN2J2sXrMpNOnFH/page.jsx:161-175 | the total is 0 for no rows, never negative, and adds each row's `calcSalary` final |
| AdminUpload.AddRowKeepsTotal | app/Irrp5QQCN2J2sXrMpNOnFH/page.jsx:122 | an added empty row leaves the total as it was |
| AdminUpload.PlanUpload | app/Irrp5QQCN2J2sXrMpNOnFH/page.jsx:134-149 | no rows is an error with nothing sent; success exactly when there are rows and every row has a user, and then every row is sent; otherwise it stops at a row without a user, after sending every row before it, each of which has one |
| AdminUpload.RequestsOf | app/Irrp5QQCN2J2sXrMpNOnFH/page.jsx:141-148 | one request per row, in order, each with the row's user and the page's date |
| AdminUpload.ToggleMeaning | app/Irrp5QQCN2J2sXrMpNOnFH/page.jsx:182-186 | checking appends the id even if present; unchecking removes every occurrence and keeps every other id |
| AdminUpload.SortedRecords | app/Irrp5QQCN2J2sXrMpNOnFH/page.jsx:64-70 | a permutation of the records, by `createdAt \|\| date` newest first for "newest", oldest first otherwise |
| AdminUpload.SelectAllMeaning | app/Irrp5QQCN2J2sXrMpNOnFH/page.jsx:74-75 | select-all selects exactly the records' ids and reads as all selected when there are records; clear-all selects nothing |
| AdminUpload.AllSelectedByCount | app/Irrp5QQCN2J2sXrMpNOnFH/page.jsx:74-75 | only lengths are compared: one record checked twice out of two reads as all selected |
| AdminUpload.PrevPage | app/Irrp5QQCN2J2sXrMpNOnFH/page.jsx:391 | the previous page is never below 1, and is page - 1 from page 2 on |
| AdminUpload.PageCount | app/Irrp5QQCN2J2sXrMpNOnFH/page.jsx:399 | the page count is the least n with total <= 10 n |
| AdminUpload.HasMoreIffBeforeLastPage | app/Irrp5QQCN2J2sXrMpNOnFH/page.jsx:58 | `page * 10 < total` exactly when the page is below the page count |
| AdminUpload.AdminUploadPage.constructor | app/Irrp5QQCN2J2sXrMpNOnFH/page.jsx:47-61 | no rows, no records, no selection, page 1, total 0, newest first, and the date field on today's date |
| AdminUpload.AdminUploadPage.PickDate | app/Irrp5QQCN2J2sXrMpNOnFH/page.jsx:237-241 | the date input sets the date later uploads post under |
| AdminUpload.AdminUploadPage.AddRow | app/Irrp5QQCN2J2sXrMpNOnFH/page.jsx:122 | appends one empty row, leaves the others and the total unchanged |
| AdminUpload.AdminUploadPage.UpdateRow | app/Irrp5QQCN2J2sXrMpNOnFH/page.jsx:124-128 | the rows become `UpdateRows` of the old rows |
| AdminUpload.AdminUploadPage.RemoveRow | app/Irrp5QQCN2J2sXrMpNOnFH/page.jsx:130-132 | the rows lose every row with the id |
| AdminUpload.AdminUploadPage.ToggleSelect | app/Irrp5QQCN2J2sXrMpNOnFH/page.jsx:182-186 | the selection becomes the toggled one |
| AdminUpload.AdminUploadPage.ToggleSelectAll | app/Irrp5QQCN2J2sXrMpNOnFH/page.jsx:178-180 | the selection becomes all sorted ids or none; with records, all read as selected |
| AdminUpload.AdminUploadPage.RecordsLoaded | app/Irrp5QQCN2J2sXrMpNOnFH/page.jsx:106-109 | a loaded page replaces records, page and total, and clears the selection |
| AdminUpload.AdminUploadPage.UploadAll | app/Irrp5QQCN2J2sXrMpNOnFH/page.jsx:134-152 | on success every row's request is posted in order under the page's date and the rows are cleared; on an error the rows stay, nothing is posted for no rows, and for a missing user exactly the rows before the first row without one are posted, each with a user |
| Summary.InlineConstantsAreConfig | app/summary/page.jsx:11-14 | the constants written into `calcDaily` equal the configuration's |
| Summary.CalcDailyIsRule | app/summary/page.jsx:10-33 | `calcDaily`'s final is the rule's final, never negative; its combined is the rule's rounded to hundredths |
| Summary.DailyOnIsRule | app/summary/page.jsx:10-33 | the same on coerced numbers |
| Summary.HandleSummary | app/summary/page.jsx:63-140 | refused exactly when the user, from or to is missing, and then nothing is verified; a failed request verifies nothing; otherwise the fetched items, or [] when missing, give the totals `VerifyTotals` promises |
| Summary.VerifyTotals | app/summary/page.jsx:89-133 | empty list gives all zeros and average 0; otherwise days = the record count, the three totals are the sums of the coerced conversations, `calcDaily` finals and unreplied chats, and the average is the rounded mean of the combined contributions (NaN when one is) |
| Summary.AddRecord | app/summary/page.jsx:106-122 | one record adds its coerced conversations, its `calcDaily` final and its unreplied chats to the totals, and its stored combined time when there is one, else `calcDaily`'s |
| Summary.TotalSalaryNonNegative | app/summary/page.jsx:114 | the verified total salary is never negative |
| Summary.TotalSalaryIsRule | app/summary/page.jsx:112-114 | the verified total salary is the sum of the rule's finals over the records |
| Summary.CombinedSumDefined | app/summary/page.jsx:116-122 | the combined sum is a number exactly when every record's contribution is |
| Summary.CombinedPreference | app/summary/page.jsx:116-122 | a stored combined time is used when present; null or undefined fall back to the computed rounded one; a stored NaN is NaN |
| RecordCard.CardFinal | components/RecordCard.jsx:45 | the card's final salary is never negative and at least base - penalty |
| RecordCard.CardPenaltyIsRuleOnRounded | components/RecordCard.jsx:41-44 | the card's penalty is the rule's penalty on the rounded combined time |
| RecordCard.FastIffNoLatePenalty | components/RecordCard.jsx:50-59 | the card is badged fast exactly when it carries no late penalty |
| RecordCard.CardPenaltyBounds | components/RecordCard.jsx:31-44 | rounding before the penalty never adds a block and removes at most one |
| RecordCard.CardWaivesBlock | components/RecordCard.jsx:31-45 | 5.008 and 5 minutes: the card shows 5.00, fast, no penalty, 20000, where the rule pays 18000 |
| RecordCard.IntendedIsRule | components/RecordCard.jsx:41-45 | with the unrounded combined time, and no stored value, the card's base, penalty and final are the rule's |
| RecordCard.CardExactAgrees | components/RecordCard.jsx:31-44 | when the combined time is already in whole hundredths the card and the intended penalty agree |
| RecordCard.EditForm.constructor | components/RecordCard.jsx:17-22 | the form starts with the record's four metrics |
| RecordCard.EditForm.HandleInput | components/RecordCard.jsx:47 | the typed text replaces the named field and no other |
| SalaryBatches.GrandTotalEmpty | app/salary/page.jsx:8-13 | no items, or a missing list, total 0 |
| SalaryBatches.GrandTotalAdds | app/salary/page.jsx:8-13 | the total is additive over a split of the items, and one item totals its amount |
| SalaryBatches.ItemAmountFallback | app/salary/page.jsx:10 | an item counts its bonus-inclusive final, else its salary, else 0; a final of 0 falls through to the salary |
| SalaryBatches.DisplayedTotalFallback | app/salary/page.jsx:59 | a truthy stored total is shown; 0, null or missing is recomputed from the items |
| SalaryBatches.HasMoreMeaning | app/salary/page.jsx:44 | more is offered exactly when every number of 5-batch pages that can hold `total` batches lies beyond the current page |
| SalaryBatches.Loaded | app/salary/page.jsx:28-30 | a loaded page is a permutation of the fetched batches, newest first |
| SalaryBatches.LoadedNewestFirst | app/salary/page.jsx:28-30 | the first batch shown is the newest of the page |
| Seqs.Filter | app/Irrp5QQCN2J2sXrMpNOnFH/page.jsx:131 | `filter` keeps exactly the elements that pass, never more |
| Seqs.SortDesc | app/salary/page.jsx:28-30 | a comparator sort by descending key returns a descending permutation |
| Notice.Written | components/NoticeBar.jsx:43-50 | a positive time to live stores `expires = now + ttl`; otherwise a dismissal with no expiry |
| Notice.CloseStore | components/NoticeBar.jsx:40-51 | without a key nothing is written; with one, the dismissal is stored under it |
| Notice.MountCases | components/NoticeBar.jsx:23-38 | no key, no entry, a blank or unparsable entry change nothing; ttl 0 hides; else hidden exactly while a non-zero expiry lies ahead, and the entry is dropped otherwise |
| Notice.CloseThenRemount | components/NoticeBar.jsx:32-47 | closed at t with ttl > 0, a remount before t + ttl is hidden, from t + ttl on it is shown with the entry removed |
| Notice.CloseWithoutExpiry | components/NoticeBar.jsx:30-49 | with ttl 0 the dismissal lasts; with a negative ttl the next mount drops it |
| Notice.NoKeyNeverPersists | components/NoticeBar.jsx:24-42 | without a key closing stores nothing and the next mount changes nothing |
| Notice.NoticeBar.constructor | components/NoticeBar.jsx:14-21 | a bar with the given key and ttl starts open |
| Notice.NoticeBar.Default | components/NoticeBar.jsx:14-21 | a bar rendered without props uses the key "dashboard-notice" and a ttl of 1000 ms, and starts open |
| Notice.DefaultBarOneSecond | components/NoticeBar.jsx:16-51 | a default bar closed at t stores expiry t + 1000; a mount before then is hidden, from then on it shows with the entry dropped |
| Notice.NoticeBar.MountEffect | components/NoticeBar.jsx:23-38 | the effect hides the bar or drops the entry as the check says, and never reopens it |
| Notice.NoticeBar.HandleClose | components/NoticeBar.jsx:40-51 | closing hides the bar and stores the dismissal under the key |
| Notice.RemountAfterClose | components/NoticeBar.jsx:23-51 | a bar closed at t and a new one mounted on the same store at t2 is shown exactly when t2 >= t + ttl |
| Notice.DefaultRemountAfterClose | components/NoticeBar.jsx:16-51 | with the default props, a bar mounted at t2 after a close at t shows exactly when t2 >= t + 1000 |

## Left out

- NaN propagation: `Number(x) || 0` is modelled exactly, but the places that call `Number` without `|| 0` after it coerce NaN to 0 in the model. These are the card's `Number(record.conversations)`, `Number(record.combinedAvgResponseTime)`, `Number(record.avgFirstResponse || 0)`, `Number(record.avgResponseTime || 0)` and `Number(record.unrepliedChats || 0)`, and the batch page's `Number(...)` of a picked amount. On non-numeric text the card shows NaN for the combined time, penalty and final pay; the model shows the values for 0. The summary's stored combined time is the exception: there NaN is kept, as None.
- SalaryBatches.GrandTotal: a missing item list totals 0. `calculateGrandTotal(items = [])` applies its default only to `undefined`; an `items` of `null` throws, and that is not modelled.
- `Number` on text: `Values.ParseNumber` reads an empty string, an optional sign, digits and at most one dot. Surrounding whitespace, exponents, hexadecimal, `Infinity` and the IEEE-754 rounding of decimal literals are not modelled.
- Binary floating point: minutes and money are exact reals, and `toFixed(2)` is the exact rounding to hundredths with halves away from zero. A decimal literal that binary floating point stores slightly below or above a half is rounded by the model as the exact half. Where a copy returns the string of `toFixed(2)`, the model returns the rounded number.
- Time zones and time of day: dates have no time. The shift that `toISOString()` of a local-midnight `Date` can cause east of UTC is not modelled, and neither is the 23:59:59.999 of `lastDayOfMonth`.
- PayoutCompute.CopiesAgree: holds only at UTC offset 0. For the `to` of thisMonth and lastMonth, app/note.jsx:24 builds the month's end at local 23:59:59.999, while the other copy builds it at local midnight (app/dduhfhjdbnschdbbejfhiwdknsbciwuuddbsbcihefihjnnjwwebi/page.jsx:25-26). Both then take the UTC date of `toISOString()`. West of UTC the note.jsx copy gives the 1st of the next month; east of UTC the other copy gives the day before the last. So the two screens disagree on those bounds in every other zone.
- `Date.now()`, `new Date()`, `crypto.randomUUID()` become parameters. Record timestamps are integers in milliseconds; an unparsable date string is not modelled.
- HTTP: every `api` call is left out. Its response, or its failure, is a parameter of the handler that receives it.
- The upload's sequential POSTs. `PlanUpload` returns how many rows the loop would send, and `UploadAll` the requests for them, assuming every POST succeeds. A request that fails part-way is not modelled, and neither is the reload after success.
- The server-side payout aggregation and bonus lookup. `BONUS_RULES` is never read by the screens, so no bonus lookup is modelled.
- The stability of the sorts: `SortedRecords` and `Loaded` are stated as ordered permutations only.
- The drawer's date-descending ordering of the fetched records, rendering, toasts, confirmation dialogs, locale formatting, loading flags, bulk delete and record editing.
- Authentication, the login modal, navigation and the other screens.
- RecordCard.IntendedIsRule: stated only for records without a stored combined time. With a stored time the other copies differ among themselves: the summary uses it as it is, the card rounds it.
- NotePage.NotePayoutPage.ViewUserDetails: the request is asynchronous. A response that arrives after another user was expanded is not modelled.

## Findings

| source | as written | input that shows it | evidently intended | confidence | as-written member | corrected member |
|---|---|---|---|---|---|---|
| app/note.jsx:348 | the details drawer adds `unr * 50` to the penalty | 1000 conversations, 7 and 9 minutes, 2 unreplied chats: the drawer shows 17900 | 500 per unreplied chat, as in every other copy and the configuration: 17000 | medium, not executed | NotePage.DrawerUndercharges | NotePage.IntendedDrawerIsRule |
| components/RecordCard.jsx:33-44 | the late penalty is taken from the combined time after `toFixed(2)` | 5.008 and 5 minutes (combined 5.004), no stored combined time: the card charges no late block and shows 20000 | the penalty from the unrounded combined time, as `computeSalary` does: one block, 18000 | medium, not executed | RecordCard.CardWaivesBlock | RecordCard.IntendedIsRule |
