# Health-record screens of the medi-lk mobile app, modelled in Dafny

The app is a React Native client for a health-tracking service. Its screens fetch a user's records from a REST API, and then compute on the client everything they show:

- **Dashboard** (fluid balance): resolves a time window, filters the log against it, and sums intake and output. It groups the chart points per record or per day, and builds the query URL that reports a new intake or output.
- **Home**: filters lab reports and BMI entries to whole-day bounds and sorts them by date. It sets those bounds from a preset filter or from two date pickers, and maps the kept records to chart series and labels.
- **BMI**: reduces the records to count, average, minimum, maximum and latest BMI. It classifies a BMI into four bands, previews the BMI of the typed height and weight, and shapes the submitted record.
- **Ear**: classifies hearing thresholds into five bands and averages both ears. It shows the latest test, guards the submission, shapes its payload and clears the form.
- **Eye**: classifies visual acuity into five bands, averages the twelve acuity fields per test and over all tests, and feeds the chart. It builds the submitted payload key by key.
- **Lab** and **Dietary**: average (Lab) or total (Dietary) the stored values. They refuse an upload with an empty input or no image, and build a multipart body by appending the user, every input and the image.
- **Prescription**: counts the bundled sample prescriptions by status, colours the status badges and decides where the refill button appears.

## How the model is built

**Modules.** The model keeps the screens apart: each screen is one module (`Dashboard`, `Home`, `Bmi`, `Ear`, `Eye`, `Lab`, `Dietary`, `Prescription`). Shared modules model the JavaScript they lean on:

- `Js`: numbers with NaN, `parseFloat`, `Number`, `|| 0`, truthiness and `toFixed`.
- `Text`: `split`, `indexOf` and `replace` of the first occurrence.
- `Lists`: `filter`, `reverse` and sums.
- `Calendar` and `Clock`: the proleptic Gregorian calendar and the local `Date` getters and setters on a fixed-offset clock.
- `IsoTime`: `toISOString().slice(0, 19).replace('T', ' ')` and the server reading that text back.
- `Multipart`: `FormData` as used by the upload screens.

**Form of the code.** The model follows the form of the source:

- Reduces, maps and if-chains are functions.
- The `Date` objects that `filterData` and the preset effect move field by field are local variables of methods (`Dashboard.ResolveWindow`, `Home.PresetRange`).
- The dictionary `chartGroupedData` updates in place is a `map` updated in a loop (`Dashboard.GroupByDay`), read out in the order its days were first met.
- The payload object `submitEyeTest` writes key by key is a `map` filled in a loop (`Eye.BuildPayload`).
- The `FormData` object is a class whose `Append` only ever adds at the end (`Multipart.FormPayload`).
- The date-filter state of the home screen is a class whose methods are the event handlers (`Home.DateFilter`).

**Numbers.** JavaScript numbers are `Js.JsNum`: `NaN` or an exact real.

- `toFixed(d)` is `Js.Rounded`, the nearest multiple of 10^-d, further from zero on a tie. Every card is proved to lie within half a unit of the last written place of the value it rounds.
- Instants are integers of milliseconds. The local clock is UTC plus a fixed offset `tz`.
- "Now", the platform (Android or not) and the signed-in user are parameters.

## Model

| member | source | states |
|---|---|---|
| Dashboard.ResolveWindow | screens/Dashboard.js:100-141 | The window built by moving `Date` fields one at a time is, for every range, custom date and parse result, the window that range stands for (`RangeWindow`) |
| Dashboard.TodayWindow | screens/Dashboard.js:106-109 | An instant is in the today window iff it is on today's local date and not after now; custom without a date gives the same window (133-136) |
| Dashboard.YesterdaySteps | screens/Dashboard.js:111-116 | Going back one day with `setDate(getDate() - 1)` and then to 00:00:00.000 or 23:59:59.999 gives the first or the last millisecond of the previous local day |
| Dashboard.YesterdayWindow | screens/Dashboard.js:110-117 | An instant is in the yesterday window iff its local date is the day before today: midnight through 23:59:59.999, both ends included |
| Dashboard.WeekAndFallbackWindows | screens/Dashboard.js:118-122 | The week window holds exactly the instants from seven days before now up to now; an unknown range (the default branch, 138-140) holds exactly those from the epoch up to now |
| Dashboard.CustomWindow | screens/Dashboard.js:128-137 | With a custom date, an instant is in the window iff the date parsed and the instant lies on its local day; a date that does not parse keeps nothing |
| Dashboard.MonthWindowStart | screens/Dashboard.js:123-127 | The month window ends at now and starts at the same time of day on the same date of the previous month, or, when that month is too short, as many days into the current month as it lacks (`setMonth` overflow) |
| Dashboard.KeepInWindow | screens/Dashboard.js:143-146 | The filter keeps exactly the log's records whose instant is inside the window, bounds included, never one with an Invalid Date |
| Dashboard.KeepInWindowInOrder | screens/Dashboard.js:143-146 | Filtering a concatenation gives the concatenation of the filtered parts, so the kept records stay in log order |
| Dashboard.KeepInWindowIdempotent | screens/Dashboard.js:143-146 | Filtering the filtered log again with the same window changes nothing |
| Dashboard.FilterData | screens/Dashboard.js:100-149 | `filterData` returns the log filtered by the resolved window: the records inside it, and only those |
| Dashboard.Stats | screens/Dashboard.js:20-27 | Total intake and total output are the sums over the records, and the balance is their difference (all 0 for no records) |
| Dashboard.TimestampParts | screens/Dashboard.js:167 | For a `date time` timestamp, the first piece of `split(" ")` is the date and the second the time |
| Dashboard.NoSpaceParts | screens/Dashboard.js:173 | A timestamp without a space is all date and has no time label (`undefined`) |
| Dashboard.PerRecordPoints | screens/Dashboard.js:165-170 | The per-record chart has one point per record, in order, labelled with the time part and carrying that record's two amounts |
| Dashboard.DayKeys | screens/Dashboard.js:173-174 | The day labels are distinct, at most one per record, and are exactly the date parts that occur in the records |
| Dashboard.GroupByDay | screens/Dashboard.js:171-179 | The in-place dictionary reduce, read out in insertion order, gives the day points: one per date part in first-seen order, holding that day's sums |
| Dashboard.ChartGroupedData | screens/Dashboard.js:165-179 | Today, yesterday and custom chart one point per record; every other range charts one point per day |
| Dashboard.DaySumsConserve | screens/Dashboard.js:171-179 | Grouping loses nothing: the day sums add up to the sum over all filtered records, for intake and for output |
| Dashboard.DayPointsMatchStats | screens/Dashboard.js:171-179 | The day points add up to exactly the totals the stat cards show (20-27) |
| Dashboard.ChartDataOf | screens/Dashboard.js:181-196 | The chart takes at most five labels, from the front, and one intake and one output value per point, in order |
| Dashboard.ChartShownIffRecords | screens/Dashboard.js:243 | With either kind of points, the chart is drawn iff the filtered list is not empty |
| Dashboard.ParseWaterQueryInverse | screens/Dashboard.js:34 | Intake, output and user id can be read back out of the `IN(..)%2COUT(..)%2C..` query value when the amounts hold no `)` |
| Dashboard.SubmitWaterIn | screens/Dashboard.js:30-34 | Refused as a missing value iff the input is empty, as an unknown user iff the input is there but the user or its id is missing; otherwise the URL reports the input with output 0 for that user, and its query reads back to them when the input has no `)` |
| Dashboard.SubmitUrineOut | screens/Dashboard.js:48-52 | The mirror of the intake submission: the same two refusals, otherwise the URL reports intake 0 and the typed output for that user, and its query reads back to them when the output has no `)` |
| Home.SortByDate | screens/Home.js:175 | The date sort returns a permutation of its input in which valid dates ascend |
| Home.FilterAndSort | screens/Home.js:167-175 | `filterAndSort` returns the kept items, every one of them and no other, in ascending date order (a permutation of the filtered list) |
| Home.KeptByDay | screens/Home.js:164-173 | With whole-day bounds a valid date is kept iff its local day is between the start's day and the end's day, both included; an absent bound does not restrict |
| Home.EpochBoundIgnored | screens/Home.js:171 | A start bound that falls on the instant 0 is falsy and filters nothing |
| Home.FilteredLab | screens/Home.js:177 | Lab reports are filtered and sorted on `created_at`: sorted, exactly the kept reports, each as often as in the data |
| Home.FilteredBmi | screens/Home.js:178 | BMI entries are filtered and sorted on `timestamp`: sorted, exactly the kept entries, each as often as in the data |
| Home.PresetRange | screens/Home.js:182-210 | The preset effect, moving `start` and `end` field by field from now, yields the window the filter stands for; custom sets nothing |
| Home.YesterdayPresetSteps | screens/Home.js:192-194 | Back one day, then to midnight, is the start of the previous local day; the end of today moved back one day is the end of the previous day |
| Home.WeekPresetSteps | screens/Home.js:197-198 | `setDate(getDate() - getDay())` and then midnight is the midnight of the day `getDay()` days before today |
| Home.MonthPresetSteps | screens/Home.js:201-202 | `setDate(1)` and then midnight is the midnight of the first of the current local month |
| Home.PresetEndsToday | screens/Home.js:183-195 | Every preset but custom ends at 23:59:59.999: of today, except yesterday, which ends on the previous day |
| Home.YesterdayPreset | screens/Home.js:191-195 | Yesterday starts at midnight of the previous day and lasts exactly one day less a millisecond |
| Home.WeekPresetStart | screens/Home.js:196-199 | The week starts at midnight of the most recent Sunday, today itself iff today is a Sunday, within the last six days |
| Home.MonthPresetStart | screens/Home.js:200-203 | The month starts at midnight of the first of the current month, not after now |
| Home.DateFilter.constructor | screens/Home.js:131-136 | The first render: filter week, no picker, and bounds set by the week preset |
| Home.DateFilter.ApplyPreset | screens/Home.js:182-210 | The effect sets both bounds to the active filter's window, or leaves them for custom, and changes nothing else |
| Home.DateFilter.HandleFilterChange | screens/Home.js:212-215 | The chosen filter becomes active and the custom picker shows iff it is custom; the bounds move to the new preset only when the filter changed and is not custom |
| Home.DateFilter.ShowPicker | screens/Home.js:229-232 | Opens the picker for the requested bound and changes no date |
| Home.DateFilter.OnDateChange | screens/Home.js:217-227 | A picked date goes to the start bound iff the start picker was open, otherwise to the end bound; a cancelled pick changes neither; the active picker is cleared and the picker stays open only on iOS |
| Home.DateFilter.PickerValue | screens/Home.js:271 | The picker opens on the bound being picked, or on now when that bound is unset |
| Home.DateFilter.LabShown | screens/Home.js:177 | The lab reports charted for the current bounds: the kept ones, each as often as in the data, sorted by date |
| Home.DateFilter.BmiShown | screens/Home.js:178 | The BMI entries charted for the current bounds: the kept ones, each as often as in the data, sorted by date |
| Home.ChartValue | screens/Home.js:36 | A chart value is the parsed number, or 0 when the text does not parse |
| Home.ChartValueDefaults | screens/Home.js:52 | A number plots at its value and text with no digit plots at 0 |
| Home.Series | screens/Home.js:33-96 | Each chart series has one value per record, in the order of the filtered list |
| Home.FormatDate | screens/Home.js:20 | "N/A" iff the date field is empty; for a non-empty field, "Invalid Date" iff it does not parse; a shown date is a valid calendar date naming the local day of the instant |
| Home.Labels | screens/Home.js:35 | One date label per record, in order |
| Bmi.Readings | screens/BMI.js:28 | One `parseFloat` reading per record, in order |
| Bmi.StatsOf | screens/BMI.js:26-37 | The count is the number of records, min and max are absent iff there are none, and the latest BMI is the last record's, in source order |
| Bmi.StatsSum | screens/BMI.js:31 | The running sum is a number iff every BMI was read, and is then the sum of them all; one unreadable BMI makes it NaN |
| Bmi.StatsBounds | screens/BMI.js:32-33 | With every BMI read, min and max are numbers bounding every BMI and are each one of them |
| Bmi.StatsUnreadable | screens/BMI.js:32-33 | One unreadable BMI makes min and max NaN for good |
| Bmi.Average | screens/BMI.js:38 | The average is 0 without records, NaN iff the sum is, and otherwise the sum over the count |
| Bmi.CurrentCardShown | screens/BMI.js:39-46 | The current card and its category appear together, iff the last BMI is truthy, and the card shows that BMI with one decimal |
| Bmi.ShownAverage | screens/BMI.js:47 | A shown average comes from a numeric sum over at least one record and is that mean with one decimal |
| Bmi.AverageCardMean | screens/BMI.js:38-47 | A shown average means every BMI was read, and is their mean with one decimal (within 0.05 of it); no records show "N/A" |
| Bmi.RangeCardBounds | screens/BMI.js:49 | A range is shown only when every BMI was read; its two ends are numbers in order, each is some BMI with one decimal, and every BMI is within 0.05 of the range |
| Bmi.CategoryOf | screens/BMI.js:253-258 | Four bands with strict upper bounds: below 18.5, below 25, below 30, otherwise Obese; NaN fails every test and is Obese |
| Bmi.CategoryMonotone | screens/BMI.js:253-258 | A larger BMI never gets a lower band |
| Bmi.RowColorAgrees | screens/BMI.js:195 | When the stored text is a plain number, the row colour (text compared with `<`) is the colour of the band the header reads |
| Bmi.Quotient | screens/BMI.js:260-261 | The preview BMI is a finite value iff both inputs read and the height is not 0, and then times the squared height gives the weight; a zero height with a non-zero weight is infinite |
| Bmi.PreviewPositive | screens/BMI.js:58 | A shown preview (height typed, weight above 0) of a readable non-zero height is a finite positive BMI |
| Bmi.SubmitBmi | screens/BMI.js:129-141 | Refused iff height or weight is empty; otherwise the body carries `parseFloat` of the height and of the weight, and the user's id |
| Bmi.SubmitBmiPayload | screens/BMI.js:135-141 | An accepted form sends the date, read back by the server as the picked instant to the second |
| Bmi.SubmitBmiMeasures | screens/BMI.js:137-138 | A height and weight typed as digits with an optional fractional part, such as "1.75" and "70", arrive as the numbers they write |
| Bmi.AfterSubmit | screens/BMI.js:153 | An accepted submission clears height and weight and restarts the date at now; a failed one keeps the form |
| Bmi.ResetRefusesResubmit | screens/BMI.js:131-133 | A cleared form is refused |
| Ear.LevelOf | screens/Ear.js:216-222 | Five bands with inclusive upper bounds 10, 20, 25 and 40 dB; NaN is Poor |
| Ear.LevelMonotone | screens/Ear.js:216-222 | A larger threshold never gets a better level |
| Ear.RowColors | screens/Ear.js:185-190 | A history row has six cells, left high to right low, each coloured by the level of its own threshold |
| Ear.RowCellBand | screens/Ear.js:185-190 | A cell's colour names exactly the band its threshold falls in: up to 10, 20, 25 and 40 dB, and above 40 or unreadable |
| Ear.TotalsOf | screens/Ear.js:231-239 | The reduce counts every record |
| Ear.TotalsAreSums | screens/Ear.js:231-239 | The reduce's sums are the sums of the per-test left and right averages, unreadable thresholds counting as 0 |
| Ear.MeanNear | screens/Ear.js:241-242 | With records, an average card is within 0.05 of the mean it writes with one decimal |
| Ear.SummaryMeaning | screens/Ear.js:230-253 | Both averages are "N/A" iff there are no records, otherwise the mean of the per-test averages with one decimal (within 0.05); the latest cards appear iff there is a last record and show its high-frequency levels |
| Ear.UnreadableCountsAsZero | screens/Ear.js:232-233 | Thresholds with no digits weigh in as 0 in a test's average |
| Ear.ChartOf | screens/Ear.js:262-273 | No chart iff there are no records; otherwise one left-high and one right-high value per record, unparsed text staying NaN |
| Ear.SubmitEar | screens/Ear.js:122-130 | Refused iff some threshold input is empty |
| Ear.SubmitEarPayload | screens/Ear.js:126-130 | An accepted form sends the six thresholds as typed, the user's id, and the date, read back by the server as the picked instant to the second |
| Ear.AfterSubmit | screens/Ear.js:140-142 | An accepted submission clears all six inputs and restarts the date at now; a failed one keeps the form |
| Ear.ResetRefusesResubmit | screens/Ear.js:123 | A cleared form is refused |
| Eye.QualityOf | screens/Eye.js:171-177 | Five bands with inclusive lower bounds 1.0, 0.8, 0.6 and 0.4; NaN is Poor |
| Eye.QualityMonotone | screens/Eye.js:171-177 | A larger acuity never gets a worse quality |
| Eye.KeySumIsSum | screens/Eye.js:189-190 | The inner reduce over six keys is the sum of the readings with unreadable ones as 0 |
| Eye.TotalsOf | screens/Eye.js:188-196 | The reduce counts every record |
| Eye.TotalsAreSums | screens/Eye.js:188-196 | The reduce's sums are the sums of the per-test left and right means |
| Eye.ChartOf | screens/Eye.js:219-235 | No chart iff there are no records (line 143); otherwise one value per record in each series, each the same per-test mean the stats use |
| Eye.TotalsMatchChart | screens/Eye.js:219-229 | The stat totals are the sums of the chart series |
| Eye.CardNear | screens/Eye.js:198-199 | With records, an average card is within 0.005 of the mean it writes with two decimals |
| Eye.SummaryMeaning | screens/Eye.js:187-208 | Averages and subtitles are "N/A" iff there are no records; otherwise each average is within 0.005 of the mean of per-test means, and its subtitle is the quality of the rounded value |
| Eye.RoundedCardLiftsQuality | screens/Eye.js:204-205 | A mean of 0.996 (no rounding tie) is Good, but its card reads 1.00 and is labelled Excellent |
| Eye.EmptyForm | screens/Eye.js:84-88 | A reset form holds the twelve acuity keys, L1 to R6, all empty |
| Eye.BuildPayload | screens/Eye.js:68-72 | The in-place reduce over the form entries, followed by `user_id`, yields the payload function `PayloadWith` |
| Eye.SubmitEye | screens/Eye.js:63-72 | Refused iff some acuity input is empty; otherwise the payload of the form |
| Eye.PayloadKeys | screens/Eye.js:68-72 | The payload has exactly `datetime`, `user_id` and the acuity keys; each acuity is its parsed number, `datetime` the formatted text and `user_id` the id or `undefined` |
| Eye.PayloadDate | screens/Eye.js:69 | The payload's `datetime` is text the server reads back as the picked instant to the second |
| Eye.AfterSubmit | screens/Eye.js:84-88 | An accepted submission resets the form; a failed one keeps it |
| Eye.ResetRefusesResubmit | screens/Eye.js:64-66 | A reset form is refused |
| Multipart.FormPayload.constructor | screens/Lab.js:107 | A new body has no entries |
| Multipart.FormPayload.Append | screens/Lab.js:108 | An entry is added at the end and nothing else changes |
| Multipart.FieldParts | screens/Lab.js:109 | One text entry per input, under its own key, in order |
| Multipart.AppendFields | screens/Dietary.js:111 | The `forEach` appends exactly those entries after what was there |
| Multipart.UploadUriMeaning | screens/Lab.js:112 | On Android the URI is sent as picked; elsewhere a leading `file://` is removed, the rest kept, and a URI without `file://` is sent as picked |
| Multipart.Compose | screens/Lab.js:107-115 | A new body holding the user, the inputs and the image, in that order |
| Multipart.ComposedPartsMeaning | screens/Dietary.js:109-117 | The body has two entries more than the inputs: `user_uid` first, every input under its key with its text as typed, and the image last with the URI for the platform |
| Lab.TotalsOf | screens/Lab.js:195-200 | The reduce counts every report |
| Lab.TotalsAreSums | screens/Lab.js:195-200 | The totals are the sums of the readable fasting, random and cholesterol values, unreadable ones adding 0 |
| Lab.AverageNear | screens/Lab.js:202 | With reports, an average card is within 0.5 of the mean it writes as a whole number |
| Lab.StatsMeaning | screens/Lab.js:194-211 | Every card is "N/A" iff there are no reports; otherwise within 0.5 of the sum over the number of reports, every report counting in the denominator |
| Lab.HcgIgnored | screens/Lab.js:195-200 | Changing a report's `hcg` leaves every card as it was |
| Lab.RefusedMeaning | screens/Lab.js:102-105 | The upload is refused iff one of the four inputs is empty or no image was picked |
| Lab.SubmitReport | screens/Lab.js:101-115 | Refused iff the guard holds; otherwise a new body with `user_uid`, the four inputs and `report_image` |
| Lab.UploadBody | screens/Lab.js:107-115 | An accepted upload sends, in order, `user_uid`, `fasting_sugar`, `random_sugar`, `cholesterol`, `hcg` and `report_image` |
| Lab.AfterSubmit | screens/Lab.js:128 | An accepted upload clears the form and the image; a failed one keeps them |
| Lab.ResetRefusesResubmit | screens/Lab.js:103 | A cleared form is refused |
| Dietary.TotalsAreSums | screens/Dietary.js:199-205 | The totals are the sums of the readable carbohydrate, protein and fat values, unreadable ones adding 0; all 0 without meals |
| Dietary.SummaryMeaning | screens/Dietary.js:198-213 | Each card is within 0.05 of its sum, written with one decimal; all cards are 0 without meals |
| Dietary.VitaminsMineralsIgnored | screens/Dietary.js:199-205 | Changing a meal's vitamins or minerals leaves every card as it was |
| Dietary.RefusedMeaning | screens/Dietary.js:104-106 | The upload is refused iff one of the five inputs is empty or no image was picked |
| Dietary.SubmitFoodIntake | screens/Dietary.js:103-117 | Refused iff the guard holds; otherwise a new body with `user_uid`, the five inputs and `food_image` |
| Dietary.UploadBody | screens/Dietary.js:109-117 | An accepted upload sends, in order, `user_uid`, the five nutrients and `food_image` |
| Dietary.AfterSubmit | screens/Dietary.js:130 | An accepted upload clears the form and the image; a failed one keeps them |
| Dietary.ResetRefusesResubmit | screens/Dietary.js:105 | A cleared form is refused |
| Prescription.CountsBound | screens/Prescription.js:98-99 | The active and refill-needed counts together never exceed the list |
| Prescription.SampleCounts | screens/Prescription.js:13-54 | On the bundled list the summary reads 2 active and 1 needing a refill |
| Prescription.StatusStyleOf | screens/Prescription.js:58-69 | Green iff Active, amber iff Refill Needed, red iff Expired, grey iff none of these |
| Prescription.RefillShownUnlessRed | screens/Prescription.js:87 | The refill button is missing exactly on the cards with a red (Expired) badge |
| Prescription.SampleRefillButtons | screens/Prescription.js:54 | On the bundled list every card but the last, expired one offers a refill |
| Lists.Reverse | screens/Lab.js:153 | The history lists the records newest first: element i is the record i places from the end (also Dashboard.js:258, BMI.js:182, Ear.js:168, Dietary.js:157) |
| Lists.ReverseReverse | screens/Dietary.js:157 | Reversing the history loses no record: reversing twice gives the list back |
| Js.OrZero | screens/Lab.js:196 | Defaulting a parsed value to 0 gives the number when there is one and 0 for NaN |
| Js.RoundedIsNear | screens/Dietary.js:208-210 | `toFixed(d)` moves a value by at most half a unit in the last written place |
| Js.RoundedMonotone | screens/BMI.js:49 | `toFixed` keeps order, so a rounded minimum never exceeds the rounded maximum |
| Js.NoDigitNoNumber | screens/Ear.js:232 | Text with no digit is NaN to `parseFloat`, and, unless blank, to `Number` |
| Js.ParseDecimalText | screens/BMI.js:137-138 | `parseFloat` reads digits with an optional fractional part as the number they write |
| Js.ParseMetres | screens/BMI.js:137 | One instance of `Js.ParseDecimalText`, for illustration only: a height typed in metres, "1.75" (`DecimalText("1", "75")`), is sent as 1.75 |
| Js.NoBreakSpaceSkipped | screens/BMI.js:137 | `parseFloat` skips a leading no-break space: U+00A0 followed by "12" reads as 12 |
| Js.NoBreakSpaceIsBlank | screens/BMI.js:195 | `Number` reads text of a no-break space alone as blank, so as 0 |
| Js.NumberAgreesWithParseFloat | screens/BMI.js:195 | Whenever `Number` reads a value from non-blank text, `parseFloat` reads the same value |
| Clock.DayBounds | screens/Dashboard.js:113-116 | A local day runs from `setHours(0,0,0,0)` to `setHours(23,59,59,999)`, and the instants between them are exactly those on that day |
| Clock.SetDateShifts | screens/Dashboard.js:112 | `setDate(getDate() + k)` moves exactly k days, keeping the time of day |
| Clock.SetDateFirst | screens/Home.js:201 | `setDate(1)` lands on the first of the same month at the same time of day |
| Clock.SetMonthBack | screens/Dashboard.js:125 | `setMonth(getMonth() - 1)` moves back by the length of the previous month |
| Clock.SetMonthBackDate | screens/Dashboard.js:124-125 | After `setMonth(getMonth() - 1)` the date is the same day of the previous month if it has one, and overflows into the current month otherwise |
| Clock.GetDay | screens/Home.js:197 | `getDay()` is a weekday from 0 to 6 |
| IsoTime.PayloadShape | screens/BMI.js:136 | For years 0 to 9999 the payload date text is `YYYY-MM-DD HH:mm:ss` of the UTC fields, 19 characters, no `T` |
| IsoTime.PayloadRoundTrip | screens/Ear.js:128 | For years 0 to 9999 the server reads the payload date text back as the instant truncated to the second |
| Text.ReplaceKeepsTail | screens/Dietary.js:114 | `replace` of a text pattern changes only its first occurrence and keeps the rest |

## Left out

- Network, storage and authentication are not modelled: every `fetch` and POST, the `FormData` transport, `AsyncStorage`, Google Sign-In, the response-shape fallbacks, the 404-as-empty handling and the Dashboard's 30-second polling. The server's acceptance of a submission is the parameter `accepted` of each `AfterSubmit`.
- Rendering is not modelled: layout, styles, the chart widgets, `Alert`, and the date and image pickers as widgets. The charts are modelled as the data they receive. The BMI screen's own chart (`BmiChart`) and the report and food charts of the Lab and Dietary screens are not modelled.
- `toFixed` produces text; the model keeps the rounded value as a real. The value is rounded from the exact real, not from the nearest binary double, so a tie that binary representation breaks the other way rounds differently here. Other IEEE 754 details are not modelled either: overflow, -0, infinities, and the exponent, hex and `Infinity` forms of `parseFloat`/`Number`.
- Local time is a fixed offset from UTC, so days are always 24 hours long; daylight saving time is not modelled. `new Date(text)` for a record's timestamp or a custom date is a given instant (or an Invalid Date). Its parsing rules, including date-only text read as UTC, are not modelled.
- Dashboard.Stats: `water_in` and `water_out` are taken as numbers, as the server sends them; a text value would make `+` concatenate, and that is not modelled.
- Dashboard.SubmitWaterIn: the query read back from the URL gives the typed amount only when it has no `)`. Amounts are not URL-encoded by the screen, and the model does not encode them either.
- Dashboard.SubmitUrineOut: the same limit as Dashboard.SubmitWaterIn, for the typed output.
- Dashboard.GroupByDay: the buckets come out in the order their date part was first met. `Object.values` gives that order only for ordinary date parts such as `YYYY-MM-DD`, which the server's timestamps always have. It lists number-like keys such as `2025` first, in ascending numeric order. A date part that names an inherited property such as `constructor` or `toString` finds a truthy `acc[date]`, so it gets no bucket of its own. Neither case is modelled.
- A signed-in user whose object is missing is modelled as an absent id. It becomes `undefined` in the Eye and Ear payloads and the text "undefined" in `FormData`. In the app, `user.user_uid` on a missing user throws instead.
- `JSON.stringify` is not modelled: it drops `undefined` and writes NaN as `null` in the Ear, Eye and BMI payloads. The payloads are modelled as the objects before serialisation.
- The Dashboard input fields being cleared after a send, and the refresh after it, are not modelled: they are state setters around the network call.
- IsoTime.PayloadRoundTrip: stated for years 0 to 9999 only, because outside that range `toISOString` writes a signed six-digit year that the 19-character format cuts off. The same bound is a precondition of Bmi.SubmitBmiPayload, Ear.SubmitEarPayload and Eye.PayloadDate.
- Eye.PayloadKeys: stated for forms whose acuity keys are distinct, which the form's twelve fixed keys are. The entries are taken in the form's declaration order with `datetime` written separately, as `Object.entries` lists them.
- Home.KeptByDay: stated for bounds other than the instant 0; that case is Home.EpochBoundIgnored.
- Home.SortByDate: models `sort` as a stable insertion sort. When some dates are Invalid Dates the comparator returns NaN, which `sort` treats as equal, so the comparator is inconsistent and the engine's order is implementation-defined. The model fixes one such order; its promise, a permutation in which the valid dates ascend, is about that order.
- The vision reference guide on the Eye screen labels Good as "0.8-0.9"; the model follows the classifier's code, where Good is every acuity from 0.8 up to but not including 1.0.

## Where the code and the specification differ

The model follows the code in each case.

- **Dashboard filter order.** The specification describes a window filter whose output is sorted ascending. The Dashboard's `filterData` keeps the log's order (Dashboard.KeepInWindowInOrder); only the Home screen sorts (Home.FilterAndSort).
- **Averages of unparsable values.** The specification says averages exclude unparsable values, so that 10, "bad" and 20 average to 15. The Lab, Ear and Eye screens count such a value as 0 and keep the record in the denominator, which gives 10 (Lab.StatsMeaning, Ear.UnreadableCountsAsZero). The BMI screen lets one unparsable BMI turn the sum, the minimum and the maximum into NaN (Bmi.StatsSum, Bmi.StatsUnreadable).
- **Order of day buckets.** The specification emits day buckets in ascending date order. The code emits them in the order their first record appears (Dashboard.GroupByDay), and labels them by the text before the first space of the timestamp, not by the local date.
- **Month window.** The specification clamps the month window by calendar rules. `setMonth` overflows instead: on 31 March the window starts on 3 March, or 2 March in a leap year (Dashboard.MonthWindowStart).
- **Custom date that does not parse.** The specification fails a custom window that has no date. The code falls back to today when no date is given. A date that does not parse gives Invalid Date bounds, and the window then keeps nothing (Dashboard.CustomWindow).
- **Latest value.** The specification takes the latest value after sorting. BMI and Ear take the last record in the order the server sent (Bmi.StatsOf, Ear.SummaryMeaning).
