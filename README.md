# Expense-tracker analytics, modelled in Dafny

This project models the computational core of a Django personal-finance application:

- the analytics helpers of `ecap_app/utils.py`;
- the `Report` snapshot model of `ecap_app/models.py`;
- the `getCookie` helper of the chat page's script.

The analytics helpers cover four things:

- per-user expense, income and balance totals, over all of a user's records or over the records from or up to a date;
- the linear-trend forecast, covering the date handling around the fitted model;
- the monthly expense report;
- the day-by-day balance timeline.

The database is an explicit `Store` of expense and income rows. A Django `filter` is a `Query` (user plus optional inclusive date bounds), which keeps matching rows in store order. Money is in integer cents, and dates are proleptic Gregorian dates in Python's range, 0001-01-01 to 9999-12-31.

Modules:

- `Wrappers`: `Option` and `Result`.
- `Calendar`: Python's `date.toordinal` and its inverse, `date + timedelta(days=i)` with its overflow, and the `%Y-%m-%d` rendering with its parser.
- `Seqs`: order-keeping filter and sums over sequences.
- `Records`: the `Expense` and `Income` rows, the store and the query semantics.
- `Totals`: the dot-product expense total and the user totals and balances.
- `Forecast`: `preprocess_date_data`, `predict_future_data` and the two extrapolators. The least-squares fit is a parameter, and a fitted model is an affine `Trend`.
- `Monthly`: `get_monthly_expense_report` as a fold that groups expenses into ascending months.
- `Timeline`: `calculate_user_balance_over_time` as a loop over the days from the earliest record date to the latest one, carrying running totals.
- `Reports`: the `Report` class with `populate_expenses_and_incomes`, `calculate_totals` and `create_report_for_user`.
- `Cookies`: `getCookie` as a loop over the `;`-separated pieces of the cookie string. It trims each piece, takes the first piece that begins with `name=`, and stops there.

The application mixes units, and the model follows it as written:

- `Expense.amount` is a quantity, a whole number of product units.
- The per-user totals weight each quantity by its product's price (`Cost`).
- The report totals and the balance timeline sum the quantities themselves. There a quantity counts as that many currency units, which is 100 cents per unit.
- The monthly report sums the raw quantities and reports them as they are, with no conversion to cents.

## Model

| member | source | states |
|---|---|---|
| Calendar.DaysBeforeYearFormula | ecap_app/utils.py:149 | the days before year y, counted year by year, equal the closed form 365(y−1) + ⌊(y−1)/4⌋ − ⌊(y−1)/100⌋ + ⌊(y−1)/400⌋ that `toordinal` uses |
| Calendar.DaysBeforeMonthTable | ecap_app/utils.py:149 | the days before month m, counted month by month, equal the fixed month table, plus one after February in leap years |
| Calendar.ToOrdinal | ecap_app/utils.py:149 | every date in Python's range has an ordinal between 1 and 3652059 |
| Calendar.DaysBeforeYear10000 | ecap_app/utils.py:149 | the last date, 9999-12-31, has ordinal 3652059 |
| Calendar.OrdinalInYear | ecap_app/utils.py:149 | a date's ordinal lies strictly after the days before its year and within the days up to the end of its year |
| Calendar.OrdinalOrder | ecap_app/utils.py:148-149 | sorting by date and sorting by ordinal agree: (year, month, day) order holds exactly when the ordinals are in order |
| Calendar.OrdinalInjective | ecap_app/utils.py:149 | distinct dates have distinct ordinals |
| Calendar.FromOrdinal | ecap_app/utils.py:174 | for every ordinal in 1..3652059 there is a date with exactly that ordinal |
| Calendar.FromToOrdinal | ecap_app/utils.py:174 | converting a date to its ordinal and back gives the same date |
| Calendar.AddDays | ecap_app/utils.py:174 | `date + timedelta(days=i)` is defined exactly when the resulting ordinal is in 1..3652059 (OverflowError otherwise), and the result's ordinal is the old one plus i |
| Calendar.PadValue | ecap_app/utils.py:175 | reading back a zero-padded number gives the number |
| Calendar.ValuePad | ecap_app/utils.py:175 | a digit string is the zero-padding of its own value at its own width |
| Calendar.IsoDate | ecap_app/utils.py:175 | `%Y-%m-%d` output is ten characters with dashes at positions 4 and 7 |
| Calendar.ParseIsoDateOfIsoDate | ecap_app/utils.py:175 | a rendered date reads back as the same date |
| Calendar.IsoDateOfParseIsoDate | ecap_app/utils.py:175 | a string that reads as a date is exactly that date's rendering |
| Calendar.IsoDateInjective | ecap_app/utils.py:175 | distinct dates render as distinct strings |
| Records.SelectExpenses | ecap_app/utils.py:81 | the query keeps an expense exactly when it is in the store, belongs to the user and its date satisfies both optional inclusive bounds; no row is invented |
| Records.SelectIncomes | ecap_app/utils.py:91 | the same for incomes |
| Records.AdmitsRange | ecap_app/models.py:57-58 | `date__range=[start, end]` admits a date exactly when its ordinal lies between the two ordinals, both included |
| Records.InvertedRangeAdmitsNothing | ecap_app/models.py:57-58 | a range whose start is after its end admits no date |
| Totals.DotIsCost | ecap_app/utils.py:10-31 | the quantity and price columns built from the same expenses always have equal length, so the `return 0` branch is never taken, and their dot product is the sum of quantity × unit price over the expenses |
| Totals.ParseAndCalculateExpenses | ecap_app/utils.py:22-31 | the expense total is the sum of quantity × unit price over the expenses, 0 for none |
| Totals.CalculateTotalUserExpenses | ecap_app/utils.py:33-40 | a user's total expense is the sum of quantity × unit price over their own expense rows |
| Totals.CalculateTotalUserIncome | ecap_app/utils.py:42-50 | a user with no income rows has a total income of 0 |
| Totals.CalculateUserExpenseFromDate | ecap_app/utils.py:73-81 | the from-date expense is the sum of quantity × unit price over the user's expenses the from-date query keeps |
| Totals.CalculateUserIncomeFromDate | ecap_app/utils.py:83-91 | a user with no income dated on or after the date has a from-date income of 0 |
| Totals.CalculateUserExpenseToDate | ecap_app/utils.py:93-101 | the to-date expense is the sum of quantity × unit price over the user's expenses the to-date query keeps |
| Totals.CalculateUserIncomeToDate | ecap_app/utils.py:103-111 | a user with no income dated on or before the date has a to-date income of 0 |
| Totals.NoExpensesNoTotal | ecap_app/utils.py:33-40 | a user without expense rows has a total expense of 0 |
| Totals.CalculateTotalUserBalance | ecap_app/utils.py:52-71 | the total balance is the total income minus the total expense of the same user |
| Totals.CalculateUserBalanceFromDate | ecap_app/utils.py:113-125 | the from-date balance is the from-date income minus the from-date expense, for the same user and date |
| Totals.CalculateUserBalanceToDate | ecap_app/utils.py:127-139 | the to-date balance is the to-date income minus the to-date expense, for the same user and date |
| Totals.FromDateMembership | ecap_app/utils.py:73-91 | the from-date queries keep exactly the user's records dated on or after the date |
| Totals.ToDateMembership | ecap_app/utils.py:93-111 | the to-date queries keep exactly the user's records dated on or before the date |
| Totals.OnDateMembership | ecap_app/utils.py:73-111 | a query bounded by the same date on both sides keeps exactly the user's records dated that day |
| Totals.FromAndToDateOverlap | ecap_app/utils.py:113-139 | with inclusive bounds, the from-date and to-date balances at a date add up to the total balance plus the balance of the records dated on that day, which are counted twice |
| Forecast.InsertByDate | ecap_app/utils.py:148 | inserting a row into date-sorted rows keeps them sorted and adds exactly that row |
| Forecast.SortByDate | ecap_app/utils.py:148 | the sorted rows are in non-decreasing date order and are a permutation of the input |
| Forecast.PreprocessDateData | ecap_app/utils.py:141-150 | the output has one row per input row, its rows without the ordinal column are a permutation of the input, it is ordered by ordinal, and each row's `date_ordinal` is its date's ordinal |
| Forecast.AttachOrdinals | ecap_app/utils.py:149 | the `date_ordinal` column is filled row by row: same length, same order, each row keeps its date and amount and gets its date's ordinal |
| Forecast.FutureDates | ecap_app/utils.py:174 | the n dates from the start exist exactly when the last one does not overflow; the i-th has ordinal start + i |
| Forecast.PredictFutureData | ecap_app/utils.py:165-177 | a positive day count whose last date would pass 9999-12-31 fails with the date overflow; a zero or negative count fails because the model refuses an empty batch; otherwise there are exactly n dates and n values, the i-th string is the rendering of the day with ordinal start + i, and the i-th value is the model's prediction at that ordinal |
| Forecast.PredictStep | ecap_app/utils.py:177 | the fitted line's prediction one ordinal later is its prediction plus the slope |
| Forecast.PredictedValuesStep | ecap_app/utils.py:174-177 | consecutive forecast values differ by exactly the fitted slope |
| Forecast.FirstPredictedDateIsStart | ecap_app/utils.py:174-175 | the first forecast date is the start date |
| Forecast.PredictedDateReadsBack | ecap_app/utils.py:174-176 | each forecast string parses back to the day whose ordinal is the one given to the model |
| Forecast.PredictedDatesConsecutive | ecap_app/utils.py:174-175 | consecutive forecast strings name consecutive days |
| Forecast.PredictedDatesDistinct | ecap_app/utils.py:174-175 | no day is forecast twice |
| Forecast.LatestDate | ecap_app/utils.py:208 | the latest date is the date of some row, and no row is dated later |
| Forecast.LastIsLatest | ecap_app/utils.py:206-208 | the last row after preprocessing carries the latest date of the data |
| Forecast.ExtrapolateDataFromDate | ecap_app/utils.py:179-193 | no data gives two empty lists; otherwise the model is fitted on the preprocessed rows and the result is that model's forecast from the given date |
| Forecast.ExtrapolateData | ecap_app/utils.py:195-210 | like the above, but the forecast starts at the latest date of the data, which is therefore the first forecast date of a successful forecast |
| Monthly.AddToMonth | ecap_app/utils.py:304 | adding an amount to a month keeps the rows in strictly ascending month order, and the months become the old ones plus that month |
| Monthly.AddToMonthTotals | ecap_app/utils.py:304 | adding q to month p changes the total recorded for p by q and for no other month |
| Monthly.AddToMonthSum | ecap_app/utils.py:304 | adding q to a month adds q to the sum of all rows |
| Monthly.GetMonthlyExpenseReport | ecap_app/utils.py:291-305 | the report rows are in strictly ascending month order, one row per month |
| Monthly.Group | ecap_app/utils.py:303-304 | the grouped rows are in strictly ascending month order, so no month has two rows |
| Monthly.GroupPeriods | ecap_app/utils.py:303-304 | a month has a row exactly when some expense is dated in it |
| Monthly.GroupTotals | ecap_app/utils.py:304 | each month's total is the sum of the amounts of the expenses dated in that month |
| Monthly.GroupSum | ecap_app/utils.py:304 | the row totals add up to the sum of all the amounts: each expense is counted in exactly one month |
| Monthly.GroupEmpty | ecap_app/utils.py:300-301 | the grouping is empty exactly when there are no expenses |
| Monthly.MonthlyReportRows | ecap_app/utils.py:298-305 | every row of a user's report holds the sum of the amounts of that user's expenses in its month, and that month has at least one of them |
| Monthly.MonthlyReportCovers | ecap_app/utils.py:298-305 | every month in which the user has an expense appears in the report |
| Monthly.MonthlyReportSum | ecap_app/utils.py:298-305 | the report's rows add up to the user's total expense amount, and the report is empty exactly when the user has no expenses |
| Timeline.Earliest | ecap_app/utils.py:323 | the start of the date range is the ordinal of some record date, and no record is dated earlier |
| Timeline.Latest | ecap_app/utils.py:324 | the end of the date range is the ordinal of some record date, and no record is dated later |
| Timeline.UpToStep | ecap_app/utils.py:330-333 | the running income and quantity up to a day are those up to the day before plus that day's sums |
| Timeline.UpToFromLast | ecap_app/utils.py:332-333 | from the latest record date onwards, the running totals are the full sums |
| Timeline.NothingBeforeEarliest | ecap_app/utils.py:322-333 | the running totals before the earliest record date are 0 |
| Timeline.BalanceOverTime | ecap_app/utils.py:316-335 | an empty income or expense side gives an empty timeline; otherwise there is one row per day from the earliest to the latest record date, consecutive, and each row's balance is the income up to that day minus 100 × the quantity up to that day |
| Timeline.AccumulateDays | ecap_app/utils.py:322-334 | starting from nothing accumulated before the first day, the loop yields one row per day from the first to the last day, and row k is day first + k with the balance accumulated up to that day |
| Timeline.CalculateUserBalanceOverTime | ecap_app/utils.py:307-335 | the same over the user's own incomes and expenses |
| Timeline.BalanceStep | ecap_app/utils.py:328-334 | each day's balance is the previous day's balance plus that day's income minus 100 × that day's quantity |
| Timeline.FirstBalance | ecap_app/utils.py:322-334 | the first day's balance is that day's income minus 100 × that day's quantity |
| Timeline.LastBalance | ecap_app/utils.py:322-334 | the last day's balance is all income minus 100 × all quantity |
| Reports.Report.constructor | ecap_app/models.py:37-45 | a new report has the given user and dates, no related records and all three totals 0 |
| Reports.Report.CalculateTotals | ecap_app/models.py:50-54 | the relations are kept; the expense and income totals are those of the related records (0 when there are none), the expense total is never negative, and the balance is income minus expense |
| Reports.Report.PopulateExpensesAndIncomes | ecap_app/models.py:56-59 | the relations become the owner's records dated between the report's dates inclusive, and the totals are then recomputed from them |
| Reports.CreateReportForUser | ecap_app/utils.py:336-355 | a new report with the given user and dates, populated from the store, with totals consistent with its records |
| Reports.ExpenseTotalNonNegative | ecap_app/models.py:51 | quantities are non-negative, so the expense total is never negative |
| Reports.RangeMembership | ecap_app/models.py:57-58 | a populated report relates exactly the owner's records dated between the two dates, both included |
| Reports.InvertedRangeIsEmpty | ecap_app/models.py:50-58 | a report whose start date is after its end date relates nothing, and all its totals are 0 |
| Reports.PopulateTwice | ecap_app/models.py:56-59 | populating a report a second time leaves its relations and all three totals exactly as the first population set them |
| Cookies.Trim | ecap_app/static/js/chat.js:45 | a trimmed piece neither starts nor ends with white space |
| Cookies.TrimStartSlice | ecap_app/static/js/chat.js:45 | trimming the start drops a prefix made only of white space |
| Cookies.TrimEndSlice | ecap_app/static/js/chat.js:45 | trimming the end drops a suffix made only of white space |
| Cookies.TrimIsSlice | ecap_app/static/js/chat.js:45 | the trimmed piece is a contiguous slice of the piece, and everything cut off before and after it is white space |
| Cookies.TrimIdempotent | ecap_app/static/js/chat.js:45 | trimming twice is trimming once |
| Cookies.Split | ecap_app/static/js/chat.js:43 | splitting gives at least one piece, and no piece contains `;` |
| Cookies.JoinSplit | ecap_app/static/js/chat.js:43 | joining the pieces with `;` gives back the cookie string |
| Cookies.Substring | ecap_app/static/js/chat.js:47-48 | `substring` returns the slice between in-range bounds in either order, and the empty string when both bounds are at or past the same end |
| Cookies.Matches | ecap_app/static/js/chat.js:47 | a piece matches exactly when it begins with the name followed by `=` |
| Cookies.FirstMatch | ecap_app/static/js/chat.js:44-50 | the scan finds nothing exactly when no trimmed piece matches |
| Cookies.FindCookie | ecap_app/static/js/chat.js:41-50 | an empty cookie string yields nothing; otherwise nothing is found exactly when no trimmed `;`-separated piece matches |
| Cookies.GetCookie | ecap_app/static/js/chat.js:40-54 | with no matching piece the result is `null`; otherwise it is the decoded value of the first matching piece, or the decoding error |
| Cookies.FirstMatchWins | ecap_app/static/js/chat.js:44-50 | the first matching piece gives the value, which is the rest of the trimmed piece after `name=`; later pieces, including ones with the same name, are ignored |
| Cookies.LongerNameDoesNotMatch | ecap_app/static/js/chat.js:47 | a piece whose name only begins with the wanted name does not match |
| Cookies.CsrfTokenExample | ecap_app/static/js/chat.js:47 | looking up `csrftoken` skips `csrftokenX=1` |
| Cookies.SplitWithoutSeparator | ecap_app/static/js/chat.js:43 | a string without `;` splits into itself alone |
| Cookies.SinglePairLookup | ecap_app/static/js/chat.js:43-48 | the cookie string `name=value` yields the whole value, even when the value itself contains `=` |
| Cookies.ValueWithEqualsExample | ecap_app/static/js/chat.js:48 | `sessionid=a=b` yields `a=b` for `sessionid` |

## Left out

- Persistence is not modelled: the Django ORM, `save()`, the database and migrations. A query is a pure selection over an explicit `Store`, and dates arrive as `Date` values, never as strings parsed by the ORM.
- Many-to-many relations are modelled as sequences in store order. Django relates a set, and row order does not affect any total.
- Reports.Report.PopulateExpensesAndIncomes: the relations are replaced in one step, and the intermediate database writes of `set()` are not modelled.
- The least-squares fit (`train_model`, scikit-learn's `LinearRegression.fit`) is outside the model. The extrapolators take it as a parameter `fit` that returns an affine `Trend`, and a prediction is `coef × ordinal + intercept` over reals rather than floats.
- Floating point is not modelled. This covers numpy's float dot product, pandas' `Float64` balances and the float prediction values. Amounts are exact integers in cents, and predictions are reals.
- Forecast.SortByDate: pandas' `sort_values` is not stable, so the contract promises only a sorted permutation. The order of rows with equal dates is left open.
- Calendar.IsoDate: every year is padded to four digits. Python's `strftime('%Y')` for years below 1000 is platform-dependent.
- Forecast.PredictFutureData: a zero or negative day count is a `Failure(EmptyBatch)`, standing for the `ValueError` scikit-learn raises when asked to predict zero samples. The error's message is not modelled, and neither are non-integer counts.
- Totals.CalculateTotalUserBalance, Totals.CalculateUserBalanceFromDate and Totals.CalculateUserBalanceToDate: when the user's expense selection is empty but the income selection is not, the source subtracts numpy's float `0.0` (the dot product of two empty arrays) from a `Decimal` income sum, and Python refuses to mix the two types with a `TypeError`. The model has a single integer type, so it returns the income sum there instead of an error.
- Monthly.GetMonthlyExpenseReport, Timeline.BalanceOverTime and Timeline.CalculateUserBalanceOverTime: `pd.to_datetime` only holds dates from 1677-09-21 to 2262-04-11 and raises `OutOfBoundsDatetime` for any record dated outside that span. The model accepts every date from 0001-01-01 to 9999-12-31 and returns rows for them.
- Forecast.ExtrapolateDataFromDate and Forecast.ExtrapolateData return the preprocessed rows given to `fit` only as a ghost out-parameter, to state what the model was trained on.
- The data frames of the forecast and of the monthly report are sequences of rows. Column names and dtypes are not modelled.
- `Income.category` and `Income.description` are not modelled, because no operation here reads them. The same goes for the other models of the application (`SavingGoal`, profiles, chat).
- `decodeURIComponent` is the parameter `decode` of `Cookies.GetCookie`. Its percent-decoding is not modelled; `None` stands for the `URIError` it throws. `document.cookie` is the parameter `cookie`.
- Strings in the `Cookies` module are sequences of Unicode characters, while JavaScript's `length` and `substring` count UTF-16 code units. The two agree for names and pieces made of characters below U+10000. A character above that counts as two units in JavaScript, and a lone surrogate, which a JavaScript string can hold, cannot be represented at all.
- Views, URLs, forms, templates and the other scripts (`scripts.js`, `navbar.js`, `functions.js`, `chart.js`) are not part of this model.
