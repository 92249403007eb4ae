# td-gpus data layer, modelled in Dafny

This project models the data layer of td-gpus, a client for a GPU
marketplace. The data layer reshapes the marketplace's JSON replies into
tables. Its hard part is the billing summary, `Data.get_summary(start, end)`:

- It fetches one summary per calendar month touched by `[start, end]`.
- In each month it attaches the response's `bill_period.startY` to the
  `MM/DD` ends of every storage payout and every VM payout (`vm_payouts`).
- It spreads each payout's `total_amount` in equal shares over the days of its
  span.
- It groups the daily rows by `(date, hostnode_id)` and sums them.
- It joins the months' tables in month order, one table for storage and one
  for usage.

The model also covers these other parts of the data layer:

- `get_marketplace` flattens each host node of the listing into one record keyed
  by its id.
- `get_revenue` splits the machines table from the virtual machines nested
  inside it.
- `get_node` always raises.

Structure, one module per file:

| module | file | models |
|---|---|---|
| `Wrappers` | `wrappers.dfy` | `Option` and `Result` |
| `Calendar` | `calendar.dfy` | proleptic Gregorian dates, day ordinals, `pd.date_range` |
| `MonthPartition` | `months.dfy` | the distinct `YYYY-MM` months of a day range |
| `DateText` | `datetext.dfy` | `%m/%d` parsing against the default year 1900, and `int(startY)` |
| `Transactions` | `transactions.dfy` | the response, and attaching the year with `Timestamp.replace` |
| `Expansion` | `expansion.dfy` | `expand_row` and the concatenation of its frames |
| `Aggregation` | `aggregation.dfy` | the sorted group-by-sum |
| `Summary` | `summary.dfy` | one month's two tables, the month loop (`GetSummary`) and the whole call |
| `Marketplace` | `marketplace.dfy` | `_load_nodes` and `get_marketplace` |
| `Revenue` | `revenue.dfy` | `get_revenue`, whose nested loop is `GetRevenue`, and `get_node` |

Each raising step of the modelled core is an `Err` value. `BillingError` has
one constructor per raising operation, not per Python exception class:
MalformedYear, YearOutOfRange (OutOfBoundsDatetime, a subclass), MalformedMonthDay
and NoMonths are all ValueError in Python. Each step keeps the order in which
the code meets them. Malformed replies are out of scope (see Left out). Amounts
are exact reals.

The whole call (`Summary.BillingSummary`, and the loop `Summary.GetSummary`
proved equal to it) is built on the corrected month `Summary.MonthTables`, in
which an empty payout list gives an empty table. So the whole call never
fails with MissingColumn. That KeyError appears only in the as-written month
`Summary.MonthTablesAsWritten` (see Findings).

In three places the behaviour may surprise a reader:

- **A span written across the new year ends the whole call.** One
  `startY` is attached to both ends, so the end comes before the start and
  the date range is empty. Line 103 then divides by `len(date_range) == 0`
  and raises ZeroDivisionError. It does not yield "no rows" for that
  transaction (`Summary.YearSpanningFails`, `Summary.YearSpanningExample`).
  The exception fails its month, and the first failing month fails all of
  `get_summary` (`Summary.CollectMeaning`, `Summary.FirstFailure`).
- **An empty payout list raises KeyError.** The intended behaviour, "an empty
  list gives an empty contribution", is the corrected member
  `Summary.MonthTables`. The code as written is `Summary.MonthTablesAsWritten`
  (see Findings).
- **29 February is always rejected.** `pd.to_datetime(..., format='%m/%d')`
  parses against 1900, which is not a leap year, before `startY` replaces the
  year (`DateText.LeapDayRejected`, `Summary.LeapDayFails`).

The usage list is read from `transactions.vm_payouts`, as the code reads it.

## Model

| member | source | states |
|---|---|---|
| Calendar.DateRange | src/data.py:99 | the days of `pd.date_range(start, end)`: one past the ordinal difference in number (none when end is before start), the i-th a valid date i days after start |
| Calendar.DateRangeMembers | src/data.py:78 | a valid date is in the range exactly when it lies between start and end, both included |
| Calendar.DateRangeSteps | src/data.py:78 | consecutive entries of the range are consecutive calendar days |
| Calendar.OrdinalOrder | src/data.py:111 | comparing dates field by field agrees with comparing their day numbers, so the group-by's date order is chronological |
| MonthPartition.MonthsOf | src/data.py:78-79 | no contract of its own: the months fetched; meaning in MonthsOfRange, MonthsOfCovers, Unique and UniqueOrder |
| MonthPartition.Unique | src/data.py:79 | `.unique()` keeps exactly the elements of its input, each once |
| MonthPartition.UniqueOrder | src/data.py:79 | `.unique()` keeps the elements in the order of their first appearance |
| MonthPartition.MonthsOfRange | src/data.py:78-79 | the months fetched are the consecutive months from start's month to end's month, ascending, each once; none when end is before start |
| MonthPartition.MonthsOfCovers | src/data.py:78-79 | a month is fetched exactly when some day of `[start, end]` lies in it |
| MonthPartition.ThreeMonthsExample | src/data.py:78-79 | 15 January to 3 March 2024 fetches January, February and March 2024 |
| DateText.ParseMonthDay | src/data.py:89 | a parsed `MM/DD` text has month 1..12 and a day that exists in that month of 1900 |
| DateText.MonthDayRoundTrip | src/data.py:89 | every day of 1900, written `MM/DD`, parses back to its month and day |
| DateText.LeapDayRejected | src/data.py:89 | `02/29` does not parse |
| DateText.ParseMonthDayExact | src/data.py:89 | a text parses to `(m, d)` exactly when it is one or two digits reading `m`, a slash, and one or two digits reading `d`, with `(m, d)` a day of 1900; every other text is rejected |
| DateText.ShortAndMalformedFields | src/data.py:89 | `1/5` parses to (1, 5) and `1x/05` is rejected |
| DateText.ParseYear | src/data.py:86 | `int(startY)` succeeds exactly on a nonempty string of digits, with a non-negative value |
| DateText.DecimalRoundTrip | src/data.py:86 | every non-negative number's decimal text parses back to that number |
| DateText.LeadingZero | src/data.py:86 | a leading zero does not change the year read from a digit string |
| DateText.YearRoundTrip | src/data.py:86 | a four-digit year parses back to itself |
| Transactions.StartYear | src/data.py:86 | the month's year is `int(startY)`, or MalformedYear when that raises |
| Transactions.ParseColumn | src/data.py:89 | a column parses exactly when every entry does, entry by entry; otherwise MalformedMonthDay |
| Transactions.SetYear | src/data.py:87-89 | `replace(year=...)` succeeds exactly when every date would fall within Timestamp bounds; each result is the valid date with that year, month and day |
| Transactions.ToDates | src/data.py:89-90 | a date column converts exactly when every text parses and is in range in the year; each date is valid, carries the year and the text's month and day; the error is MalformedMonthDay or YearOutOfRange, and only MalformedMonthDay for a year wholly within bounds |
| Transactions.Prepare | src/data.py:88-96 | a payout list gets full dates exactly when both columns convert; each transaction keeps its machine, amount and category and has valid dates in the one year |
| Expansion.Expand | src/data.py:98-105 | `expand_row` fails (ZeroDivisionError) exactly when the end is before the start; otherwise one row per day of the span at consecutive days, each with the machine, category and an equal share of the total |
| Expansion.ExpandSumsToTotal | src/data.py:103 | a transaction's daily shares add up to its total exactly |
| Expansion.ExpandCoversSpan | src/data.py:99-101 | a day has a row exactly when the transaction's span covers it |
| Expansion.FourDaysExample | src/data.py:98-105 | 30 January to 2 February 2024 with total 40 gives four rows of 10 on those four days |
| Expansion.ExpandAll | src/data.py:108-109 | no contract of its own: the expanded frames of a list joined in order; meaning in ExpandAllSucceeds, ExpandAllSumsToTotal, ExpandAllCategory, ExpandAllValidDates and Aggregation.ExpandAllShares |
| Expansion.ExpandAllSucceeds | src/data.py:108-109 | expanding a list succeeds exactly when no span is reversed; an error is EmptySpan |
| Expansion.ExpandAllSumsToTotal | src/data.py:108-109 | the expanded rows carry exactly the list's total |
| Expansion.ExpandAllCategory | src/data.py:91-102 | every expanded row has the category of its list |
| Expansion.ExpandAllValidDates | src/data.py:108-109 | every expanded row falls on a valid day |
| Aggregation.StrLessTotal | src/data.py:111 | the string order of `hostnode_id` is total; with StrLessIrreflexive and StrLessTransitive, a strict total order |
| Aggregation.KeyLessTotal | src/data.py:111 | the group-key order (date, then id) is total; with KeyLessIrreflexive and KeyLessTransitive, a strict total order |
| Aggregation.GroupSum | src/data.py:111-112 | no contract of its own: the group-by-sum; meaning in GroupSumMeaning and GroupSumTotal |
| Aggregation.GroupSumMeaning | src/data.py:111-112 | after the group-by each `(date, hostnode_id)` occurs once, in ascending key order; exactly the pairs of the expanded rows occur; each pair's amount is the sum of its rows |
| Aggregation.SameDayExample | src/data.py:111 | 5 and 7 for one machine on one day become one row of 12 |
| Aggregation.ExpandShare | src/data.py:98-112 | one transaction contributes its daily share to the days it covers and nothing elsewhere |
| Aggregation.ExpandAllShares | src/data.py:98-112 | for each machine and day, the expanded rows sum to the daily shares of that machine's transactions covering the day, and the pair occurs exactly when one covers it |
| Aggregation.GroupSumTotal | src/data.py:111-112 | grouping neither creates nor loses money |
| Summary.CategoryTable | src/data.py:88-112 | no contract of its own: one payout list prepared, expanded and grouped; meaning in CategoryTableSucceeds, CategoryTableMeaning and CategoryTableTotal |
| Summary.MonthTables | src/data.py:86-115 | no contract of its own: one month's two tables, read as intended for empty lists; meaning in MonthTablesByCategory, MonthTablesErrors, EmptyMonth and EmptyCategory |
| Summary.MonthTablesByCategory | src/data.py:86-115 | a month succeeds exactly when both of its categories do; the storage table depends only on the year and the storage payouts, the usage table only on the year and the usage payouts |
| Summary.EmptyMonth | src/data.py:88-96 | with the year parsed, two empty payout lists give two empty tables (corrected behaviour) |
| Summary.EmptyCategory | src/data.py:88-96 | with the year parsed, one empty payout list gives an empty table for its category, whatever the other list holds (corrected behaviour) |
| Summary.MonthTablesErrors | src/data.py:86-109 | a month can fail only with MalformedYear, YearOutOfRange, MalformedMonthDay or EmptySpan |
| Summary.CategoryTableSucceeds | src/data.py:88-112 | one payout list reshapes exactly when every text parses and is in range in the year and no end day comes before its start day; with its dates converted, it can fail only with EmptySpan |
| Summary.ReversedSpans | src/data.py:86-99 | with one year at both ends, a span is reversed exactly when its end `MM/DD` comes before its start `MM/DD` |
| Summary.YearSpanningFails | src/data.py:86-103 | a payout whose end `MM/DD` comes before its start `MM/DD` fails its list with EmptySpan |
| Summary.YearSpanningExample | src/data.py:86-103 | a payout from `12/28` to `01/03` in 2024 fails with EmptySpan |
| Summary.LeapDayFails | src/data.py:89-90 | a payout with `02/29` at either end fails with MalformedMonthDay even in a leap year |
| Summary.CategoryTableMeaning | src/data.py:88-115 | a month's table is sorted by `(date, hostnode_id)`; a pair occurs exactly when one of that machine's payouts covers that day; its amount is the sum of those payouts' daily shares; every date is valid and in the attached year |
| Summary.CategoryTableTotal | src/data.py:98-112 | a month's table carries exactly the money of its payout list |
| Summary.GroupedDatesInYear | src/data.py:98-112 | payouts dated within one year put every grouped row in that year |
| Summary.MonthTablesAsWritten | src/data.py:86-94 | as written: with both lists nonempty it agrees with the corrected month. Otherwise it fails: with MalformedYear if the year does not parse; with MissingColumn if the storage list is empty; with the storage list's own error, or else MissingColumn, if only the usage list is empty |
| Summary.EmptyPayoutsAsWritten | src/data.py:88-94 | a month with no storage payouts and one usage payout fails as written with MissingColumn, where the corrected month gives an empty storage table and the usage row |
| Summary.Outcomes | src/data.py:84-115 | one outcome per month fetched; which one is in OutcomesAt |
| Summary.OutcomesAt | src/data.py:84-115 | the i-th month's outcome is the reshaped response fetched for the i-th month |
| Summary.Collect | src/data.py:81-118 | no contract of its own: the `_df_storage` and `_df_usage` lists built month by month; meaning in CollectMeaning, FirstFailure and CollectStep |
| Summary.CollectMeaning | src/data.py:84-118 | the months' tables are collected exactly when every month succeeds, each at its month's place; otherwise the error of the first failing month |
| Summary.FirstFailure | src/data.py:84-118 | once the months before it are collected, the first failing month decides the error |
| Summary.CollectStep | src/data.py:84-118 | one more month either ends the collection with its error or appends its two tables |
| Summary.Concat | src/data.py:120-121 | no contract of its own: `pd.concat` of the months' tables in order; its totals in TableTotalConcat and FlattenTotal |
| Summary.TableTotalConcat | src/data.py:120-121 | joining two tables adds their totals |
| Summary.BillingSummary | src/data.py:74-123 | no contract of its own: the whole call; meaning in SummaryByCategory, SummaryTotals and SummaryEmptyRange, and GetSummary is proved equal to it |
| Summary.Flatten | src/data.py:117-121 | no contract of its own: a reference reading of one category's final table, the months' tables joined month by month; tied to the call by CollectFlatten and SummaryByCategory |
| Summary.GetSummary | src/data.py:74-123 | the month loop returns exactly `BillingSummary(start, end, fetch)`: the corrected months' tables joined in month order, the first failing month's error, or NoMonths for an empty range |
| Summary.CollectFlatten | src/data.py:117-121 | collecting the outcomes succeeds exactly when both categories' month-by-month tables do, and yields their concatenations |
| Summary.SummaryByCategory | src/data.py:117-121 | the summary succeeds exactly when some month is fetched and every month's tables reshape; the storage table is the months' storage tables in month order, and likewise for usage |
| Summary.FlattenTotal | src/data.py:117-121 | one category's joined table carries exactly the money paid out in it over the months |
| Summary.SummaryTotals | src/data.py:74-123 | the summary's storage and usage tables carry exactly the storage and usage money of the months fetched |
| Summary.SummaryEmptyRange | src/data.py:78-120 | the call fails in `pd.concat([])` exactly when end is before start |
| Marketplace.KeysOf | src/data.py:29 | `list(gpu.keys())`: the keys in order, one per entry |
| Marketplace.LoadNode | src/data.py:16-39 | each column of the record is the matching leaf of the node; the port count is the number of ports and the GPU names are the GPU keys in order |
| Marketplace.LoadNodeKeeps | src/data.py:16-39 | two nodes flatten to the same record exactly when their ids agree and they agree on everything the record keeps |
| Marketplace.GetMarketplace | src/data.py:41-48 | fails (KeyError on `set_index`) exactly when there is no node; otherwise one record per node, in listing order, each the node flattened |
| Marketplace.MarketplaceKeyedById | src/data.py:44-47 | for a listing with distinct ids the table's ids are distinct, an id is in the table exactly when it names a node, and its record is that node flattened |
| Revenue.Tag | src/data.py:61 | a tagged virtual machine keeps its id and fields and gets its machine's id, unless it has its own `hostnode_id`, which wins |
| Revenue.TagAll | src/data.py:60-61 | a machine's virtual machines are tagged one by one in order |
| Revenue.Virtuals | src/data.py:58-61 | no contract of its own: the `virtuals` list; meaning in VirtualsLength, VirtualAt and VirtualsFromMachines, and the loop of GetRevenue builds it |
| Revenue.Revenue | src/data.py:50-66 | no contract of its own: the two tables of `get_revenue`; meaning in RevenueFails, MachineRows and the Virtuals lemmas, and GetRevenue is proved equal to it |
| Revenue.MachineRows | src/data.py:53-57 | the machines table has one row per machine, keyed by its id, without the popped `virtual_machines` |
| Revenue.GetRevenue | src/data.py:50-66 | the nested loop returns exactly the revenue tables: errors for no machine or no virtual machine, otherwise the machines and their tagged virtual machines |
| Revenue.VirtualsLength | src/data.py:58-61 | the virtual machines table has one row per nested virtual machine |
| Revenue.VirtualAt | src/data.py:58-61 | the j-th virtual machine of machine i sits after those of the earlier machines, tagged with machine i's id |
| Revenue.VirtualsFromMachines | src/data.py:58-61 | every row of the virtual machines table is a tagged virtual machine of some machine |
| Revenue.RevenueFails | src/data.py:53-64 | `get_revenue` fails exactly when there is no machine or no virtual machine at all; otherwise the two tables have one row per machine and one per virtual machine |
| Revenue.GetNode | src/data.py:68-72 | every call fails with NotImplementedError |

## Left out

- HTTP requests, authentication and the API client (`src/api.py`): the monthly fetch is a parameter `fetch: YearMonth -> SummaryResponse`, and the marketplace and revenue replies are inputs. `src/api.py` is not part of this model.
- The dashboards (`streamlit_app.py` and the simulated viewer): presentation only.
- `pprint`: console output.
- Floating point: amounts are exact reals, so the totals hold exactly rather than up to rounding.
- Time of day: `start` and `end` are whole days. The `YYYY-MM` text of a month is passed as a `YearMonth` value.
- `int(startY)` is modelled for plain digit strings only. Signs, surrounding spaces, underscores and a `startY` that is already a number fall under MalformedYear or are not represented.
- `%m/%d` is modelled as one or two digits, a slash, and one or two digits; anything else is MalformedMonthDay at the parse. pandas' other leniencies are not modelled: a day padded with a space instead of a zero (`03/ 5`, which the `%d` pattern accepts and the model rejects), and an empty string or any of pandas' NaT spellings (`"NaT"`, `"nat"`, `"nan"` and the like), which pandas turns into NaT without raising, so that such a row fails only later (in `replace` or `pd.date_range`), which can change which error is reported first.
- JSON typing: a missing key, a wrong type or NaN in a reply is not modelled. Leaves the code only copies are opaque `Scalar` values.
- pandas frame mechanics (dtypes, the index object, column order): tables are lists of rows. The `date` index is the row's `date` field.
- Summary.GetSummary: requires valid dates, which every `pd.Timestamp` is.
- The year rollover for spans across the new year is not modelled. The model keeps the single `startY` of the code.

## Findings

| source | as written | input that shows it | evidently intended | confidence | as-written member | corrected member |
|---|---|---|---|---|---|---|
| src/data.py:88-89 | an empty `storage_payouts` (or `vm_payouts`, line 93-94) list makes an empty frame, and looking up its `billing_period_end` column raises KeyError, so the whole summary fails | `QuietStorageMonth`: `startY` "2024", no storage payouts, one usage payout `03/05` to `03/05` of 7.0 | an empty list contributes an empty table for that category and month | not executed | Summary.EmptyPayoutsAsWritten | Summary.EmptyMonth |
