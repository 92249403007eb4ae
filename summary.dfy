/**
 * `Data.get_summary`: one billing-summary fetch per month of `[start, end]`,
 * each month's payouts reshaped into a daily storage table and a daily usage
 * table, and each category's monthly tables concatenated in month order.
 */
module Summary {
  import opened Wrappers
  import opened Calendar
  import opened DateText
  import opened Transactions
  import opened Expansion
  import opened Aggregation
  import opened MonthPartition

  /** A daily table: rows indexed by `date`, with `hostnode_id` and `total_amount`. */
  type Table = seq<DailyRow>

  /** One payout list of a month, reshaped: year attached, expanded, grouped. */
  function CategoryTable(raws: seq<RawTransaction>, year: int, cat: Category): Result<Table, BillingError> {
    match Prepare(raws, year, cat)
    case Err(e) => Err(e)
    case Ok(ts) =>
      match ExpandAll(ts)
      case Err(e) => Err(e)
      case Ok(rows) => Ok(GroupSum(rows))
  }

  /**
   * Lines 86-115 for one month's response, read as intended: the year, the
   * storage dates, the usage dates, the storage expansion, the usage expansion,
   * the grouping, in the source's order, but an empty payout list gives an empty
   * table where the code raises (see `MonthTablesAsWritten`). The storage table
   * depends only on the storage payouts (and the year), the usage table only on
   * the usage payouts.
   */
  function MonthTables(r: SummaryResponse): Result<(Table, Table), BillingError>
  {
    var p := r.transactions;
    match StartYear(r)
    case Err(e) => Err(e)
    case Ok(year) =>
      match (Prepare(p.storagePayouts, year, Storage), Prepare(p.vmPayouts, year, Usage))
      case (Err(e), _) => Err(e)
      case (Ok(_), Err(e)) => Err(e)
      case (Ok(storage), Ok(usage)) =>
        match (ExpandAll(storage), ExpandAll(usage))
        case (Err(e), _) => Err(e)
        case (Ok(_), Err(e)) => Err(e)
        case (Ok(storageRows), Ok(usageRows)) => Ok((GroupSum(storageRows), GroupSum(usageRows)))
  }

  /** The payout list of one category in a month's response. */
  function PayoutsOf(r: SummaryResponse, cat: Category): seq<RawTransaction> {
    match cat
    case Storage => r.transactions.storagePayouts
    case Usage => r.transactions.vmPayouts
  }

  /** One category's daily table of a month, from that month's year and payout list alone. */
  function MonthCategoryTable(r: SummaryResponse, cat: Category): Result<Table, BillingError> {
    match StartYear(r)
    case Err(e) => Err(e)
    case Ok(year) => CategoryTable(PayoutsOf(r, cat), year, cat)
  }

  /**
   * A month's outcome, category by category: the storage table depends only on
   * the storage payouts (and the year), the usage table only on the usage
   * payouts.
   */
  lemma MonthTablesByCategory(r: SummaryResponse)
    ensures MonthTables(r).Ok? <==> MonthCategoryTable(r, Storage).Ok? && MonthCategoryTable(r, Usage).Ok?
    ensures MonthTables(r).Ok? ==> MonthTables(r).value == (MonthCategoryTable(r, Storage).value, MonthCategoryTable(r, Usage).value)
  {
    var p := r.transactions;
    match StartYear(r)
    case Err(_) =>
    case Ok(year) =>
      if Prepare(p.storagePayouts, year, Storage).Ok? && Prepare(p.vmPayouts, year, Usage).Ok? {
        assert MonthTables(r).Ok? <==>
          ExpandAll(Prepare(p.storagePayouts, year, Storage).value).Ok? && ExpandAll(Prepare(p.vmPayouts, year, Usage).value).Ok?;
      }
  }

  /** A month with two empty payout lists contributes two empty tables. */
  lemma EmptyMonth(r: SummaryResponse)
    requires StartYear(r).Ok? && r.transactions.storagePayouts == [] && r.transactions.vmPayouts == []
    ensures MonthTables(r) == Ok(([], []))
  {
    var year := StartYear(r).value;
    assert Prepare([], year, Storage) == Ok([]) && Prepare([], year, Usage) == Ok([]);
  }

  /**
   * One empty payout list gives an empty table for its category, whatever the
   * other list holds.
   */
  lemma EmptyCategory(r: SummaryResponse, cat: Category)
    requires StartYear(r).Ok? && PayoutsOf(r, cat) == []
    ensures MonthCategoryTable(r, cat) == Ok([])
  {
    assert Prepare([], StartYear(r).value, cat) == Ok([]);
  }

  /** The sum of `total_amount` over a payout list, as the API reports it. */
  function PayoutTotal(raws: seq<RawTransaction>): real {
    if raws == [] then 0.0 else raws[0].totalAmount + PayoutTotal(raws[1..])
  }

  lemma {:induction false} PreparedTotal(raws: seq<RawTransaction>, ts: seq<Transaction>)
    requires |ts| == |raws| && forall i :: 0 <= i < |raws| ==> ts[i].totalAmount == raws[i].totalAmount
    ensures TotalAmount(ts) == PayoutTotal(raws)
  {
    if raws != [] {
      PreparedTotal(raws[1..], ts[1..]);
    }
  }

  /** `(m1, d1)` comes before `(m2, d2)` within one year. */
  predicate MonthDayBefore(a: (int, int), b: (int, int)) {
    a.0 < b.0 || (a.0 == b.0 && a.1 < b.1)
  }

  /**
   * When one payout list reshapes without an exception: every `MM/DD` text
   * parses, names a day a `Timestamp` can hold in the attached year, and no
   * transaction's end day comes before its start day in the attached year.
   */
  lemma CategoryTableSucceeds(raws: seq<RawTransaction>, year: int, cat: Category)
    ensures CategoryTable(raws, year, cat).Ok? <==>
      && (forall i :: 0 <= i < |raws| ==>
            ParseMonthDay(raws[i].billingPeriodStart).Some? && ParseMonthDay(raws[i].billingPeriodEnd).Some?)
      && (forall i :: 0 <= i < |raws| ==>
            TextInRange(raws[i].billingPeriodStart, year) && TextInRange(raws[i].billingPeriodEnd, year))
      && (forall i :: 0 <= i < |raws| ==>
            !MonthDayBefore(ParseMonthDay(raws[i].billingPeriodEnd).value, ParseMonthDay(raws[i].billingPeriodStart).value))
    ensures CategoryTable(raws, year, cat).Err? && Prepare(raws, year, cat).Ok? ==>
      CategoryTable(raws, year, cat).error == EmptySpan
  {
    if Prepare(raws, year, cat).Ok? {
      ExpandAllSucceeds(Prepare(raws, year, cat).value);
      ReversedSpans(raws, year, cat);
    }
  }

  /** With one year at both ends, a span is reversed exactly when its end day comes before its start day. */
  lemma ReversedSpans(raws: seq<RawTransaction>, year: int, cat: Category)
    requires Prepare(raws, year, cat).Ok?
    ensures var ts := Prepare(raws, year, cat).value;
      forall i :: 0 <= i < |raws| ==>
        (DateLess(ts[i].billingPeriodEnd, ts[i].billingPeriodStart) <==>
         MonthDayBefore(ParseMonthDay(raws[i].billingPeriodEnd).value, ParseMonthDay(raws[i].billingPeriodStart).value))
  {
  }

  /**
   * A span written across the new year gets the one year `startY` at both
   * ends, so its end comes before its start and the month fails on the
   * division by its empty day range.
   */
  lemma YearSpanningFails(raws: seq<RawTransaction>, year: int, cat: Category, i: int)
    requires Prepare(raws, year, cat).Ok? && 0 <= i < |raws|
    requires MonthDayBefore(ParseMonthDay(raws[i].billingPeriodEnd).value, ParseMonthDay(raws[i].billingPeriodStart).value)
    ensures CategoryTable(raws, year, cat) == Err(EmptySpan)
  {
    CategoryTableSucceeds(raws, year, cat);
  }

  /** A payout from 28 December to 3 January fails its month. */
  lemma YearSpanningExample(raws: seq<RawTransaction>, year: int)
    requires raws == [RawTransaction("h", "12/28", "01/03", 70.0)] && year == 2024
    ensures CategoryTable(raws, year, Storage) == Err(EmptySpan)
  {
    NewYearTexts(raws[0].billingPeriodStart, raws[0].billingPeriodEnd);
    assert Prepare(raws, year, Storage).Ok?;
    YearSpanningFails(raws, year, Storage, 0);
  }

  lemma NewYearTexts(s: string, e: string)
    requires s == "12/28" && e == "01/03"
    ensures ParseMonthDay(s) == Some((12, 28)) && ParseMonthDay(e) == Some((1, 3))
  {
    MonthDayRoundTrip(12, 28);
    assert FormatMonthDay(12, 28) == "12/28";
    MonthDayRoundTrip(1, 3);
    assert FormatMonthDay(1, 3) == "01/03";
  }

  /**
   * `02/29` is parsed before the year is attached, against the non-leap
   * default year, so a payout dated 29 February fails its month even in a
   * leap year.
   */
  lemma LeapDayFails(raws: seq<RawTransaction>, year: int, cat: Category, i: int)
    requires 0 <= i < |raws| && WholeYearInRange(year)
    requires raws[i].billingPeriodStart == "02/29" || raws[i].billingPeriodEnd == "02/29"
    ensures CategoryTable(raws, year, cat) == Err(MalformedMonthDay)
  {
    LeapDayRejected();
  }

  /**
   * The daily table of one payout list. It is sorted by `(date, hostnode_id)`,
   * so each pair occurs once; a pair appears exactly when some transaction of
   * that machine covers that day, and its amount is the sum of those
   * transactions' equal daily shares; every date lies in the attached year; and
   * the table's amounts add up to the payouts' total.
   */
  lemma CategoryTableMeaning(raws: seq<RawTransaction>, year: int, cat: Category, k: GroupKey)
    requires CategoryTable(raws, year, cat).Ok? && IsValid(k.date)
    ensures Prepare(raws, year, cat).Ok? && AllValid(Prepare(raws, year, cat).value)
    ensures var t := CategoryTable(raws, year, cat).value;
      var ts := Prepare(raws, year, cat).value;
      && StrictlySorted(t)
      && (k in Keys(t) <==> Observed(ts, k))
      && AmountOf(t, k) == ShareFor(ts, k)
      && (forall i :: 0 <= i < |t| ==> IsValid(t[i].date) && t[i].date.year == year)
  {
    var ts := Prepare(raws, year, cat).value;
    var rows := ExpandAll(ts).value;
    GroupSumFacts(rows);
    ExpandAllShares(ts, k);
    GroupedDatesInYear(ts, year);
  }

  /** Reshaping one payout list neither creates nor loses money. */
  lemma CategoryTableTotal(raws: seq<RawTransaction>, year: int, cat: Category)
    requires CategoryTable(raws, year, cat).Ok?
    ensures TableTotal(CategoryTable(raws, year, cat).value) == PayoutTotal(raws)
  {
    var ts := Prepare(raws, year, cat).value;
    var rows := ExpandAll(ts).value;
    GroupSumTotal(rows);
    ExpandAllSumsToTotal(ts);
    PreparedTotal(raws, ts);
  }

  /** Transactions dated within one year put every grouped row in that year. */
  lemma GroupedDatesInYear(ts: seq<Transaction>, year: int)
    requires AllValid(ts) && ExpandAll(ts).Ok?
    requires forall n :: 0 <= n < |ts| ==> ts[n].billingPeriodStart.year == year && ts[n].billingPeriodEnd.year == year
    ensures var t := GroupSum(ExpandAll(ts).value);
      forall i :: 0 <= i < |t| ==> IsValid(t[i].date) && t[i].date.year == year
  {
    var rows := ExpandAll(ts).value;
    var t := GroupSum(rows);
    GroupSumFacts(rows);
    ExpandAllValidDates(ts);
    forall i | 0 <= i < |t| ensures IsValid(t[i].date) && t[i].date.year == year {
      var key := RowKey(t[i]);
      KeysIndex(t, key);
      ObservedKeysIndex(rows, key);
      var j :| 0 <= j < |rows| && KeyOf(rows[j]) == key;
      ExpandAllShares(ts, key);
      var n :| 0 <= n < |ts| && ts[n].hostnodeId == key.hostnodeId && Covers(ts[n], key.date);
    }
  }

  /**
   * What can go wrong in one month: a `startY` that is not a number, a year
   * out of range, an `MM/DD` text that does not parse, or a reversed span.
   */
  lemma MonthTablesErrors(r: SummaryResponse)
    ensures MonthTables(r).Err? ==>
      MonthTables(r).error in {MalformedYear, YearOutOfRange, MalformedMonthDay, EmptySpan}
  {
    match StartYear(r)
    case Err(_) =>
    case Ok(year) =>
      var p := r.transactions;
      if Prepare(p.storagePayouts, year, Storage).Ok? && Prepare(p.vmPayouts, year, Usage).Ok? {
        ExpandAllSucceeds(Prepare(p.storagePayouts, year, Storage).value);
        ExpandAllSucceeds(Prepare(p.vmPayouts, year, Usage).value);
      }
  }

  /**
   * Lines 86-115 as written: an empty payout list makes an empty frame, and
   * looking up its `billing_period_end` column (line 89 or 94) raises KeyError.
   */
  function MonthTablesAsWritten(r: SummaryResponse): (res: Result<(Table, Table), BillingError>)
    ensures r.transactions.storagePayouts != [] && r.transactions.vmPayouts != [] ==> res == MonthTables(r)
    ensures r.transactions.storagePayouts == [] || r.transactions.vmPayouts == [] ==> res.Err?
    ensures StartYear(r).Err? ==> res == Err(MalformedYear)
    ensures StartYear(r).Ok? && r.transactions.storagePayouts == [] ==> res == Err(MissingColumn)
    ensures StartYear(r).Ok? && r.transactions.storagePayouts != [] && r.transactions.vmPayouts == [] ==>
      var prepared := Prepare(r.transactions.storagePayouts, StartYear(r).value, Storage);
      res == if prepared.Ok? then Err(MissingColumn) else Err(prepared.error)
  {
    var p := r.transactions;
    if p.storagePayouts != [] && p.vmPayouts != [] then MonthTables(r)
    else
      match StartYear(r)
      case Err(e) => Err(e)
      case Ok(year) =>
        if p.storagePayouts == [] then Err(MissingColumn)
        else
          match Prepare(p.storagePayouts, year, Storage)
          case Err(e) => Err(e)
          case Ok(_) => Err(MissingColumn)
  }

  /** A month whose storage list is empty but whose usage list is not. */
  function QuietStorageMonth(): SummaryResponse {
    SummaryResponse(BillPeriod("2024"), Payouts([], [RawTransaction("h", "03/05", "03/05", 7.0)]))
  }

  /** The usage list of `QuietStorageMonth`, reshaped on its own: one row of 7.0 on 2024-03-05. */
  lemma SingleDayTable(raws: seq<RawTransaction>, year: int)
    requires raws == [RawTransaction("h", "03/05", "03/05", 7.0)] && year == 2024
    ensures CategoryTable(raws, year, Usage) == Ok([DailyRow(Date(2024, 3, 5), "h", 7.0)])
  {
    var ts := SingleDayPrepared(raws, year);
    var rows := SingleDayExpansion(ts);
    assert ExpandAll(ts) == Ok(rows) by {
      assert ts[1..] == [];
      assert rows + [] == rows;
    }
    assert rows[1..] == [];
    assert GroupSum(rows) == Insert(GroupSum([]), rows[0]);
  }

  lemma SingleDayPrepared(raws: seq<RawTransaction>, year: int) returns (ts: seq<Transaction>)
    requires raws == [RawTransaction("h", "03/05", "03/05", 7.0)] && year == 2024
    ensures Prepare(raws, year, Usage) == Ok(ts)
    ensures ts == [Transaction("h", Date(2024, 3, 5), Date(2024, 3, 5), 7.0, Usage)]
  {
    MarchFifthText(raws[0].billingPeriodStart);
    ts := Prepare(raws, year, Usage).value;
  }

  lemma MarchFifthText(s: string)
    requires s == "03/05"
    ensures ParseMonthDay(s) == Some((3, 5))
  {
    MonthDayRoundTrip(3, 5);
    assert FormatMonthDay(3, 5) == "03/05";
  }

  /** A one-day transaction expands to one allocation of its whole amount. */
  lemma SingleDayExpansion(ts: seq<Transaction>) returns (rows: seq<Allocation>)
    requires ts == [Transaction("h", Date(2024, 3, 5), Date(2024, 3, 5), 7.0, Usage)]
    ensures AllValid(ts) && Expand(ts[0]) == Ok(rows)
    ensures rows == [Allocation(Date(2024, 3, 5), Usage, 7.0, "h")]
  {
    rows := Expand(ts[0]).value;
    OrdinalOrder(rows[0].date, Date(2024, 3, 5));
    assert rows == [rows[0]];
  }

  /**
   * As written, a month without storage payouts fails the whole summary; the
   * intended result is an empty storage contribution beside the usage table.
   */
  lemma EmptyPayoutsAsWritten(r: SummaryResponse)
    requires r == QuietStorageMonth()
    ensures MonthTablesAsWritten(r) == Err(MissingColumn)
    ensures MonthTables(r) == Ok(([], [DailyRow(Date(2024, 3, 5), "h", 7.0)]))
  {
    assert ParseYear("2024") == Some(2024) by {
      YearRoundTrip(2024);
      assert FourDigits(2024) == "2024";
    }
    SingleDayTable(r.transactions.vmPayouts, 2024);
    MonthTablesByCategory(r);
  }

  /** The concatenation of tables, in order (`pd.concat`). */
  function Concat(tables: seq<Table>): Table {
    if tables == [] then [] else tables[0] + Concat(tables[1..])
  }

  /** Each month's reshaping outcome, in month order. */
  function Outcomes(ms: seq<YearMonth>, fetch: YearMonth -> SummaryResponse): (os: seq<Result<(Table, Table), BillingError>>)
    ensures |os| == |ms|
  {
    if ms == [] then [] else [MonthTables(fetch(ms[0]))] + Outcomes(ms[1..], fetch)
  }

  /** The outcome of month `i` is that month's reshaped response. */
  lemma {:induction false} OutcomesAt(ms: seq<YearMonth>, fetch: YearMonth -> SummaryResponse, i: int)
    requires 0 <= i < |ms|
    ensures Outcomes(ms, fetch)[i] == MonthTables(fetch(ms[i]))
  {
    if i > 0 {
      OutcomesAt(ms[1..], fetch, i - 1);
    }
  }

  /**
   * The `_df_storage` and `_df_usage` lists built from the months' outcomes:
   * each month's two tables in month order, or the error of the first month
   * that fails.
   */
  function Collect(os: seq<Result<(Table, Table), BillingError>>): Result<(seq<Table>, seq<Table>), BillingError> {
    if os == [] then Ok(([], []))
    else
      match Collect(os[..|os| - 1])
      case Err(e) => Err(e)
      case Ok(prev) =>
        match os[|os| - 1]
        case Err(e) => Err(e)
        case Ok(cur) => Ok((prev.0 + [cur.0], prev.1 + [cur.1]))
  }

  /**
   * The collection succeeds exactly when every month does, and then holds each
   * month's two tables at that month's place; otherwise it fails with the error
   * of the first month that fails.
   */
  lemma {:induction false} CollectMeaning(os: seq<Result<(Table, Table), BillingError>>)
    ensures Collect(os).Ok? <==> forall i :: 0 <= i < |os| ==> os[i].Ok?
    ensures Collect(os).Ok? ==>
      && |Collect(os).value.0| == |os| && |Collect(os).value.1| == |os|
      && forall i :: 0 <= i < |os| ==> (Collect(os).value.0[i], Collect(os).value.1[i]) == os[i].value
    ensures Collect(os).Err? ==>
      exists i :: 0 <= i < |os| && os[i] == Err(Collect(os).error) && forall j :: 0 <= j < i ==> os[j].Ok?
  {
    if os != [] {
      var prefix := os[..|os| - 1];
      assert forall i :: 0 <= i < |prefix| ==> prefix[i] == os[i];
      CollectMeaning(prefix);
    }
  }

  /**
   * The two daily tables of `get_summary(start, end)`: storage and usage. With
   * no month to fetch (`end` before `start`), `pd.concat([])` raises.
   */
  function BillingSummary(start: Date, end: Date, fetch: YearMonth -> SummaryResponse): Result<(Table, Table), BillingError>
    requires IsValid(start)
  {
    var months := MonthsOf(start, end);
    if months == [] then Err(NoMonths)
    else
      match Collect(Outcomes(months, fetch))
      case Err(e) => Err(e)
      case Ok(tables) => Ok((Concat(tables.0), Concat(tables.1)))
  }

  /** Appending a successful month appends its two tables. */
  lemma CollectSnoc(os: seq<Result<(Table, Table), BillingError>>, o: Result<(Table, Table), BillingError>)
    requires Collect(os).Ok? && o.Ok?
    ensures Collect(os + [o]) == Ok((Collect(os).value.0 + [o.value.0], Collect(os).value.1 + [o.value.1]))
  {
    assert (os + [o])[..|os|] == os;
  }

  /** The month that fails first decides the error. */
  lemma {:induction false} FirstFailure(os: seq<Result<(Table, Table), BillingError>>, i: int)
    requires 0 <= i < |os| && os[i].Err?
    requires Collect(os[..i]).Ok?
    ensures Collect(os) == Err(os[i].error)
  {
    var prefix := os[..|os| - 1];
    if i < |os| - 1 {
      assert prefix[..i] == os[..i];
      FirstFailure(prefix, i);
    } else {
      assert prefix == os[..i];
    }
  }

  /** One more month: its error ends the collection, its tables extend it. */
  lemma CollectStep(os: seq<Result<(Table, Table), BillingError>>, i: int, o: Result<(Table, Table), BillingError>)
    requires 0 <= i < |os| && Collect(os[..i]).Ok? && os[i] == o
    ensures o.Err? ==> Collect(os) == Err(o.error)
    ensures o.Ok? ==>
      Collect(os[..i + 1]) == Ok((Collect(os[..i]).value.0 + [o.value.0], Collect(os[..i]).value.1 + [o.value.1]))
  {
    if o.Err? {
      FirstFailure(os, i);
    } else {
      assert os[..i + 1] == os[..i] + [o];
      CollectSnoc(os[..i], o);
    }
  }

  /**
   * `Data.get_summary`: fetch each month in turn, reshape it and append its
   * tables; an exception in any month ends the call.
   */
  method GetSummary(start: Date, end: Date, fetch: YearMonth -> SummaryResponse)
    returns (res: Result<(Table, Table), BillingError>)
    requires IsValid(start) && IsValid(end)
    ensures res == BillingSummary(start, end, fetch)
  {
    var months := MonthsOf(start, end);
    ghost var outcomes := Outcomes(months, fetch);
    var storageTables: seq<Table> := [];
    var usageTables: seq<Table> := [];
    for i := 0 to |months|
      invariant Collect(outcomes[..i]) == Ok((storageTables, usageTables))
    {
      var data := fetch(months[i]);
      var tables := MonthTables(data);
      OutcomesAt(months, fetch, i);
      CollectStep(outcomes, i, tables);
      if tables.Err? {
        return Err(tables.error);
      }
      storageTables := storageTables + [tables.value.0];
      usageTables := usageTables + [tables.value.1];
    }
    assert outcomes[..|months|] == outcomes;
    if |months| == 0 {
      return Err(NoMonths);
    }
    res := Ok((Concat(storageTables), Concat(usageTables)));
  }

  /**
   * A reference reading of one category's final table: the months' tables of
   * that category, joined month by month.
   */
  function Flatten(ms: seq<YearMonth>, fetch: YearMonth -> SummaryResponse, cat: Category): Result<Table, BillingError> {
    if ms == [] then Ok([])
    else
      match MonthCategoryTable(fetch(ms[0]), cat)
      case Err(e) => Err(e)
      case Ok(t) =>
        match Flatten(ms[1..], fetch, cat)
        case Err(e) => Err(e)
        case Ok(rest) => Ok(t + rest)
  }

  /** The total paid out in one category over the months `ms`. */
  function MonthsPayoutTotal(ms: seq<YearMonth>, fetch: YearMonth -> SummaryResponse, cat: Category): real {
    if ms == [] then 0.0 else PayoutTotal(PayoutsOf(fetch(ms[0]), cat)) + MonthsPayoutTotal(ms[1..], fetch, cat)
  }

  /** Collecting from the front: the first outcome's tables, then the rest's. */
  lemma {:induction false} CollectCons(o: Result<(Table, Table), BillingError>, os: seq<Result<(Table, Table), BillingError>>)
    ensures Collect([o] + os).Ok? <==> o.Ok? && Collect(os).Ok?
    ensures Collect([o] + os).Ok? ==>
      Collect([o] + os).value == ([o.value.0] + Collect(os).value.0, [o.value.1] + Collect(os).value.1)
  {
    var all := [o] + os;
    if os == [] {
      assert all[..0] == [] && all[0] == o;
      if o.Ok? {
        assert [] + [o.value.0] == [o.value.0] + [] && [] + [o.value.1] == [o.value.1] + [];
      }
    } else {
      var init := os[..|os| - 1];
      assert all[..|all| - 1] == [o] + init;
      assert all[|all| - 1] == os[|os| - 1];
      CollectCons(o, init);
      if Collect(all).Ok? {
        var prev, last := Collect(init).value, os[|os| - 1].value;
        assert ([o.value.0] + prev.0) + [last.0] == [o.value.0] + (prev.0 + [last.0]);
        assert ([o.value.1] + prev.1) + [last.1] == [o.value.1] + (prev.1 + [last.1]);
      }
    }
  }

  lemma {:induction false} CollectFlatten(ms: seq<YearMonth>, fetch: YearMonth -> SummaryResponse)
    ensures Collect(Outcomes(ms, fetch)).Ok? <==> Flatten(ms, fetch, Storage).Ok? && Flatten(ms, fetch, Usage).Ok?
    ensures Collect(Outcomes(ms, fetch)).Ok? ==>
      && Flatten(ms, fetch, Storage) == Ok(Concat(Collect(Outcomes(ms, fetch)).value.0))
      && Flatten(ms, fetch, Usage) == Ok(Concat(Collect(Outcomes(ms, fetch)).value.1))
  {
    if ms != [] {
      CollectCons(MonthTables(fetch(ms[0])), Outcomes(ms[1..], fetch));
      CollectFlatten(ms[1..], fetch);
      MonthTablesByCategory(fetch(ms[0]));
    }
  }

  /**
   * The final storage table is the months' storage tables in month order, and
   * likewise for usage: storage rows come only from storage payouts and usage
   * rows only from usage payouts. A month fails the whole call exactly when its
   * year or one of its two payout lists fails.
   */
  lemma SummaryByCategory(start: Date, end: Date, fetch: YearMonth -> SummaryResponse)
    requires IsValid(start)
    ensures var ms := MonthsOf(start, end);
      BillingSummary(start, end, fetch).Ok? <==>
        && ms != []
        && Flatten(ms, fetch, Storage).Ok? && Flatten(ms, fetch, Usage).Ok?
    ensures var ms := MonthsOf(start, end);
      BillingSummary(start, end, fetch).Ok? ==>
        BillingSummary(start, end, fetch).value == (Flatten(ms, fetch, Storage).value, Flatten(ms, fetch, Usage).value)
  {
    var ms := MonthsOf(start, end);
    if ms != [] {
      CollectFlatten(ms, fetch);
    }
  }

  lemma {:induction false} TableTotalConcat(a: Table, b: Table)
    ensures TableTotal(a + b) == TableTotal(a) + TableTotal(b)
  {
    if a == [] {
      assert a + b == b;
    } else {
      assert (a + b)[1..] == a[1..] + b;
      TableTotalConcat(a[1..], b);
    }
  }

  /** The flattened table of a category carries exactly the money paid out in it. */
  lemma {:induction false} FlattenTotal(ms: seq<YearMonth>, fetch: YearMonth -> SummaryResponse, cat: Category)
    requires Flatten(ms, fetch, cat).Ok?
    ensures TableTotal(Flatten(ms, fetch, cat).value) == MonthsPayoutTotal(ms, fetch, cat)
  {
    if ms != [] {
      var r := fetch(ms[0]);
      CategoryTableTotal(PayoutsOf(r, cat), StartYear(r).value, cat);
      FlattenTotal(ms[1..], fetch, cat);
      TableTotalConcat(MonthCategoryTable(r, cat).value, Flatten(ms[1..], fetch, cat).value);
    }
  }

  /** With no month in `[start, end]` (`end` before `start`) the call fails in `pd.concat`. */
  lemma SummaryEmptyRange(start: Date, end: Date, fetch: YearMonth -> SummaryResponse)
    requires IsValid(start) && IsValid(end)
    ensures BillingSummary(start, end, fetch) == Err(NoMonths) <==> DateLess(end, start)
  {
    MonthsOfRange(start, end);
    var ms := MonthsOf(start, end);
    if ms != [] && Collect(Outcomes(ms, fetch)).Err? {
      var os := Outcomes(ms, fetch);
      CollectMeaning(os);
      var i :| 0 <= i < |os| && os[i] == Err(Collect(os).error) && forall j :: 0 <= j < i ==> os[j].Ok?;
      OutcomesAt(ms, fetch, i);
      MonthTablesErrors(fetch(ms[i]));
    }
  }

  /** The summary's storage and usage tables carry exactly the money paid out over the months fetched. */
  lemma SummaryTotals(start: Date, end: Date, fetch: YearMonth -> SummaryResponse)
    requires IsValid(start) && BillingSummary(start, end, fetch).Ok?
    ensures TableTotal(BillingSummary(start, end, fetch).value.0) == MonthsPayoutTotal(MonthsOf(start, end), fetch, Storage)
    ensures TableTotal(BillingSummary(start, end, fetch).value.1) == MonthsPayoutTotal(MonthsOf(start, end), fetch, Usage)
  {
    SummaryByCategory(start, end, fetch);
    FlattenTotal(MonthsOf(start, end), fetch, Storage);
    FlattenTotal(MonthsOf(start, end), fetch, Usage);
  }
}
