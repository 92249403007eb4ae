/**
 * One month's billing-summary response and the year attachment of
 * `get_summary`: the `MM/DD` ends of every payout become full dates carrying
 * the response's `bill_period.startY`.
 */
module Transactions {
  import opened Wrappers
  import opened Calendar
  import opened DateText

  /** The `type` column: which payout list a transaction came from. */
  datatype Category = Storage | Usage

  /** A payout as the summary lists it, its span given as `MM/DD` text. */
  datatype RawTransaction = RawTransaction(
    hostnodeId: string,
    billingPeriodStart: string,
    billingPeriodEnd: string,
    totalAmount: real)

  datatype BillPeriod = BillPeriod(startY: string)

  datatype Payouts = Payouts(storagePayouts: seq<RawTransaction>, vmPayouts: seq<RawTransaction>)

  /** The decoded response of one `billing/summary` request. */
  datatype SummaryResponse = SummaryResponse(billPeriod: BillPeriod, transactions: Payouts)

  /** A payout whose span has been given full dates. */
  datatype Transaction = Transaction(
    hostnodeId: string,
    billingPeriodStart: Date,
    billingPeriodEnd: Date,
    totalAmount: real,
    category: Category)

  /** The exceptions `get_summary` can raise. */
  datatype BillingError =
    | MalformedYear        // int(startY) raises ValueError
    | YearOutOfRange       // Timestamp.replace(year=...) raises OutOfBoundsDatetime, a ValueError
    | MalformedMonthDay    // pd.to_datetime(..., format='%m/%d') raises ValueError
    | EmptySpan            // total_amount / len(date_range) raises ZeroDivisionError
    | MissingColumn        // a column of an empty frame is looked up: KeyError
    | NoMonths             // pd.concat([]) raises ValueError

  /**
   * The first and the last day whose midnight a nanosecond `Timestamp` can
   * hold (it spans 1677-09-21 00:12:43 to 2262-04-11 23:47:16).
   */
  const FirstTimestampDay: Date := Date(1677, 9, 22)
  const LastTimestampDay: Date := Date(2262, 4, 11)

  predicate InTimestampRange(d: Date) {
    !DateLess(d, FirstTimestampDay) && !DateLess(LastTimestampDay, d)
  }

  /** A year all of whose days a `Timestamp` can hold. */
  predicate WholeYearInRange(year: int) {
    FirstTimestampDay.year < year < LastTimestampDay.year
  }

  /** A parsed `(month, day)` with the year attached. */
  function WithYear(md: (int, int), year: int): Date {
    Date(year, md.0, md.1)
  }

  /** The text, if it parses, names a day of `year` that a `Timestamp` can hold. */
  predicate TextInRange(text: string, year: int) {
    ParseMonthDay(text).Some? ==> InTimestampRange(WithYear(ParseMonthDay(text).value, year))
  }

  /** Line 86: the year of the response's billing period. */
  function StartYear(r: SummaryResponse): (res: Result<int, BillingError>)
    ensures res.Ok? <==> ParseYear(r.billPeriod.startY).Some?
    ensures res.Ok? ==> res.value == ParseYear(r.billPeriod.startY).value
    ensures res.Err? ==> res.error == MalformedYear
  {
    match ParseYear(r.billPeriod.startY)
    case Some(y) => Ok(y)
    case None => Err(MalformedYear)
  }

  /** `pd.to_datetime(column, format='%m/%d')`: every entry parsed, or the first failure. */
  function ParseColumn(texts: seq<string>): (res: Result<seq<(int, int)>, BillingError>)
    ensures res.Ok? <==> forall i :: 0 <= i < |texts| ==> ParseMonthDay(texts[i]).Some?
    ensures res.Ok? ==>
      && |res.value| == |texts|
      && forall i :: 0 <= i < |texts| ==> Some(res.value[i]) == ParseMonthDay(texts[i])
    ensures res.Err? ==> res.error == MalformedMonthDay
  {
    if texts == [] then Ok([])
    else
      match ParseMonthDay(texts[0])
      case None => Err(MalformedMonthDay)
      case Some(md) =>
        match ParseColumn(texts[1..])
        case Err(e) => Err(e)
        case Ok(rest) => Ok([md] + rest)
  }

  /** `.apply(lambda x: x.replace(year=year))` over a parsed column. */
  function SetYear(mds: seq<(int, int)>, year: int): (res: Result<seq<Date>, BillingError>)
    requires forall i :: 0 <= i < |mds| ==> 1 <= mds[i].0 <= 12 && 1 <= mds[i].1 <= DaysInMonth(DefaultYear, mds[i].0)
    ensures res.Ok? <==> forall i :: 0 <= i < |mds| ==> InTimestampRange(WithYear(mds[i], year))
    ensures res.Ok? ==> |res.value| == |mds| && forall i :: 0 <= i < |mds| ==>
      && IsValid(res.value[i])
      && res.value[i] == Date(year, mds[i].0, mds[i].1)
    ensures res.Err? ==> res.error == YearOutOfRange
  {
    if forall i :: 0 <= i < |mds| ==> InTimestampRange(WithYear(mds[i], year)) then
      DefaultYearShortest(year);
      Ok(seq(|mds|, i requires 0 <= i < |mds| => WithYear(mds[i], year)))
    else Err(YearOutOfRange)
  }

  /** Every month of 1900, not a leap year, is as short as that month gets. */
  lemma DefaultYearShortest(year: int)
    ensures forall m :: DaysInMonth(DefaultYear, m) <= DaysInMonth(year, m)
  {
    assert !IsLeapYear(DefaultYear);
  }

  /** One date column of lines 89-90 (or 94-95). */
  function ToDates(texts: seq<string>, year: int): (res: Result<seq<Date>, BillingError>)
    ensures res.Ok? <==>
      && (forall i :: 0 <= i < |texts| ==> ParseMonthDay(texts[i]).Some?)
      && (forall i :: 0 <= i < |texts| ==> TextInRange(texts[i], year))
    ensures res.Ok? ==> |res.value| == |texts| && forall i :: 0 <= i < |texts| ==>
      && IsValid(res.value[i]) && res.value[i].year == year
      && ParseMonthDay(texts[i]) == Some((res.value[i].month, res.value[i].day))
    ensures res.Err? ==> res.error == MalformedMonthDay || res.error == YearOutOfRange
    ensures res.Err? && WholeYearInRange(year) ==> res.error == MalformedMonthDay
  {
    var mds :- ParseColumn(texts);
    SetYear(mds, year)
  }

  function Ends(raws: seq<RawTransaction>): (r: seq<string>)
    ensures |r| == |raws| && forall i :: 0 <= i < |raws| ==> r[i] == raws[i].billingPeriodEnd
  {
    seq(|raws|, i requires 0 <= i < |raws| => raws[i].billingPeriodEnd)
  }

  function Starts(raws: seq<RawTransaction>): (r: seq<string>)
    ensures |r| == |raws| && forall i :: 0 <= i < |raws| ==> r[i] == raws[i].billingPeriodStart
  {
    seq(|raws|, i requires 0 <= i < |raws| => raws[i].billingPeriodStart)
  }

  /**
   * Lines 88-91 (storage) and 93-96 (usage): the end column is converted and
   * then the start column, both with the one year `year`; the `type` column is
   * the payout list's category.
   */
  function Prepare(raws: seq<RawTransaction>, year: int, cat: Category): (res: Result<seq<Transaction>, BillingError>)
    ensures res.Ok? <==>
      && (forall i :: 0 <= i < |raws| ==> ParseMonthDay(raws[i].billingPeriodStart).Some?)
      && (forall i :: 0 <= i < |raws| ==> ParseMonthDay(raws[i].billingPeriodEnd).Some?)
      && (forall i :: 0 <= i < |raws| ==>
            TextInRange(raws[i].billingPeriodStart, year) && TextInRange(raws[i].billingPeriodEnd, year))
    ensures res.Ok? ==> |res.value| == |raws| && forall i :: 0 <= i < |raws| ==>
      var t := res.value[i];
      && t.hostnodeId == raws[i].hostnodeId
      && t.totalAmount == raws[i].totalAmount
      && t.category == cat
      && IsValid(t.billingPeriodStart) && IsValid(t.billingPeriodEnd)
      && t.billingPeriodStart.year == year && t.billingPeriodEnd.year == year
      && ParseMonthDay(raws[i].billingPeriodStart) == Some((t.billingPeriodStart.month, t.billingPeriodStart.day))
      && ParseMonthDay(raws[i].billingPeriodEnd) == Some((t.billingPeriodEnd.month, t.billingPeriodEnd.day))
    ensures res.Err? ==> res.error == MalformedMonthDay || res.error == YearOutOfRange
    ensures res.Err? && WholeYearInRange(year) ==> res.error == MalformedMonthDay
  {
    match ToDates(Ends(raws), year)
    case Err(e) => Err(e)
    case Ok(ends) =>
      match ToDates(Starts(raws), year)
      case Err(e) => Err(e)
      case Ok(starts) => Ok(Zip(raws, starts, ends, cat))
  }

  /** The transactions with converted ends, row by row. */
  function Zip(raws: seq<RawTransaction>, starts: seq<Date>, ends: seq<Date>, cat: Category): (ts: seq<Transaction>)
    requires |starts| == |ends| == |raws|
    ensures |ts| == |raws| && forall i :: 0 <= i < |raws| ==>
      ts[i] == Transaction(raws[i].hostnodeId, starts[i], ends[i], raws[i].totalAmount, cat)
  {
    seq(|raws|, i requires 0 <= i < |raws| => Transaction(raws[i].hostnodeId, starts[i], ends[i], raws[i].totalAmount, cat))
  }

  /** Every prepared transaction has valid dates. */
  ghost predicate AllValid(ts: seq<Transaction>) {
    forall i :: 0 <= i < |ts| ==> IsValid(ts[i].billingPeriodStart) && IsValid(ts[i].billingPeriodEnd)
  }
}
