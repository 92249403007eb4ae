/**
 * `expand_row` and the concatenation of its frames (lines 98-109 of the data
 * layer): each transaction becomes one row per day of its span, carrying an
 * equal share of its total.
 */
module Expansion {
  import opened Wrappers
  import opened Calendar
  import opened Transactions

  /** One row of an expanded frame: columns `date`, `type`, `total_amount`, `hostnode_id`. */
  datatype Allocation = Allocation(date: Date, category: Category, totalAmount: real, hostnodeId: string)

  /** Whether the span of `t` includes day `d`. */
  predicate Covers(t: Transaction, d: Date) {
    !DateLess(d, t.billingPeriodStart) && !DateLess(t.billingPeriodEnd, d)
  }

  /** The number of days from start to end, both included (at most 0 if the span is reversed). */
  function SpanDays(t: Transaction): int {
    Ordinal(t.billingPeriodEnd) - Ordinal(t.billingPeriodStart) + 1
  }

  /**
   * `expand_row`: the days of the span, each with `total_amount / n`. A reversed
   * span has no days, and dividing by their number raises ZeroDivisionError.
   */
  function Expand(t: Transaction): (res: Result<seq<Allocation>, BillingError>)
    requires IsValid(t.billingPeriodStart) && IsValid(t.billingPeriodEnd)
    ensures res.Err? <==> DateLess(t.billingPeriodEnd, t.billingPeriodStart)
    ensures res.Err? ==> res.error == EmptySpan
    ensures res.Ok? ==> var rows := res.value;
      && |rows| == SpanDays(t)
      && forall i :: 0 <= i < |rows| ==>
           && IsValid(rows[i].date)
           && Ordinal(rows[i].date) == Ordinal(t.billingPeriodStart) + i
           && rows[i].category == t.category
           && rows[i].hostnodeId == t.hostnodeId
           && rows[i].totalAmount == t.totalAmount / (SpanDays(t) as real)
  {
    OrdinalOrder(t.billingPeriodEnd, t.billingPeriodStart);
    var days := DateRange(t.billingPeriodStart, t.billingPeriodEnd);
    if |days| == 0 then Err(EmptySpan)
    else
      var share := t.totalAmount / (|days| as real);
      Ok(seq(|days|, i requires 0 <= i < |days| => Allocation(days[i], t.category, share, t.hostnodeId)))
  }

  /** The sum of the `total_amount` column. */
  function Total(rows: seq<Allocation>): real {
    if rows == [] then 0.0 else rows[0].totalAmount + Total(rows[1..])
  }

  lemma {:induction false} TotalOfEqualShares(rows: seq<Allocation>, share: real)
    requires forall i :: 0 <= i < |rows| ==> rows[i].totalAmount == share
    ensures Total(rows) == (|rows| as real) * share
  {
    if rows != [] {
      TotalOfEqualShares(rows[1..], share);
    }
  }

  /** The daily shares of a transaction add up to its total, exactly. */
  lemma ExpandSumsToTotal(t: Transaction)
    requires IsValid(t.billingPeriodStart) && IsValid(t.billingPeriodEnd)
    requires Expand(t).Ok?
    ensures Total(Expand(t).value) == t.totalAmount
  {
    EqualSharesMakeTotal(Expand(t).value, t.totalAmount, SpanDays(t));
  }

  lemma EqualSharesMakeTotal(rows: seq<Allocation>, total: real, n: int)
    requires n > 0 && |rows| == n
    requires forall i :: 0 <= i < |rows| ==> rows[i].totalAmount == total / (n as real)
    ensures Total(rows) == total
  {
    TotalOfEqualShares(rows, total / (n as real));
  }

  /** The rows of a transaction are dated with exactly the days its span covers. */
  lemma ExpandCoversSpan(t: Transaction, d: Date)
    requires IsValid(t.billingPeriodStart) && IsValid(t.billingPeriodEnd) && IsValid(d)
    requires Expand(t).Ok?
    ensures (exists i :: 0 <= i < |Expand(t).value| && Expand(t).value[i].date == d) <==> Covers(t, d)
  {
    var rows := Expand(t).value;
    OrdinalOrder(d, t.billingPeriodStart);
    OrdinalOrder(t.billingPeriodEnd, d);
    if Covers(t, d) {
      var i := Ordinal(d) - Ordinal(t.billingPeriodStart);
      OrdinalOrder(rows[i].date, d);
    }
  }

  /** For example, 01/30 to 02/02 of 2024 with total 40 gives four rows of 10. */
  lemma FourDaysExample(t: Transaction)
    requires t == Transaction("h", Date(2024, 1, 30), Date(2024, 2, 2), 40.0, Storage)
    ensures Expand(t) == Ok([
      Allocation(Date(2024, 1, 30), Storage, 10.0, "h"),
      Allocation(Date(2024, 1, 31), Storage, 10.0, "h"),
      Allocation(Date(2024, 2, 1), Storage, 10.0, "h"),
      Allocation(Date(2024, 2, 2), Storage, 10.0, "h")])
  {
    assert SpanDays(t) == 4;
    var rows := Expand(t).value;
    assert t.totalAmount / (SpanDays(t) as real) == 10.0;
    OrdinalOrder(rows[0].date, Date(2024, 1, 30));
    OrdinalOrder(rows[1].date, Date(2024, 1, 31));
    OrdinalOrder(rows[2].date, Date(2024, 2, 1));
    OrdinalOrder(rows[3].date, Date(2024, 2, 2));
    assert rows == [rows[0], rows[1], rows[2], rows[3]];
  }

  /**
   * Line 108: the frames of all transactions, concatenated in order; the first
   * reversed span raises.
   */
  function ExpandAll(ts: seq<Transaction>): Result<seq<Allocation>, BillingError>
    requires AllValid(ts)
  {
    if ts == [] then Ok([])
    else
      match Expand(ts[0])
      case Err(e) => Err(e)
      case Ok(first) =>
        match ExpandAll(ts[1..])
        case Err(e) => Err(e)
        case Ok(rest) => Ok(first + rest)
  }

  /** The expansion of a payout list fails exactly when some span is reversed. */
  lemma {:induction false} ExpandAllSucceeds(ts: seq<Transaction>)
    requires AllValid(ts)
    ensures ExpandAll(ts).Ok? <==> forall i :: 0 <= i < |ts| ==> !DateLess(ts[i].billingPeriodEnd, ts[i].billingPeriodStart)
    ensures ExpandAll(ts).Err? ==> ExpandAll(ts).error == EmptySpan
  {
    if ts != [] {
      assert AllValid(ts[1..]) by {
        assert forall i :: 0 <= i < |ts[1..]| ==> ts[1..][i] == ts[i + 1];
      }
      ExpandAllSucceeds(ts[1..]);
      assert forall i :: 0 <= i < |ts[1..]| ==> ts[1..][i] == ts[i + 1];
    }
  }

  lemma {:induction false} TotalOfConcat(a: seq<Allocation>, b: seq<Allocation>)
    ensures Total(a + b) == Total(a) + Total(b)
  {
    if a == [] {
      assert a + b == b;
    } else {
      assert (a + b)[1..] == a[1..] + b && (a + b)[0] == a[0];
      TotalOfConcat(a[1..], b);
    }
  }

  function TotalAmount(ts: seq<Transaction>): real {
    if ts == [] then 0.0 else ts[0].totalAmount + TotalAmount(ts[1..])
  }

  /** Expansion moves money between days but neither creates nor loses any. */
  lemma {:induction false} ExpandAllSumsToTotal(ts: seq<Transaction>)
    requires AllValid(ts) && ExpandAll(ts).Ok?
    ensures Total(ExpandAll(ts).value) == TotalAmount(ts)
  {
    if ts != [] {
      ExpandSumsToTotal(ts[0]);
      ExpandAllSumsToTotal(ts[1..]);
      TotalOfConcat(Expand(ts[0]).value, ExpandAll(ts[1..]).value);
    }
  }

  /** Every expanded row has the category of the list it was expanded from. */
  lemma {:induction false} ExpandAllCategory(ts: seq<Transaction>, cat: Category)
    requires AllValid(ts) && ExpandAll(ts).Ok?
    requires forall i :: 0 <= i < |ts| ==> ts[i].category == cat
    ensures forall j :: 0 <= j < |ExpandAll(ts).value| ==> ExpandAll(ts).value[j].category == cat
  {
    if ts != [] {
      ExpandAllCategory(ts[1..], cat);
      assert ExpandAll(ts).value == Expand(ts[0]).value + ExpandAll(ts[1..]).value;
    }
  }

  /** Every expanded row falls on a valid day. */
  lemma {:induction false} ExpandAllValidDates(ts: seq<Transaction>)
    requires AllValid(ts) && ExpandAll(ts).Ok?
    ensures forall j :: 0 <= j < |ExpandAll(ts).value| ==> IsValid(ExpandAll(ts).value[j].date)
  {
    if ts != [] {
      assert AllValid(ts[1..]) by {
        assert forall i :: 0 <= i < |ts[1..]| ==> ts[1..][i] == ts[i + 1];
      }
      ExpandAllValidDates(ts[1..]);
      var first: seq<Allocation>, rest: seq<Allocation> := Expand(ts[0]).value, ExpandAll(ts[1..]).value;
      var all := first + rest;
      forall j | 0 <= j < |all| ensures IsValid(all[j].date) {
        if j >= |first| {
          assert all[j] == rest[j - |first|];
        }
      }
    }
  }
}
