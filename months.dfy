/**
 * The month partition of `get_summary`: the distinct `YYYY-MM` months of the
 * days of `[start, end]`, in the order `pd.Index.unique` keeps (first appearance).
 */
module MonthPartition {
  import opened Calendar

  /** The elements of `s` without repeats, each where it first appears. */
  function Unique(s: seq<YearMonth>): (r: seq<YearMonth>)
    ensures forall x :: x in r <==> x in s
    ensures forall i, j :: 0 <= i < j < |r| ==> r[i] != r[j]
  {
    if s == [] then []
    else
      var u := Unique(s[..|s| - 1]);
      var x := s[|s| - 1];
      assert forall y :: y in s <==> y in s[..|s| - 1] || y == x;
      if x in u then u else u + [x]
  }

  /** The position of the first occurrence of `x` in `s`. */
  function FirstIndex(s: seq<YearMonth>, x: YearMonth): (k: nat)
    requires x in s
    ensures k < |s| && s[k] == x
    ensures forall q :: 0 <= q < k ==> s[q] != x
  {
    if s[0] == x then 0 else 1 + FirstIndex(s[1..], x)
  }

  /** Appending an element leaves the first occurrence of an earlier element where it was. */
  lemma FirstIndexPrefix(s: seq<YearMonth>, x: YearMonth, y: YearMonth)
    requires y in s
    ensures FirstIndex(s + [x], y) == FirstIndex(s, y)
  {
    var k, k' := FirstIndex(s + [x], y), FirstIndex(s, y);
    assert (s + [x])[k'] == y;
  }

  /** `Unique` keeps the elements in the order of their first appearance. */
  lemma {:induction false} UniqueOrder(s: seq<YearMonth>)
    ensures forall i, j :: 0 <= i < j < |Unique(s)| ==> FirstIndex(s, Unique(s)[i]) < FirstIndex(s, Unique(s)[j])
  {
    if s != [] {
      var p := s[..|s| - 1];
      var x := s[|s| - 1];
      assert s == p + [x];
      var u := Unique(p);
      UniqueOrder(p);
      forall y | y in p ensures FirstIndex(s, y) == FirstIndex(p, y) {
        FirstIndexPrefix(p, x, y);
      }
      if x !in u {
        assert FirstIndex(s, x) == |s| - 1;
      }
    }
  }

  /** The month of each day, in day order. */
  function MonthsOfDays(days: seq<Date>): (r: seq<YearMonth>)
    ensures |r| == |days|
    ensures forall i :: 0 <= i < |days| ==> r[i] == MonthOf(days[i])
  {
    seq(|days|, i requires 0 <= i < |days| => MonthOf(days[i]))
  }

  /** The months whose summaries are fetched, in fetch order. */
  function MonthsOf(start: Date, end: Date): seq<YearMonth>
    requires IsValid(start)
  {
    Unique(MonthsOfDays(DateRange(start, end)))
  }

  /** Each month index is the previous one or the one after it. */
  ghost predicate Steps(s: seq<YearMonth>) {
    forall i :: 0 <= i < |s| - 1 ==> MonthIndex(s[i + 1]) - MonthIndex(s[i]) in {0, 1}
  }

  /** `r` is the run of consecutive months from `first` on. */
  ghost predicate RunFrom(r: seq<YearMonth>, first: YearMonth) {
    && (forall i :: 0 <= i < |r| ==> IsValidMonth(r[i]))
    && (forall i :: 0 <= i < |r| ==> MonthIndex(r[i]) == MonthIndex(first) + i)
  }

  /** Removing repeats from a walk of month steps leaves the run of months it covers. */
  lemma {:induction false} UniqueOfSteps(s: seq<YearMonth>)
    requires |s| > 0 && Steps(s)
    requires forall i :: 0 <= i < |s| ==> IsValidMonth(s[i])
    ensures RunFrom(Unique(s), s[0])
    ensures |Unique(s)| == MonthIndex(s[|s| - 1]) - MonthIndex(s[0]) + 1
  {
    if |s| > 1 {
      var p := s[..|s| - 1];
      var x := s[|s| - 1];
      assert Steps(p) by {
        forall i | 0 <= i < |p| - 1 ensures MonthIndex(p[i + 1]) - MonthIndex(p[i]) in {0, 1} {
          assert p[i] == s[i] && p[i + 1] == s[i + 1];
        }
      }
      UniqueOfSteps(p);
      var u := Unique(p);
      assert p[0] == s[0];
      assert MonthIndex(x) - MonthIndex(p[|p| - 1]) in {0, 1} by {
        assert p[|p| - 1] == s[|s| - 2];
      }
      if MonthIndex(x) == MonthIndex(p[|p| - 1]) {
        MonthIndexInjective(x, p[|p| - 1]);
        assert x in u by {
          assert p[|p| - 1] in p;
        }
      } else {
        assert x !in u by {
          forall i | 0 <= i < |u| ensures u[i] != x {
            assert MonthIndex(u[i]) < MonthIndex(x);
          }
        }
      }
    }
  }

  /**
   * The months of `[start, end]` are the consecutive months from the month of
   * `start` to the month of `end`, each once and in ascending order; none when
   * `end` comes before `start`.
   */
  lemma MonthsOfRange(start: Date, end: Date)
    requires IsValid(start) && IsValid(end)
    ensures var r := MonthsOf(start, end);
      && (DateLess(end, start) ==> r == [])
      && (!DateLess(end, start) ==>
            && |r| == MonthIndex(MonthOf(end)) - MonthIndex(MonthOf(start)) + 1
            && r[0] == MonthOf(start) && r[|r| - 1] == MonthOf(end)
            && RunFrom(r, MonthOf(start)))
  {
    OrdinalOrder(end, start);
    if !DateLess(end, start) {
      var ms := MonthsOfDays(DateRange(start, end));
      DayMonths(start, end);
      UniqueOfSteps(ms);
      var r := Unique(ms);
      MonthIndexInjective(r[0], MonthOf(start));
      MonthIndexInjective(r[|r| - 1], MonthOf(end));
    }
  }

  /** The months of the days of a nonempty range step from the month of `start` to the month of `end`. */
  lemma DayMonths(start: Date, end: Date)
    requires IsValid(start) && IsValid(end) && !DateLess(end, start)
    ensures var ms := MonthsOfDays(DateRange(start, end));
      && |ms| > 0 && Steps(ms)
      && (forall i :: 0 <= i < |ms| ==> IsValidMonth(ms[i]))
      && ms[0] == MonthOf(start) && ms[|ms| - 1] == MonthOf(end)
  {
    var days := DateRange(start, end);
    OrdinalOrder(end, start);
    DayMonthSteps(start, end, days);
    OrdinalOrder(days[0], start);
    OrdinalOrder(days[|days| - 1], end);
  }

  lemma DayMonthSteps(start: Date, end: Date, days: seq<Date>)
    requires IsValid(start) && days == DateRange(start, end)
    ensures Steps(MonthsOfDays(days))
  {
    var ms := MonthsOfDays(days);
    forall i | 0 <= i < |ms| - 1 ensures MonthIndex(ms[i + 1]) - MonthIndex(ms[i]) in {0, 1} {
      DayMonthStep(start, end, days, i);
    }
  }

  lemma DayMonthStep(start: Date, end: Date, days: seq<Date>, i: int)
    requires IsValid(start) && days == DateRange(start, end) && 0 <= i < |days| - 1
    ensures MonthIndex(MonthOf(days[i + 1])) - MonthIndex(MonthOf(days[i])) in {0, 1}
  {
    DateRangeSteps(start, end, i);
    NextMonth(days[i]);
  }

  /** Every fetched month is the month of some day in the range, each month once. */
  lemma MonthsOfCovers(start: Date, end: Date, ym: YearMonth)
    requires IsValid(start) && IsValid(end)
    ensures ym in MonthsOf(start, end) <==> exists d :: d in DateRange(start, end) && MonthOf(d) == ym
  {
    var days := DateRange(start, end);
    var ms := MonthsOfDays(days);
    if ym in ms {
      var i :| 0 <= i < |ms| && ms[i] == ym;
      assert days[i] in days;
    }
  }

  /** For example, 15 January to 3 March 2024 fetches January, February and March. */
  lemma ThreeMonthsExample(start: Date, end: Date)
    requires start == Date(2024, 1, 15) && end == Date(2024, 3, 3)
    ensures MonthsOf(start, end) == [YearMonth(2024, 1), YearMonth(2024, 2), YearMonth(2024, 3)]
  {
    MonthsOfRange(start, end);
    var r := MonthsOf(start, end);
    assert |r| == 3 && MonthIndex(r[1]) == MonthIndex(YearMonth(2024, 2));
    MonthIndexInjective(r[1], YearMonth(2024, 2));
    assert r == [r[0], r[1], r[2]];
  }
}
