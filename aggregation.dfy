/**
 * The group-by-sum of lines 111-115: expanded rows grouped by
 * `(date, hostnode_id)` with `total_amount` summed. pandas sorts the groups by
 * key, so a monthly table is a list of rows strictly ascending by key.
 */
module Aggregation {
  import opened Wrappers
  import opened Calendar
  import opened Transactions
  import opened Expansion

  datatype GroupKey = GroupKey(date: Date, hostnodeId: string)

  /** A row of a monthly table: index `date`, columns `hostnode_id` and `total_amount`. */
  datatype DailyRow = DailyRow(date: Date, hostnodeId: string, totalAmount: real)

  function KeyOf(a: Allocation): GroupKey {
    GroupKey(a.date, a.hostnodeId)
  }

  function RowKey(r: DailyRow): GroupKey {
    GroupKey(r.date, r.hostnodeId)
  }

  /** Python's `<` on strings: code points compared left to right, a proper prefix first. */
  predicate StrLess(a: string, b: string) {
    if |a| == 0 then |b| > 0
    else |b| > 0 && (a[0] < b[0] || (a[0] == b[0] && StrLess(a[1..], b[1..])))
  }

  lemma {:induction false} StrLessIrreflexive(a: string)
    ensures !StrLess(a, a)
  {
    if |a| > 0 {
      StrLessIrreflexive(a[1..]);
    }
  }

  lemma {:induction false} StrLessTransitive(a: string, b: string, c: string)
    requires StrLess(a, b) && StrLess(b, c)
    ensures StrLess(a, c)
  {
    if |a| > 0 && a[0] == b[0] && b[0] == c[0] {
      StrLessTransitive(a[1..], b[1..], c[1..]);
    }
  }

  lemma {:induction false} StrLessTotal(a: string, b: string)
    requires a != b
    ensures StrLess(a, b) || StrLess(b, a)
  {
    if |a| > 0 && |b| > 0 && a[0] == b[0] {
      assert a == [a[0]] + a[1..] && b == [b[0]] + b[1..];
      StrLessTotal(a[1..], b[1..]);
    }
  }

  /** The order of the group keys: by date, then by hostnode id. */
  predicate KeyLess(a: GroupKey, b: GroupKey) {
    DateLess(a.date, b.date) || (a.date == b.date && StrLess(a.hostnodeId, b.hostnodeId))
  }

  lemma KeyLessIrreflexive(a: GroupKey)
    ensures !KeyLess(a, a)
  {
    StrLessIrreflexive(a.hostnodeId);
  }

  lemma KeyLessTransitive(a: GroupKey, b: GroupKey, c: GroupKey)
    requires KeyLess(a, b) && KeyLess(b, c)
    ensures KeyLess(a, c)
  {
    if a.date == b.date == c.date {
      StrLessTransitive(a.hostnodeId, b.hostnodeId, c.hostnodeId);
    }
  }

  lemma KeyLessTotal(a: GroupKey, b: GroupKey)
    requires a != b
    ensures KeyLess(a, b) || KeyLess(b, a)
  {
    if a.date == b.date {
      StrLessTotal(a.hostnodeId, b.hostnodeId);
    }
  }

  /** Rows in strictly ascending key order, so no key occurs twice. */
  ghost predicate StrictlySorted(t: seq<DailyRow>) {
    forall i, j :: 0 <= i < j < |t| ==> KeyLess(RowKey(t[i]), RowKey(t[j]))
  }

  /** Every row of `t` has a key above `k`. */
  ghost predicate Above(k: GroupKey, t: seq<DailyRow>) {
    forall i :: 0 <= i < |t| ==> KeyLess(k, RowKey(t[i]))
  }

  /** The keys of a table. */
  function Keys(t: seq<DailyRow>): set<GroupKey> {
    if t == [] then {} else {RowKey(t[0])} + Keys(t[1..])
  }

  /** The `(date, hostnode_id)` pairs that occur among expanded rows. */
  function ObservedKeys(rows: seq<Allocation>): set<GroupKey> {
    if rows == [] then {} else {KeyOf(rows[0])} + ObservedKeys(rows[1..])
  }

  /** The sum of the expanded amounts with key `k`. */
  function SumFor(rows: seq<Allocation>, k: GroupKey): real {
    if rows == [] then 0.0
    else (if KeyOf(rows[0]) == k then rows[0].totalAmount else 0.0) + SumFor(rows[1..], k)
  }

  /** The sum of a table's amounts with key `k`. */
  function AmountOf(t: seq<DailyRow>, k: GroupKey): real {
    if t == [] then 0.0
    else (if RowKey(t[0]) == k then t[0].totalAmount else 0.0) + AmountOf(t[1..], k)
  }

  /** Adds one expanded row to a sorted table: into its key's row, or as a new row in key order. */
  function Insert(t: seq<DailyRow>, a: Allocation): seq<DailyRow> {
    if t == [] then [DailyRow(a.date, a.hostnodeId, a.totalAmount)]
    else if RowKey(t[0]) == KeyOf(a) then [t[0].(totalAmount := t[0].totalAmount + a.totalAmount)] + t[1..]
    else if KeyLess(KeyOf(a), RowKey(t[0])) then [DailyRow(a.date, a.hostnodeId, a.totalAmount)] + t
    else [t[0]] + Insert(t[1..], a)
  }

  /**
   * `groupby(['date', 'hostnode_id']).agg({'total_amount': 'sum'}).reset_index()`;
   * the `type` column is dropped by the aggregation.
   */
  function GroupSum(rows: seq<Allocation>): seq<DailyRow> {
    if rows == [] then [] else Insert(GroupSum(rows[1..]), rows[0])
  }

  lemma {:induction false} InsertAbove(k: GroupKey, t: seq<DailyRow>, a: Allocation)
    requires Above(k, t) && KeyLess(k, KeyOf(a))
    ensures Above(k, Insert(t, a))
  {
    if t != [] && RowKey(t[0]) != KeyOf(a) && !KeyLess(KeyOf(a), RowKey(t[0])) {
      InsertAbove(k, t[1..], a);
    }
  }

  lemma SortedCons(x: DailyRow, s: seq<DailyRow>)
    requires Above(RowKey(x), s) && StrictlySorted(s)
    ensures StrictlySorted([x] + s)
  {
    var t := [x] + s;
    forall i, j | 0 <= i < j < |t| ensures KeyLess(RowKey(t[i]), RowKey(t[j])) {
      if i > 0 {
        assert t[i] == s[i - 1] && t[j] == s[j - 1];
      }
    }
  }

  lemma {:induction false} InsertSorted(t: seq<DailyRow>, a: Allocation)
    requires StrictlySorted(t)
    ensures StrictlySorted(Insert(t, a))
  {
    if t == [] {
    } else if RowKey(t[0]) == KeyOf(a) {
      var x := t[0].(totalAmount := t[0].totalAmount + a.totalAmount);
      assert Above(RowKey(x), t[1..]);
      SortedCons(x, t[1..]);
    } else if KeyLess(KeyOf(a), RowKey(t[0])) {
      var x := DailyRow(a.date, a.hostnodeId, a.totalAmount);
      forall i | 0 <= i < |t| ensures KeyLess(RowKey(x), RowKey(t[i])) {
        if i > 0 {
          KeyLessTransitive(RowKey(x), RowKey(t[0]), RowKey(t[i]));
        }
      }
      SortedCons(x, t);
    } else {
      KeyLessTotal(KeyOf(a), RowKey(t[0]));
      assert Above(RowKey(t[0]), t[1..]);
      InsertAbove(RowKey(t[0]), t[1..], a);
      InsertSorted(t[1..], a);
      SortedCons(t[0], Insert(t[1..], a));
    }
  }

  lemma {:induction false} InsertKeys(t: seq<DailyRow>, a: Allocation)
    ensures Keys(Insert(t, a)) == Keys(t) + {KeyOf(a)}
  {
    if t == [] {
      assert Keys([DailyRow(a.date, a.hostnodeId, a.totalAmount)]) == {KeyOf(a)};
    } else if RowKey(t[0]) == KeyOf(a) {
      var r := Insert(t, a);
      assert r[1..] == t[1..];
    } else if KeyLess(KeyOf(a), RowKey(t[0])) {
      var r := Insert(t, a);
      assert r[1..] == t;
    } else {
      var r := Insert(t, a);
      assert r[1..] == Insert(t[1..], a);
      InsertKeys(t[1..], a);
    }
  }

  lemma {:induction false} InsertAmount(t: seq<DailyRow>, a: Allocation, k: GroupKey)
    ensures AmountOf(Insert(t, a), k) == AmountOf(t, k) + (if k == KeyOf(a) then a.totalAmount else 0.0)
  {
    var r := Insert(t, a);
    if t == [] {
      assert r[1..] == [];
    } else if RowKey(t[0]) == KeyOf(a) {
      assert r[1..] == t[1..];
    } else if KeyLess(KeyOf(a), RowKey(t[0])) {
      assert r[1..] == t;
    } else {
      assert r[1..] == Insert(t[1..], a);
      InsertAmount(t[1..], a, k);
    }
  }

  lemma {:induction false} AmountOfAbsent(t: seq<DailyRow>, k: GroupKey)
    requires k !in Keys(t)
    ensures AmountOf(t, k) == 0.0
  {
    if t != [] {
      AmountOfAbsent(t[1..], k);
    }
  }

  lemma {:induction false} KeysIndex(t: seq<DailyRow>, k: GroupKey)
    ensures k in Keys(t) <==> exists i :: 0 <= i < |t| && RowKey(t[i]) == k
  {
    if t != [] {
      KeysIndex(t[1..], k);
      if exists i :: 0 <= i < |t| && RowKey(t[i]) == k {
        var i :| 0 <= i < |t| && RowKey(t[i]) == k;
        if i > 0 {
          assert RowKey(t[1..][i - 1]) == k;
        }
      }
    }
  }

  /** In a sorted table the amount for a row's key is that row's amount. */
  lemma {:induction false} SortedRowAmount(t: seq<DailyRow>, i: int)
    requires StrictlySorted(t) && 0 <= i < |t|
    ensures AmountOf(t, RowKey(t[i])) == t[i].totalAmount
  {
    var k := RowKey(t[i]);
    if i == 0 {
      KeysIndex(t[1..], k);
      if k in Keys(t[1..]) {
        var j :| 0 <= j < |t[1..]| && RowKey(t[1..][j]) == k;
        assert KeyLess(k, RowKey(t[j + 1]));
        KeyLessIrreflexive(k);
      }
      AmountOfAbsent(t[1..], k);
    } else {
      KeyLessIrreflexive(k);
      assert KeyLess(RowKey(t[0]), k);
      assert t[1..][i - 1] == t[i];
      SortedRowAmount(t[1..], i - 1);
    }
  }

  lemma {:induction false} GroupSumFacts(rows: seq<Allocation>)
    ensures StrictlySorted(GroupSum(rows))
    ensures Keys(GroupSum(rows)) == ObservedKeys(rows)
    ensures forall k :: AmountOf(GroupSum(rows), k) == SumFor(rows, k)
  {
    if rows != [] {
      GroupSumFacts(rows[1..]);
      InsertSorted(GroupSum(rows[1..]), rows[0]);
      InsertKeys(GroupSum(rows[1..]), rows[0]);
      forall k ensures AmountOf(GroupSum(rows), k) == SumFor(rows, k) {
        InsertAmount(GroupSum(rows[1..]), rows[0], k);
      }
    }
  }

  /**
   * After grouping, each `(date, hostnode_id)` pair occurs at most once, in key
   * order; exactly the pairs of the expanded rows appear (no zero rows are
   * filled in); and each pair's amount is the sum of that pair's expanded rows.
   */
  lemma GroupSumMeaning(rows: seq<Allocation>)
    ensures var g := GroupSum(rows);
      && StrictlySorted(g)
      && (forall i, j :: 0 <= i < j < |g| ==> RowKey(g[i]) != RowKey(g[j]))
      && Keys(g) == ObservedKeys(rows)
      && (forall i :: 0 <= i < |g| ==> g[i].totalAmount == SumFor(rows, RowKey(g[i])))
  {
    var g := GroupSum(rows);
    GroupSumFacts(rows);
    forall i, j | 0 <= i < j < |g| ensures RowKey(g[i]) != RowKey(g[j]) {
      KeyLessIrreflexive(RowKey(g[i]));
    }
    forall i | 0 <= i < |g| ensures g[i].totalAmount == SumFor(rows, RowKey(g[i])) {
      SortedRowAmount(g, i);
    }
  }

  /** Contributions of 5 and 7 to the same machine on 5 March 2024 become one row of 12. */
  lemma SameDayExample()
    ensures GroupSum([
      Allocation(Date(2024, 3, 5), Storage, 5.0, "h"),
      Allocation(Date(2024, 3, 5), Storage, 7.0, "h")]) == [DailyRow(Date(2024, 3, 5), "h", 12.0)]
  {
  }

  /** The share of `t` that falls on day `d`: an equal part of its total on each day it covers. */
  function DailyShare(t: Transaction, d: Date): real
    requires IsValid(t.billingPeriodStart) && IsValid(t.billingPeriodEnd)
  {
    if Covers(t, d) && SpanDays(t) > 0 then t.totalAmount / (SpanDays(t) as real) else 0.0
  }

  /** What all transactions of machine `k.hostnodeId` put on day `k.date`. */
  function ShareFor(ts: seq<Transaction>, k: GroupKey): real
    requires AllValid(ts)
  {
    if ts == [] then 0.0
    else (if ts[0].hostnodeId == k.hostnodeId then DailyShare(ts[0], k.date) else 0.0) + ShareFor(ts[1..], k)
  }

  /** Whether some transaction of machine `k.hostnodeId` covers day `k.date`. */
  ghost predicate Observed(ts: seq<Transaction>, k: GroupKey) {
    exists i :: 0 <= i < |ts| && ts[i].hostnodeId == k.hostnodeId && Covers(ts[i], k.date)
  }

  lemma {:induction false} SumForSingle(rows: seq<Allocation>, k: GroupKey, j: int)
    requires forall i :: 0 <= i < |rows| ==> (KeyOf(rows[i]) == k <==> i == j)
    ensures SumFor(rows, k) == if 0 <= j < |rows| then rows[j].totalAmount else 0.0
  {
    if rows != [] {
      SumForSingle(rows[1..], k, j - 1);
    }
  }

  lemma {:induction false} SumForConcat(a: seq<Allocation>, b: seq<Allocation>, k: GroupKey)
    ensures SumFor(a + b, k) == SumFor(a, k) + SumFor(b, k)
  {
    if a == [] {
      assert a + b == b;
    } else {
      assert (a + b)[1..] == a[1..] + b && (a + b)[0] == a[0];
      SumForConcat(a[1..], b, k);
    }
  }

  lemma {:induction false} ObservedKeysConcat(a: seq<Allocation>, b: seq<Allocation>)
    ensures ObservedKeys(a + b) == ObservedKeys(a) + ObservedKeys(b)
  {
    if a == [] {
      assert a + b == b;
    } else {
      assert (a + b)[1..] == a[1..] + b && (a + b)[0] == a[0];
      ObservedKeysConcat(a[1..], b);
    }
  }

  lemma {:induction false} ObservedKeysIndex(rows: seq<Allocation>, k: GroupKey)
    ensures k in ObservedKeys(rows) <==> exists i :: 0 <= i < |rows| && KeyOf(rows[i]) == k
  {
    if rows != [] {
      ObservedKeysIndex(rows[1..], k);
      if exists i :: 0 <= i < |rows| && KeyOf(rows[i]) == k {
        var i :| 0 <= i < |rows| && KeyOf(rows[i]) == k;
        if i > 0 {
          assert KeyOf(rows[1..][i - 1]) == k;
        }
      }
    }
  }

  /** The expanded rows of one transaction put its daily share on each day it covers. */
  lemma ExpandShare(t: Transaction, k: GroupKey)
    requires IsValid(t.billingPeriodStart) && IsValid(t.billingPeriodEnd) && IsValid(k.date)
    requires Expand(t).Ok?
    ensures SumFor(Expand(t).value, k) == if t.hostnodeId == k.hostnodeId then DailyShare(t, k.date) else 0.0
    ensures k in ObservedKeys(Expand(t).value) <==> t.hostnodeId == k.hostnodeId && Covers(t, k.date)
  {
    var rows := Expand(t).value;
    var j := if t.hostnodeId == k.hostnodeId then Ordinal(k.date) - Ordinal(t.billingPeriodStart) else -1;
    forall i | 0 <= i < |rows| ensures KeyOf(rows[i]) == k <==> i == j {
      OrdinalOrder(rows[i].date, k.date);
    }
    SumForSingle(rows, k, j);
    OrdinalOrder(k.date, t.billingPeriodStart);
    OrdinalOrder(t.billingPeriodEnd, k.date);
    ObservedKeysIndex(rows, k);
  }

  /**
   * The expanded rows of a transaction list carry, for each machine and valid
   * day, the sum of the daily shares of that machine's transactions covering the
   * day; and a pair occurs exactly when some such transaction covers it.
   */
  lemma {:induction false} ExpandAllShares(ts: seq<Transaction>, k: GroupKey)
    requires AllValid(ts) && ExpandAll(ts).Ok? && IsValid(k.date)
    ensures SumFor(ExpandAll(ts).value, k) == ShareFor(ts, k)
    ensures k in ObservedKeys(ExpandAll(ts).value) <==> Observed(ts, k)
  {
    if ts != [] {
      assert AllValid(ts[1..]) by {
        forall i | 0 <= i < |ts[1..]| ensures IsValid(ts[1..][i].billingPeriodStart) && IsValid(ts[1..][i].billingPeriodEnd) {
          assert ts[1..][i] == ts[i + 1];
        }
      }
      ExpandShare(ts[0], k);
      ExpandAllShares(ts[1..], k);
      SumForConcat(Expand(ts[0]).value, ExpandAll(ts[1..]).value, k);
      ObservedKeysConcat(Expand(ts[0]).value, ExpandAll(ts[1..]).value);
      if Observed(ts[1..], k) {
        var i :| 0 <= i < |ts[1..]| && ts[1..][i].hostnodeId == k.hostnodeId && Covers(ts[1..][i], k.date);
        assert ts[i + 1] == ts[1..][i];
      }
      if Observed(ts, k) && !(ts[0].hostnodeId == k.hostnodeId && Covers(ts[0], k.date)) {
        var i :| 0 <= i < |ts| && ts[i].hostnodeId == k.hostnodeId && Covers(ts[i], k.date);
        assert i > 0 && ts[1..][i - 1] == ts[i];
      }
    }
  }

  /** The sum of a table's `total_amount` column. */
  function TableTotal(t: seq<DailyRow>): real {
    if t == [] then 0.0 else t[0].totalAmount + TableTotal(t[1..])
  }

  lemma {:induction false} InsertTotal(t: seq<DailyRow>, a: Allocation)
    ensures TableTotal(Insert(t, a)) == TableTotal(t) + a.totalAmount
  {
    var r := Insert(t, a);
    if t == [] {
      assert r[1..] == [];
    } else if RowKey(t[0]) == KeyOf(a) {
      assert r[1..] == t[1..];
    } else if KeyLess(KeyOf(a), RowKey(t[0])) {
      assert r[1..] == t;
    } else {
      assert r[1..] == Insert(t[1..], a);
      InsertTotal(t[1..], a);
    }
  }

  /** Grouping neither creates nor loses money. */
  lemma {:induction false} GroupSumTotal(rows: seq<Allocation>)
    ensures TableTotal(GroupSum(rows)) == Total(rows)
  {
    if rows != [] {
      GroupSumTotal(rows[1..]);
      InsertTotal(GroupSum(rows[1..]), rows[0]);
    }
  }
}
