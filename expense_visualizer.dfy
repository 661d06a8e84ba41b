/**
 * The monthly bucketing behind the expense charts: each category's
 * transactions are added up per calendar month into an expense table or,
 * for Income, an earnings table; InternalTransfers is skipped. The chart of
 * monthly totals then adds the tables up across categories.
 *
 * Tables are insertion-ordered dictionaries (`Dicts.Dict`) keyed by category
 * name and then by month; amounts are integer cents.
 */
module Visualizer {
  import opened Ordering
  import opened Transactions
  import opened Dicts
  import opened Categories

  /** The month key `date.strftime("%Y-%m")`: one key per calendar month. */
  datatype Month = Month(year: int, month: int)

  function MonthOf(d: Date): Month
  {
    Month(d.year, d.month)
  }

  /** The order `sorted` puts month keys in: by year, then by month. */
  function MonthLess(a: Month, b: Month): bool
  {
    a.year < b.year || (a.year == b.year && a.month < b.month)
  }

  type MonthlyData = Dict<string, Dict<Month, int>>

  /** `data[name][month] += amount` on the nested `defaultdict`s. */
  function AddAmount(data: MonthlyData, name: string, month: Month, amount: int): MonthlyData
  {
    Upsert(data, name, (inner: Dict<Month, int>) => Add(inner, month, amount), [])
  }

  /** `data[name][month]`, reading 0 where there is no entry. */
  function Entry(data: MonthlyData, name: string, month: Month): int
  {
    Find(Find(data, name, []), month, 0)
  }

  /** Both levels keep distinct keys, as Python dictionaries do. */
  predicate WellFormed(data: MonthlyData)
  {
    DistinctKeys(data) && forall i :: 0 <= i < |data| ==> DistinctKeys(data[i].1)
  }

  /** Categories whose amounts go to the expense table. */
  predicate IsExpenseName(name: string)
  {
    name != InternalTransfersName && name != IncomeName
  }

  /** The two tables and the count of skipped transactions. */
  datatype Tallies = Tallies(expense: MonthlyData, earnings: MonthlyData, skipped: nat)

  /** What the inner loop does with one transaction of the category `name`. */
  function Tally(acc: Tallies, name: string, t: Transaction): Tallies
  {
    if name == InternalTransfersName then acc.(skipped := acc.skipped + 1)
    else if name == IncomeName then acc.(earnings := AddAmount(acc.earnings, name, MonthOf(t.date), t.amount))
    else acc.(expense := AddAmount(acc.expense, name, MonthOf(t.date), t.amount))
  }

  /** The inner loop over one category's transactions. */
  function TallyAll(acc: Tallies, name: string, txs: seq<Transaction>): Tallies
  {
    if txs == [] then acc else Tally(TallyAll(acc, name, txs[..|txs| - 1]), name, txs[|txs| - 1])
  }

  /** The outer loop over (name, transactions) pairs, one per category. */
  function TallyGroups(acc: Tallies, groups: seq<(string, seq<Transaction>)>): Tallies
  {
    if groups == [] then acc
    else
      var last := groups[|groups| - 1];
      TallyAll(TallyGroups(acc, groups[..|groups| - 1]), last.0, last.1)
  }

  /* ---------- the specification the tables are proved against ---------- */

  /** The amounts of `txs` dated in `month`, added up. */
  function MonthSum(txs: seq<Transaction>, month: Month): int
  {
    if txs == [] then 0
    else
      var t := txs[|txs| - 1];
      MonthSum(txs[..|txs| - 1], month) + (if MonthOf(t.date) == month then t.amount else 0)
  }

  /** The amounts dated in `month` over every group named `name`. */
  function GroupMonthSum(groups: seq<(string, seq<Transaction>)>, name: string, month: Month): int
  {
    if groups == [] then 0
    else
      var last := groups[|groups| - 1];
      GroupMonthSum(groups[..|groups| - 1], name, month) + (if last.0 == name then MonthSum(last.1, month) else 0)
  }

  /** All amounts over every group named `name`. */
  function GroupSum(groups: seq<(string, seq<Transaction>)>, name: string): int
  {
    if groups == [] then 0
    else
      var last := groups[|groups| - 1];
      GroupSum(groups[..|groups| - 1], name) + (if last.0 == name then Sum(last.1) else 0)
  }

  /** The amounts dated in `month` over every group that goes to the expense table. */
  function ExpenseMonthSum(groups: seq<(string, seq<Transaction>)>, month: Month): int
  {
    if groups == [] then 0
    else
      var last := groups[|groups| - 1];
      ExpenseMonthSum(groups[..|groups| - 1], month) + (if IsExpenseName(last.0) then MonthSum(last.1, month) else 0)
  }

  /** The number of transactions over every group named `name`. */
  function GroupCount(groups: seq<(string, seq<Transaction>)>, name: string): nat
  {
    if groups == [] then 0
    else
      var last := groups[|groups| - 1];
      GroupCount(groups[..|groups| - 1], name) + (if last.0 == name then |last.1| else 0)
  }

  /** The sum of the amounts, added from the front as the loop adds them. */
  function SumBack(txs: seq<Transaction>): int
  {
    if txs == [] then 0 else SumBack(txs[..|txs| - 1]) + txs[|txs| - 1].amount
  }

  lemma {:induction false} SumBackIsSum(txs: seq<Transaction>)
    ensures SumBack(txs) == Sum(txs)
  {
    if txs != [] {
      SumBackIsSum(txs[..|txs| - 1]);
      SumAppend(txs[..|txs| - 1], txs[|txs| - 1]);
      assert txs[..|txs| - 1] + [txs[|txs| - 1]] == txs;
    }
  }

  /* ---------- one update ---------- */

  /** One addition changes exactly one entry, by exactly the amount. */
  lemma EntryAdd(data: MonthlyData, name: string, month: Month, amount: int, n: string, m: Month)
    ensures Entry(AddAmount(data, name, month, amount), n, m) ==
      Entry(data, n, m) + (if n == name && m == month then amount else 0)
  {
    var f := (inner: Dict<Month, int>) => Add(inner, month, amount);
    FindUpsert(data, name, f, [], n);
    FindUpsert(Find(data, name, []), month, x => x + amount, 0, m);
  }

  /** One addition grows one category's row total by exactly the amount. */
  lemma RowTotalAdd(data: MonthlyData, name: string, month: Month, amount: int, n: string)
    ensures Total(Find(AddAmount(data, name, month, amount), n, [])) ==
      Total(Find(data, n, [])) + (if n == name then amount else 0)
  {
    var f := (inner: Dict<Month, int>) => Add(inner, month, amount);
    FindUpsert(data, name, f, [], n);
    TotalAdd(Find(data, name, []), month, amount);
  }

  /** One addition adds at most its own category name to the keys. */
  lemma KeysAdd(data: MonthlyData, name: string, month: Month, amount: int)
    ensures forall n :: n in Keys(AddAmount(data, name, month, amount)) <==> n in Keys(data) || n == name
  {
    var f := (inner: Dict<Month, int>) => Add(inner, month, amount);
    KeysUpsert(data, name, f, []);
  }

  /** One addition keeps both levels' keys distinct. */
  lemma WellFormedAdd(data: MonthlyData, name: string, month: Month, amount: int)
    requires WellFormed(data)
    ensures WellFormed(AddAmount(data, name, month, amount))
  {
    var f := (inner: Dict<Month, int>) => Add(inner, month, amount);
    DistinctUpsert(data, name, f, []);
    var r := AddAmount(data, name, month, amount);
    forall i | 0 <= i < |r| ensures DistinctKeys(r[i].1) {
      InnerOfUpsert(data, name, f, i);
      if r[i].1 == f(Find(data, name, [])) {
        DistinctOfFind(data, name);
        DistinctUpsert(Find(data, name, []), month, x => x + amount, 0);
      }
    }
  }

  /** An entry of an updated table is an old entry or the updated one. */
  lemma {:induction false} InnerOfUpsert(data: MonthlyData, name: string, f: Dict<Month, int> -> Dict<Month, int>, i: nat)
    requires i < |Upsert(data, name, f, [])|
    ensures (i < |data| && Upsert(data, name, f, [])[i] == data[i]) ||
            Upsert(data, name, f, [])[i].1 == f(Find(data, name, []))
  {
    if data != [] && data[0].0 != name && i > 0 {
      InnerOfUpsert(data[1..], name, f, i - 1);
    }
  }

  lemma {:induction false} DistinctOfFind(data: MonthlyData, name: string)
    requires forall i :: 0 <= i < |data| ==> DistinctKeys(data[i].1)
    ensures DistinctKeys(Find(data, name, []))
  {
    if data != [] && data[0].0 != name {
      DistinctOfFind(data[1..], name);
    }
  }

  /* ---------- the two loops of `_compute_monthly_totals` ---------- */

  const NoTallies := Tallies([], [], 0)

  /**
   * One category's transactions add, to the entry for its own name and each
   * month, the amounts of that month: to the expense table unless it is
   * Income or InternalTransfers, to the earnings table if it is Income.
   */
  lemma {:induction false} TallyAllEntry(acc: Tallies, name: string, txs: seq<Transaction>, n: string, m: Month)
    ensures Entry(TallyAll(acc, name, txs).expense, n, m) ==
      Entry(acc.expense, n, m) + (if n == name && IsExpenseName(name) then MonthSum(txs, m) else 0)
    ensures Entry(TallyAll(acc, name, txs).earnings, n, m) ==
      Entry(acc.earnings, n, m) + (if n == name && name == IncomeName then MonthSum(txs, m) else 0)
  {
    if txs != [] {
      var t := txs[|txs| - 1];
      var prev := TallyAll(acc, name, txs[..|txs| - 1]);
      TallyAllEntry(acc, name, txs[..|txs| - 1], n, m);
      EntryAdd(prev.expense, name, MonthOf(t.date), t.amount, n, m);
      EntryAdd(prev.earnings, name, MonthOf(t.date), t.amount, n, m);
    }
  }

  /** Each `[name][month]` entry is the sum of that name's amounts in that month. */
  lemma {:induction false} TallyGroupsEntry(acc: Tallies, groups: seq<(string, seq<Transaction>)>, n: string, m: Month)
    ensures Entry(TallyGroups(acc, groups).expense, n, m) ==
      Entry(acc.expense, n, m) + (if IsExpenseName(n) then GroupMonthSum(groups, n, m) else 0)
    ensures Entry(TallyGroups(acc, groups).earnings, n, m) ==
      Entry(acc.earnings, n, m) + (if n == IncomeName then GroupMonthSum(groups, n, m) else 0)
  {
    if groups != [] {
      var last := groups[|groups| - 1];
      TallyGroupsEntry(acc, groups[..|groups| - 1], n, m);
      TallyAllEntry(TallyGroups(acc, groups[..|groups| - 1]), last.0, last.1, n, m);
    }
  }

  /** One category's transactions grow its own row total by their sum. */
  lemma {:induction false} TallyAllRowTotal(acc: Tallies, name: string, txs: seq<Transaction>, n: string)
    ensures Total(Find(TallyAll(acc, name, txs).expense, n, [])) ==
      Total(Find(acc.expense, n, [])) + (if n == name && IsExpenseName(name) then SumBack(txs) else 0)
    ensures Total(Find(TallyAll(acc, name, txs).earnings, n, [])) ==
      Total(Find(acc.earnings, n, [])) + (if n == name && name == IncomeName then SumBack(txs) else 0)
  {
    if txs != [] {
      var t := txs[|txs| - 1];
      var prev := TallyAll(acc, name, txs[..|txs| - 1]);
      TallyAllRowTotal(acc, name, txs[..|txs| - 1], n);
      RowTotalAdd(prev.expense, name, MonthOf(t.date), t.amount, n);
      RowTotalAdd(prev.earnings, name, MonthOf(t.date), t.amount, n);
    }
  }

  /** Summing a category's entries over all its months gives its total. */
  lemma {:induction false} TallyGroupsRowTotal(acc: Tallies, groups: seq<(string, seq<Transaction>)>, n: string)
    ensures Total(Find(TallyGroups(acc, groups).expense, n, [])) ==
      Total(Find(acc.expense, n, [])) + (if IsExpenseName(n) then GroupSum(groups, n) else 0)
    ensures Total(Find(TallyGroups(acc, groups).earnings, n, [])) ==
      Total(Find(acc.earnings, n, [])) + (if n == IncomeName then GroupSum(groups, n) else 0)
  {
    if groups != [] {
      var last := groups[|groups| - 1];
      TallyGroupsRowTotal(acc, groups[..|groups| - 1], n);
      TallyAllRowTotal(TallyGroups(acc, groups[..|groups| - 1]), last.0, last.1, n);
      SumBackIsSum(last.1);
    }
  }

  /** `skipped` counts InternalTransfers transactions, not categories. */
  lemma {:induction false} TallyAllSkipped(acc: Tallies, name: string, txs: seq<Transaction>)
    ensures TallyAll(acc, name, txs).skipped == acc.skipped + (if name == InternalTransfersName then |txs| else 0)
  {
    if txs != [] {
      TallyAllSkipped(acc, name, txs[..|txs| - 1]);
    }
  }

  lemma {:induction false} TallyGroupsSkipped(acc: Tallies, groups: seq<(string, seq<Transaction>)>)
    ensures TallyGroups(acc, groups).skipped == acc.skipped + GroupCount(groups, InternalTransfersName)
  {
    if groups != [] {
      var last := groups[|groups| - 1];
      TallyGroupsSkipped(acc, groups[..|groups| - 1]);
      TallyAllSkipped(TallyGroups(acc, groups[..|groups| - 1]), last.0, last.1);
    }
  }

  /** A name gets a row exactly when one of its transactions is added. */
  lemma {:induction false} TallyAllKeys(acc: Tallies, name: string, txs: seq<Transaction>, n: string)
    ensures n in Keys(TallyAll(acc, name, txs).expense) <==>
      n in Keys(acc.expense) || (n == name && IsExpenseName(name) && txs != [])
    ensures n in Keys(TallyAll(acc, name, txs).earnings) <==>
      n in Keys(acc.earnings) || (n == name && name == IncomeName && txs != [])
  {
    if txs != [] {
      var t := txs[|txs| - 1];
      var prev := TallyAll(acc, name, txs[..|txs| - 1]);
      TallyAllKeys(acc, name, txs[..|txs| - 1], n);
      KeysAdd(prev.expense, name, MonthOf(t.date), t.amount);
      KeysAdd(prev.earnings, name, MonthOf(t.date), t.amount);
    }
  }

  /**
   * The expense table has a row exactly for the names other than Income and
   * InternalTransfers that have transactions; the earnings table at most one
   * row, for Income.
   */
  lemma {:induction false} TallyGroupsKeys(acc: Tallies, groups: seq<(string, seq<Transaction>)>, n: string)
    ensures n in Keys(TallyGroups(acc, groups).expense) <==>
      n in Keys(acc.expense) || (IsExpenseName(n) && GroupCount(groups, n) > 0)
    ensures n in Keys(TallyGroups(acc, groups).earnings) <==>
      n in Keys(acc.earnings) || (n == IncomeName && GroupCount(groups, n) > 0)
  {
    if groups != [] {
      var last := groups[|groups| - 1];
      TallyGroupsKeys(acc, groups[..|groups| - 1], n);
      TallyAllKeys(TallyGroups(acc, groups[..|groups| - 1]), last.0, last.1, n);
    }
  }

  lemma {:induction false} TallyAllWellFormed(acc: Tallies, name: string, txs: seq<Transaction>)
    requires WellFormed(acc.expense) && WellFormed(acc.earnings)
    ensures WellFormed(TallyAll(acc, name, txs).expense) && WellFormed(TallyAll(acc, name, txs).earnings)
  {
    if txs != [] {
      var t := txs[|txs| - 1];
      var prev := TallyAll(acc, name, txs[..|txs| - 1]);
      TallyAllWellFormed(acc, name, txs[..|txs| - 1]);
      WellFormedAdd(prev.expense, name, MonthOf(t.date), t.amount);
      WellFormedAdd(prev.earnings, name, MonthOf(t.date), t.amount);
    }
  }

  /** The tables never hold a name or, within a name, a month twice. */
  lemma {:induction false} TallyGroupsWellFormed(acc: Tallies, groups: seq<(string, seq<Transaction>)>)
    requires WellFormed(acc.expense) && WellFormed(acc.earnings)
    ensures WellFormed(TallyGroups(acc, groups).expense) && WellFormed(TallyGroups(acc, groups).earnings)
  {
    if groups != [] {
      var last := groups[|groups| - 1];
      TallyGroupsWellFormed(acc, groups[..|groups| - 1]);
      TallyAllWellFormed(TallyGroups(acc, groups[..|groups| - 1]), last.0, last.1);
    }
  }

  /* ---------- the per-month totals of `plot_monthly_totals` ---------- */

  /** The inner loop: `total[month] += amount` for every entry of one row. */
  function AddRow(total: Dict<Month, int>, row: Dict<Month, int>): Dict<Month, int>
    decreases |row|
  {
    if row == [] then total else AddRow(Add(total, row[0].0, row[0].1), row[1..])
  }

  /** The outer loop over the rows of a table. */
  function CrossTotals(total: Dict<Month, int>, data: MonthlyData): Dict<Month, int>
    decreases |data|
  {
    if data == [] then total else CrossTotals(AddRow(total, data[0].1), data[1..])
  }

  /** The amounts a row holds under `month`. */
  function RowSum(row: Dict<Month, int>, month: Month): int
  {
    if row == [] then 0 else (if row[0].0 == month then row[0].1 else 0) + RowSum(row[1..], month)
  }

  /** The amounts a table holds under `month`, over all its rows. */
  function ColumnSum(data: MonthlyData, month: Month): int
  {
    if data == [] then 0 else RowSum(data[0].1, month) + ColumnSum(data[1..], month)
  }

  /** The months a table holds, over all its rows. */
  function MonthsOf(data: MonthlyData): set<Month>
  {
    if data == [] then {} else (set m | m in Keys(data[0].1)) + MonthsOf(data[1..])
  }

  lemma {:induction false} AddRowFind(total: Dict<Month, int>, row: Dict<Month, int>, m: Month)
    ensures Find(AddRow(total, row), m, 0) == Find(total, m, 0) + RowSum(row, m)
    ensures m in Keys(AddRow(total, row)) <==> m in Keys(total) || m in Keys(row)
    decreases |row|
  {
    if row != [] {
      AddRowFind(Add(total, row[0].0, row[0].1), row[1..], m);
      FindUpsert(total, row[0].0, x => x + row[0].1, 0, m);
      KeysUpsert(total, row[0].0, x => x + row[0].1, 0);
      assert Keys(row) == [row[0].0] + Keys(row[1..]);
    }
  }

  /**
   * Each month's total is what every row holds under that month, added up,
   * and the months with a total are the months of some row.
   */
  lemma {:induction false} CrossTotalsFind(total: Dict<Month, int>, data: MonthlyData, m: Month)
    ensures Find(CrossTotals(total, data), m, 0) == Find(total, m, 0) + ColumnSum(data, m)
    ensures m in Keys(CrossTotals(total, data)) <==> m in Keys(total) || m in MonthsOf(data)
    decreases |data|
  {
    if data != [] {
      AddRowFind(total, data[0].1, m);
      CrossTotalsFind(AddRow(total, data[0].1), data[1..], m);
    }
  }

  /** In a row with distinct months, the amounts under a month are its one entry. */
  lemma {:induction false} RowSumFind(row: Dict<Month, int>, m: Month)
    requires DistinctKeys(row)
    ensures RowSum(row, m) == Find(row, m, 0)
  {
    if row != [] {
      assert DistinctKeys(row[1..]) by {
        forall i, j | 0 <= i < j < |row[1..]| ensures row[1..][i].0 != row[1..][j].0 {
          assert row[1..][i] == row[i + 1] && row[1..][j] == row[j + 1];
        }
      }
      RowSumFind(row[1..], m);
      if row[0].0 == m {
        assert m !in Keys(row[1..]) by {
          forall i | 0 <= i < |row[1..]| ensures Keys(row[1..])[i] != m {
            assert row[1..][i] == row[i + 1];
          }
        }
        FindAbsent(row[1..], m, 0);
      }
    }
  }

  /** What one `[name][month] += amount` adds to a month's column. */
  lemma {:induction false} ColumnSumAdd(data: MonthlyData, name: string, month: Month, amount: int, m: Month)
    requires WellFormed(data)
    ensures ColumnSum(AddAmount(data, name, month, amount), m) == ColumnSum(data, m) + (if m == month then amount else 0)
  {
    var f := (inner: Dict<Month, int>) => Add(inner, month, amount);
    if data == [] {
      var row := Add([], month, amount);
      assert row == [(month, amount)];
      assert RowSum(row, m) == (if m == month then amount else 0) by {
        assert row[1..] == [];
      }
      assert AddAmount(data, name, month, amount) == [(name, row)];
      assert [(name, row)][1..] == [];
    } else {
      var r := AddAmount(data, name, month, amount);
      if data[0].0 == name {
        assert r == [(name, f(data[0].1))] + data[1..];
        RowSumFind(data[0].1, m);
        DistinctUpsert(data[0].1, month, x => x + amount, 0);
        RowSumFind(f(data[0].1), m);
        FindUpsert(data[0].1, month, x => x + amount, 0, m);
      } else {
        assert r == [data[0]] + AddAmount(data[1..], name, month, amount);
        assert WellFormed(data[1..]) by {
          forall i, j | 0 <= i < j < |data[1..]| ensures data[1..][i].0 != data[1..][j].0 {
            assert data[1..][i] == data[i + 1] && data[1..][j] == data[j + 1];
          }
          forall i | 0 <= i < |data[1..]| ensures DistinctKeys(data[1..][i].1) {
            assert data[1..][i] == data[i + 1];
          }
        }
        ColumnSumAdd(data[1..], name, month, amount, m);
      }
    }
  }

  lemma {:induction false} TallyAllColumn(acc: Tallies, name: string, txs: seq<Transaction>, m: Month)
    requires WellFormed(acc.expense) && WellFormed(acc.earnings)
    ensures ColumnSum(TallyAll(acc, name, txs).expense, m) ==
      ColumnSum(acc.expense, m) + (if IsExpenseName(name) then MonthSum(txs, m) else 0)
    ensures ColumnSum(TallyAll(acc, name, txs).earnings, m) ==
      ColumnSum(acc.earnings, m) + (if name == IncomeName then MonthSum(txs, m) else 0)
  {
    if txs != [] {
      var t := txs[|txs| - 1];
      var prev := TallyAll(acc, name, txs[..|txs| - 1]);
      TallyAllColumn(acc, name, txs[..|txs| - 1], m);
      TallyAllWellFormed(acc, name, txs[..|txs| - 1]);
      ColumnSumAdd(prev.expense, name, MonthOf(t.date), t.amount, m);
      ColumnSumAdd(prev.earnings, name, MonthOf(t.date), t.amount, m);
    }
  }

  lemma {:induction false} TallyGroupsColumn(acc: Tallies, groups: seq<(string, seq<Transaction>)>, m: Month)
    requires WellFormed(acc.expense) && WellFormed(acc.earnings)
    ensures ColumnSum(TallyGroups(acc, groups).expense, m) == ColumnSum(acc.expense, m) + ExpenseMonthSum(groups, m)
    ensures ColumnSum(TallyGroups(acc, groups).earnings, m) ==
      ColumnSum(acc.earnings, m) + GroupMonthSum(groups, IncomeName, m)
  {
    if groups != [] {
      var last := groups[|groups| - 1];
      TallyGroupsColumn(acc, groups[..|groups| - 1], m);
      TallyGroupsWellFormed(acc, groups[..|groups| - 1]);
      TallyAllColumn(TallyGroups(acc, groups[..|groups| - 1]), last.0, last.1, m);
    }
  }

  /**
   * From transactions to chart: a month's expense total is the month's
   * amounts over every category other than Income and InternalTransfers, and
   * its earnings total the month's amounts over Income.
   */
  lemma MonthlyTotalsMeaning(groups: seq<(string, seq<Transaction>)>, m: Month)
    ensures Find(CrossTotals([], TallyGroups(NoTallies, groups).expense), m, 0) == ExpenseMonthSum(groups, m)
    ensures Find(CrossTotals([], TallyGroups(NoTallies, groups).earnings), m, 0) == GroupMonthSum(groups, IncomeName, m)
  {
    TallyGroupsColumn(NoTallies, groups, m);
    CrossTotalsFind([], TallyGroups(NoTallies, groups).expense, m);
    CrossTotalsFind([], TallyGroups(NoTallies, groups).earnings, m);
  }

  /** `sorted(set(months))`: each month once, in increasing order. */
  function SortedMonths(months: seq<Month>): seq<Month>
  {
    if months == [] then []
    else
      var r := SortedMonths(months[..|months| - 1]);
      var m := months[|months| - 1];
      if m in r then r else Insert(m, r, MonthLess)
  }

  lemma MonthLessStrictTotal()
    ensures StrictTotal(MonthLess)
  {
  }

  /** The month list holds exactly the given months, each once, in increasing order. */
  lemma {:induction false} SortedMonthsMeaning(months: seq<Month>)
    ensures StrictlySorted(SortedMonths(months), MonthLess)
    ensures forall m :: m in SortedMonths(months) <==> m in months
  {
    if months != [] {
      var init := months[..|months| - 1];
      var m := months[|months| - 1];
      SortedMonthsMeaning(init);
      assert months == init + [m];
      if m !in SortedMonths(init) {
        MonthLessStrictTotal();
        InsertStrictlySorted(m, SortedMonths(init), MonthLess);
      }
    }
  }

  /** The outer loop's step: one more category tallied on top of the earlier ones. */
  lemma TallyGroupsNext(acc: Tallies, groups: seq<(string, seq<Transaction>)>, i: nat)
    requires i < |groups|
    ensures TallyGroups(acc, groups[..i + 1]) == TallyAll(TallyGroups(acc, groups[..i]), groups[i].0, groups[i].1)
  {
    assert groups[..i + 1][..i] == groups[..i];
  }

  /* ---------- the visualiser object ---------- */

  /** The ghost snapshot of each category's transaction list. */
  ghost function Lists(cats: seq<Category>): (ls: seq<seq<Transaction>>)
    reads cats
    ensures |ls| == |cats| && forall k :: 0 <= k < |cats| ==> ls[k] == cats[k].transactions
  {
    if cats == [] then [] else Lists(cats[..|cats| - 1]) + [cats[|cats| - 1].transactions]
  }

  /** Each category's name with its list as `get_transactions` returns it: sorted. */
  function SortedGroups(cats: seq<Category>, lists: seq<seq<Transaction>>): seq<(string, seq<Transaction>)>
    requires |lists| == |cats|
  {
    seq(|cats|, k requires 0 <= k < |cats| => (cats[k].name, SortTxs(lists[k])))
  }

  class ExpenseVisualizer {
    const categories: seq<Category>
    var expenseMonthly: MonthlyData
    var earningsMonthly: MonthlyData

    /**
     * Builds the two tables from every category's transactions, sorting each
     * category's list in place on the way.
     */
    constructor(categories: seq<Category>)
      modifies categories
      ensures this.categories == categories
      ensures var t := TallyGroups(NoTallies, SortedGroups(categories, old(Lists(categories))));
        expenseMonthly == t.expense && earningsMonthly == t.earnings
      ensures forall k :: 0 <= k < |categories| ==>
        categories[k].transactions == SortTxs(old(categories[k].transactions)) &&
        categories[k].total == old(categories[k].total)
    {
      this.categories := categories;
      expenseMonthly := [];
      earningsMonthly := [];
      new;
      var _ := ComputeMonthlyTotals();
    }

    /**
     * `_compute_monthly_totals`: the tables grow by the tallies of every
     * category's sorted transactions, in category order; the result is the
     * number of skipped InternalTransfers transactions.
     */
    method ComputeMonthlyTotals() returns (skipped: nat)
      modifies this, categories
      ensures var t := TallyGroups(Tallies(old(expenseMonthly), old(earningsMonthly), 0),
                                   SortedGroups(categories, old(Lists(categories))));
        expenseMonthly == t.expense && earningsMonthly == t.earnings && skipped == t.skipped
      ensures forall k :: 0 <= k < |categories| ==>
        categories[k].transactions == SortTxs(old(categories[k].transactions)) &&
        categories[k].total == old(categories[k].total)
    {
      ghost var start := Lists(categories);
      ghost var groups := SortedGroups(categories, start);
      ghost var acc0 := Tallies(expenseMonthly, earningsMonthly, 0);
      skipped := 0;
      var i := 0;
      while i < |categories|
        invariant 0 <= i <= |categories|
        invariant forall k :: 0 <= k < |categories| ==>
          categories[k].transactions == start[k] || categories[k].transactions == SortTxs(start[k])
        invariant forall k :: 0 <= k < i ==> categories[k].transactions == SortTxs(start[k])
        invariant forall k :: 0 <= k < |categories| ==> categories[k].total == old(categories[k].total)
        invariant Tallies(expenseMonthly, earningsMonthly, skipped) == TallyGroups(acc0, groups[..i])
      {
        var category := categories[i];
        var name := category.GetName();
        SortTxsFacts(start[i]);
        var txs := category.GetTransactions();
        assert txs == groups[i].1 && name == groups[i].0;
        forall k | 0 <= k < |categories|
          ensures categories[k].transactions == start[k] || categories[k].transactions == SortTxs(start[k])
          ensures k <= i ==> categories[k].transactions == SortTxs(start[k])
          ensures categories[k].total == old(categories[k].total)
        {
          if categories[k] == category {
            assert start[k] == start[i];
          }
        }
        skipped := TallyCategory(name, txs, skipped);
        TallyGroupsNext(acc0, groups, i);
        i := i + 1;
      }
      assert groups[..i] == groups;
    }

    /**
     * The inner loop of `_compute_monthly_totals` over one category's
     * transactions: the tables and the skipped count grow by the tallies of
     * `txs`, taken in order.
     */
    method TallyCategory(name: string, txs: seq<Transaction>, skipped0: nat) returns (skipped: nat)
      modifies this
      ensures Tallies(expenseMonthly, earningsMonthly, skipped) ==
        TallyAll(Tallies(old(expenseMonthly), old(earningsMonthly), skipped0), name, txs)
    {
      ghost var base := Tallies(expenseMonthly, earningsMonthly, skipped0);
      skipped := skipped0;
      var j := 0;
      while j < |txs|
        invariant 0 <= j <= |txs|
        invariant Tallies(expenseMonthly, earningsMonthly, skipped) == TallyAll(base, name, txs[..j])
      {
        var t := txs[j];
        var month := MonthOf(t.date);
        if name == InternalTransfersName {
          skipped := skipped + 1;
        } else if name == IncomeName {
          earningsMonthly := AddAmount(earningsMonthly, name, month, t.amount);
        } else {
          expenseMonthly := AddAmount(expenseMonthly, name, month, t.amount);
        }
        assert txs[..j + 1][..j] == txs[..j];
        j := j + 1;
      }
      assert txs[..j] == txs;
    }

    /**
     * The per-month summation of `plot_monthly_totals`: each table's amounts
     * added up across categories per month, and the sorted list of the
     * months either total has.
     */
    method MonthlyTotals() returns (months: seq<Month>, totalExpenses: Dict<Month, int>, totalEarnings: Dict<Month, int>)
      ensures totalExpenses == CrossTotals([], expenseMonthly)
      ensures totalEarnings == CrossTotals([], earningsMonthly)
      ensures StrictlySorted(months, MonthLess)
      ensures forall m :: m in months <==> m in MonthsOf(expenseMonthly) || m in MonthsOf(earningsMonthly)
    {
      totalExpenses := SumByMonth(expenseMonthly);
      totalEarnings := SumByMonth(earningsMonthly);
      months := SortedMonths(Keys(totalExpenses) + Keys(totalEarnings));
      SortedMonthsMeaning(Keys(totalExpenses) + Keys(totalEarnings));
      forall m ensures m in months <==> m in MonthsOf(expenseMonthly) || m in MonthsOf(earningsMonthly) {
        CrossTotalsFind([], expenseMonthly, m);
        CrossTotalsFind([], earningsMonthly, m);
      }
    }
  }

  /** The two nested loops adding a table's amounts up per month. */
  method SumByMonth(data: MonthlyData) returns (total: Dict<Month, int>)
    ensures total == CrossTotals([], data)
  {
    total := [];
    var i := 0;
    while i < |data|
      invariant 0 <= i <= |data|
      invariant CrossTotals(total, data[i..]) == CrossTotals([], data)
    {
      var row := data[i].1;
      var j := 0;
      while j < |row|
        invariant 0 <= j <= |row|
        invariant CrossTotals(AddRow(total, row[j..]), data[i + 1..]) == CrossTotals([], data)
      {
        total := Add(total, row[j].0, row[j].1);
        j := j + 1;
      }
      i := i + 1;
    }
  }
}
