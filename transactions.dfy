/**
 * The normalised transaction record and what the rest of the model needs
 * of it: calendar dates, the tuple order `list.sort()` uses, and the sum
 * of amounts that a category keeps as its running total.
 *
 * Amounts and balances are integer cents.
 */
module Transactions {
  import opened Ordering
  import opened Strings

  /** A `datetime.date`. */
  datatype Date = Date(year: int, month: int, day: int)

  predicate IsLeapYear(y: int)
  {
    y % 4 == 0 && (y % 100 != 0 || y % 400 == 0)
  }

  function DaysInMonth(y: int, m: int): int
  {
    if m == 2 then (if IsLeapYear(y) then 29 else 28)
    else if m == 4 || m == 6 || m == 9 || m == 11 then 30
    else 31
  }

  /** The dates `datetime.date` can hold. */
  predicate ValidDate(d: Date)
  {
    1 <= d.year <= 9999 && 1 <= d.month <= 12 && 1 <= d.day <= DaysInMonth(d.year, d.month)
  }

  /** Chronological order, as `<` on `date`. */
  predicate DateLess(a: Date, b: Date)
  {
    a.year < b.year
    || (a.year == b.year && a.month < b.month)
    || (a.year == b.year && a.month == b.month && a.day < b.day)
  }

  predicate DateLessEq(a: Date, b: Date)
  {
    a == b || DateLess(a, b)
  }

  /**
   * The namedtuple the parser builds (account_number, currency, date,
   * balance_before, balance_after, amount, description), followed by the
   * `sender` and `receiver` fields the classifier and the normaliser read.
   */
  datatype Transaction = Transaction(
    accountNumber: string,
    currency: string,
    date: Date,
    balanceBefore: int,
    balanceAfter: int,
    amount: int,
    description: string,
    sender: string,
    receiver: string)

  /** One component of a transaction as tuple comparison sees it. */
  datatype Field = Num(n: int) | Str(s: string)

  function FieldLess(x: Field, y: Field): bool
  {
    match (x, y)
    case (Num(a), Num(b)) => a < b
    case (Str(a), Str(b)) => StrLess(a, b)
    case (Num(_), Str(_)) => true
    case (Str(_), Num(_)) => false
  }

  /** The tuple a transaction compares as, field by field in declaration order. */
  function Key(t: Transaction): seq<Field>
  {
    [Str(t.accountNumber), Str(t.currency),
     Num(t.date.year), Num(t.date.month), Num(t.date.day),
     Num(t.balanceBefore), Num(t.balanceAfter), Num(t.amount),
     Str(t.description), Str(t.sender), Str(t.receiver)]
  }

  /** `a < b` on two transactions. */
  function TxLess(a: Transaction, b: Transaction): bool
  {
    LexLess(Key(a), Key(b), FieldLess)
  }

  lemma FieldLessStrictTotal()
    ensures StrictTotal(FieldLess)
  {
    StrLessStrictTotal();
  }

  lemma KeyInjective(a: Transaction, b: Transaction)
    requires Key(a) == Key(b)
    ensures a == b
  {
    assert Key(a)[0] == Key(b)[0] && Key(a)[1] == Key(b)[1] && Key(a)[2] == Key(b)[2];
    assert Key(a)[3] == Key(b)[3] && Key(a)[4] == Key(b)[4] && Key(a)[5] == Key(b)[5];
    assert Key(a)[6] == Key(b)[6] && Key(a)[7] == Key(b)[7] && Key(a)[8] == Key(b)[8];
    assert Key(a)[9] == Key(b)[9] && Key(a)[10] == Key(b)[10];
  }

  /** Transactions are totally ordered, so `list.sort()` has exactly one possible result. */
  lemma TxLessStrictTotal()
    ensures StrictTotal(TxLess)
  {
    FieldLessStrictTotal();
    LexStrictTotal(FieldLess);
    forall a, b, c | TxLess(a, b) && TxLess(b, c) ensures TxLess(a, c) {
      LexTransitive(Key(a), Key(b), Key(c), FieldLess);
    }
    forall a ensures !TxLess(a, a) {
      LexIrreflexive(Key(a), FieldLess);
    }
    forall a, b | a != b ensures TxLess(a, b) || TxLess(b, a) {
      if Key(a) == Key(b) {
        KeyInjective(a, b);
      }
      LexTotal(Key(a), Key(b), FieldLess);
    }
  }

  /** The sum of the amounts, in list order. */
  function Sum(txs: seq<Transaction>): int
  {
    if txs == [] then 0 else txs[0].amount + Sum(txs[1..])
  }

  lemma {:induction false} SumAppend(txs: seq<Transaction>, t: Transaction)
    ensures Sum(txs + [t]) == Sum(txs) + t.amount
  {
    if txs != [] {
      assert (txs + [t])[1..] == txs[1..] + [t];
      SumAppend(txs[1..], t);
    }
  }

  lemma {:induction false} SumConcat(a: seq<Transaction>, b: seq<Transaction>)
    ensures Sum(a + b) == Sum(a) + Sum(b)
  {
    if a != [] {
      assert (a + b)[1..] == a[1..] + b;
      SumConcat(a[1..], b);
    } else {
      assert a + b == b;
    }
  }

  /** The transactions in the order `list.sort()` leaves them. */
  function SortTxs(txs: seq<Transaction>): seq<Transaction>
  {
    Sort(txs, TxLess)
  }

  lemma {:induction false} SumInsert(t: Transaction, txs: seq<Transaction>)
    ensures Sum(Insert(t, txs, TxLess)) == t.amount + Sum(txs)
  {
    if txs != [] && TxLess(txs[0], t) {
      SumInsert(t, txs[1..]);
    }
  }

  /**
   * Sorting yields a sorted permutation with the same sum, and sorting an
   * already sorted list changes nothing.
   */
  lemma {:induction false} SortTxsFacts(txs: seq<Transaction>)
    ensures SortedBy(SortTxs(txs), TxLess)
    ensures multiset(SortTxs(txs)) == multiset(txs)
    ensures Sum(SortTxs(txs)) == Sum(txs)
    ensures SortTxs(SortTxs(txs)) == SortTxs(txs)
  {
    TxLessStrictTotal();
    SortSorted(txs, TxLess);
    SortPermutes(txs, TxLess);
    SumSort(txs);
    SortOfSorted(SortTxs(txs), TxLess);
  }

  lemma {:induction false} SumSort(txs: seq<Transaction>)
    ensures Sum(SortTxs(txs)) == Sum(txs)
  {
    if txs != [] {
      SumSort(txs[1..]);
      SumInsert(txs[0], SortTxs(txs[1..]));
    }
  }
}
