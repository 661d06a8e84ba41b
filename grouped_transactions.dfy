/**
 * Filing transactions into categories: every transaction is offered to
 * every category; with no taker it is returned as ungrouped, with exactly
 * one it is added to that category, and with several the run stops with
 * an error that names all of them.
 */
module Grouping {
  import opened Wrappers
  import opened Strings
  import opened Transactions
  import opened Matching
  import opened Categories
  import opened RuleLists
  import opened Sequences

  /** Where one transaction goes when no category raises. */
  datatype Outcome = Unfiled | Filed(index: nat)

  /** The two ways `add_transactions` stops early. */
  datatype GroupError =
    | Ambiguous(names: seq<string>, tx: Transaction)   // the `ValueError` naming every matched category
    | RuleFailure(error: MatchError)                  // an exception raised by some `is_matched`

  ghost predicate Increasing(s: seq<nat>)
  {
    forall i, j :: 0 <= i < j < |s| ==> s[i] < s[j]
  }

  /** What each category's `is_matched` says about `t`, in category order. */
  function Verdicts(cats: seq<Category>, t: Transaction): (vs: seq<Result<bool, MatchError>>)
    ensures |vs| == |cats| && forall x :: 0 <= x < |cats| ==> vs[x] == cats[x].IsMatched(t)
  {
    seq(|cats|, x requires 0 <= x < |cats| => cats[x].IsMatched(t))
  }

  /**
   * `[cat for cat in categories if cat.is_matched(tx)]`, as indices into the
   * list, from position `k` on; the first category that raises ends it.
   */
  function MatchedFrom(vs: seq<Result<bool, MatchError>>, k: nat): Result<seq<nat>, MatchError>
    requires k <= |vs|
    decreases |vs| - k
  {
    if k == |vs| then Success([])
    else
      match vs[k]
      case Failure(e) => Failure(e)
      case Success(b) =>
        match MatchedFrom(vs, k + 1)
        case Failure(e) => Failure(e)
        case Success(rest) => Success(if b then [k] + rest else rest)
  }

  /**
   * The comprehension succeeds exactly when no category raises; it then
   * holds every matching position once, in increasing order; otherwise the
   * error is the one of the first category that raises.
   */
  lemma {:induction false} MatchedMeaning(vs: seq<Result<bool, MatchError>>, k: nat)
    requires k <= |vs|
    ensures var r := MatchedFrom(vs, k);
      && (r.Success? <==> forall x :: k <= x < |vs| ==> vs[x].Success?)
      && (r.Success? ==> forall x :: x in r.value <==> k <= x < |vs| && vs[x] == Success(true))
      && (r.Success? ==> Increasing(r.value))
      && (r.Failure? ==>
           exists x :: k <= x < |vs| && vs[x] == Failure(r.error) && forall y :: k <= y < x ==> vs[y].Success?)
    decreases |vs| - k
  {
    if k < |vs| {
      MatchedMeaning(vs, k + 1);
      var r := MatchedFrom(vs, k + 1);
      if vs[k].Failure? {
        assert MatchedFrom(vs, k) == Failure(vs[k].error);
      } else if r.Failure? {
        assert MatchedFrom(vs, k) == Failure(r.error);
        var x :| k + 1 <= x < |vs| && vs[x] == Failure(r.error) && forall y :: k + 1 <= y < x ==> vs[y].Success?;
        assert forall y :: k <= y < x ==> vs[y].Success?;
      } else {
        var v := if vs[k].value then [k] + r.value else r.value;
        assert MatchedFrom(vs, k) == Success(v);
        assert forall i :: 0 <= i < |r.value| ==> r.value[i] in r.value;
        assert forall x :: x in v <==> k <= x < |vs| && vs[x] == Success(true);
      }
    }
  }

  /** The names of the matched categories, in category order. */
  function NamesAt(cats: seq<Category>, idx: seq<nat>): (names: seq<string>)
    ensures |names| == |idx| && forall i :: 0 <= i < |idx| && idx[i] < |cats| ==> names[i] == cats[idx[i]].name
  {
    seq(|idx|, i requires 0 <= i < |idx| => if idx[i] < |cats| then cats[idx[i]].name else "")
  }

  /** The decision `add_transactions` takes for one transaction. */
  function Route(cats: seq<Category>, t: Transaction): Result<Outcome, GroupError>
  {
    match MatchedFrom(Verdicts(cats, t), 0)
    case Failure(e) => Failure(RuleFailure(e))
    case Success(idx) =>
      if |idx| == 0 then Success(Unfiled)
      else if |idx| == 1 then Success(Filed(idx[0]))
      else Failure(Ambiguous(NamesAt(cats, idx), t))
  }

  /**
   * No match leaves the transaction unfiled, exactly one files it there,
   * two or more (with no raise) are an ambiguity, and a raise in some
   * `is_matched` is passed on.
   */
  lemma RouteMeaning(cats: seq<Category>, t: Transaction)
    ensures var r, vs := Route(cats, t), Verdicts(cats, t);
      && (r == Success(Unfiled) <==> forall x :: 0 <= x < |vs| ==> vs[x] == Success(false))
      && (r.Success? && r.value.Filed? ==>
           r.value.index < |vs| && forall x :: 0 <= x < |vs| ==> vs[x] == Success(x == r.value.index))
      && ((r.Failure? && r.error.Ambiguous?) <==>
           (forall x :: 0 <= x < |vs| ==> vs[x].Success?) &&
           exists a, b :: 0 <= a < b < |vs| && vs[a] == Success(true) && vs[b] == Success(true))
      && (r.Failure? && r.error.RuleFailure? ==> exists x :: 0 <= x < |vs| && vs[x] == Failure(r.error.error))
  {
    var vs := Verdicts(cats, t);
    MatchedMeaning(vs, 0);
    var m := MatchedFrom(vs, 0);
    if m.Success? {
      var idx := m.value;
      if |idx| == 0 {
        forall x | 0 <= x < |vs| ensures vs[x] == Success(false) {
          assert vs[x].Success? && x !in idx;
          assert vs[x] == Success(vs[x].value);
          assert vs[x].value == false;
        }
      } else if |idx| == 1 {
        assert idx == [idx[0]] && idx[0] in idx;
        forall x | 0 <= x < |vs| ensures vs[x] == Success(x == idx[0]) {
          assert vs[x].Success?;
          assert vs[x] == Success(vs[x].value);
          if x == idx[0] {
            assert x in idx;
          } else {
            assert x !in idx;
            assert vs[x].value == false;
          }
        }
        assert vs[idx[0]] == Success(true);
      } else {
        assert idx[0] < idx[1] && idx[0] in idx && idx[1] in idx;
      }
    }
  }

  /** The transactions of `txs` that go to category `k`, in input order. */
  function FiledAt(cats: seq<Category>, k: nat, txs: seq<Transaction>): seq<Transaction>
  {
    if txs == [] then []
    else
      var last := txs[|txs| - 1];
      FiledAt(cats, k, txs[..|txs| - 1]) + (if Route(cats, last) == Success(Filed(k)) then [last] else [])
  }

  /** The transactions of `txs` that no category takes, in input order. */
  function UngroupedOf(cats: seq<Category>, txs: seq<Transaction>): seq<Transaction>
  {
    if txs == [] then []
    else
      var last := txs[|txs| - 1];
      UngroupedOf(cats, txs[..|txs| - 1]) + (if Route(cats, last) == Success(Unfiled) then [last] else [])
  }

  lemma FiledAtStep(cats: seq<Category>, k: nat, txs: seq<Transaction>, t: Transaction)
    ensures FiledAt(cats, k, txs + [t]) == FiledAt(cats, k, txs) + (if Route(cats, t) == Success(Filed(k)) then [t] else [])
  {
    assert (txs + [t])[..|txs|] == txs;
  }

  lemma FiledStep(cats: seq<Category>, txs: seq<Transaction>, t: Transaction)
    ensures forall k: nat ::
      FiledAt(cats, k, txs + [t]) == FiledAt(cats, k, txs) + (if Route(cats, t) == Success(Filed(k)) then [t] else [])
  {
    assert (txs + [t])[..|txs|] == txs;
  }

  /** No transaction of `txs` makes `add_transactions` raise. */
  predicate AllRouted(cats: seq<Category>, txs: seq<Transaction>)
  {
    forall i :: 0 <= i < |txs| ==> Route(cats, txs[i]).Success?
  }

  /**
   * What `add_transactions` returns for `txs`: the first raise, or the
   * unmatched transactions in input order.
   */
  function Grouped(cats: seq<Category>, txs: seq<Transaction>): Result<seq<Transaction>, GroupError>
  {
    if txs == [] then Success([])
    else
      var last := txs[|txs| - 1];
      match Grouped(cats, txs[..|txs| - 1])
      case Failure(e) => Failure(e)
      case Success(u) =>
        match Route(cats, last)
        case Failure(e) => Failure(e)
        case Success(Unfiled) => Success(u + [last])
        case Success(Filed(_)) => Success(u)
  }

  /** One more transaction, whose route is `o`, extends a successful prefix. */
  lemma GroupedStep(cats: seq<Category>, txs: seq<Transaction>, i: nat, u: seq<Transaction>, o: Result<Outcome, GroupError>)
    requires i < |txs| && Grouped(cats, txs[..i]) == Success(u) && o == Route(cats, txs[i])
    ensures o.Failure? ==> Grouped(cats, txs) == Failure(o.error)
    ensures o.Success? ==> Grouped(cats, txs[..i + 1]) == Success(if o.value.Unfiled? then u + [txs[i]] else u)
  {
    assert txs[..i + 1][..i] == txs[..i];
    if o.Failure? {
      FailureSticks(cats, txs, i + 1);
    }
  }

  /** Once a prefix raises, the whole input raises the same error. */
  lemma {:induction false} FailureSticks(cats: seq<Category>, txs: seq<Transaction>, n: nat)
    requires n <= |txs| && Grouped(cats, txs[..n]).Failure?
    ensures Grouped(cats, txs) == Grouped(cats, txs[..n])
    decreases |txs| - n
  {
    if n == |txs| {
      assert txs[..n] == txs;
    } else {
      assert txs[..n + 1][..n] == txs[..n];
      FailureSticks(cats, txs, n + 1);
    }
  }

  /**
   * `add_transactions` returns normally exactly when no transaction raises,
   * and then returns the unmatched ones; a raise is the error of some
   * transaction, all of whose predecessors were routed.
   */
  lemma {:induction false} GroupedMeaning(cats: seq<Category>, txs: seq<Transaction>)
    ensures Grouped(cats, txs).Success? <==> AllRouted(cats, txs)
    ensures Grouped(cats, txs).Success? ==> Grouped(cats, txs).value == UngroupedOf(cats, txs)
    ensures Grouped(cats, txs).Failure? ==>
      exists i :: 0 <= i < |txs| && AllRouted(cats, txs[..i]) && Route(cats, txs[i]) == Failure(Grouped(cats, txs).error)
  {
    if txs != [] {
      var init, last := txs[..|txs| - 1], txs[|txs| - 1];
      GroupedMeaning(cats, init);
      assert forall i :: 0 <= i < |init| ==> init[i] == txs[i];
      if Grouped(cats, init).Failure? {
        var i :| 0 <= i < |init| && AllRouted(cats, init[..i]) && Route(cats, init[i]) == Failure(Grouped(cats, init).error);
        assert init[..i] == txs[..i];
      } else if Route(cats, last).Failure? {
        assert txs[..|txs| - 1] == init;
      }
    }
  }

  const Multiple := "matched multiple categories"

  /** The text of the `ValueError` for an ambiguous transaction (without the transaction's own text). */
  function AmbiguityMessage(names: seq<string>): string
  {
    "Transaction " + Multiple + " (" + Join(names, ", ") + ")"
  }

  /** The category a transaction is filed into appears only once in the list. */
  lemma FileInto(cats: seq<Category>, j: nat, t: Transaction)
    requires Route(cats, t) == Success(Filed(j))
    ensures j < |cats|
    ensures forall k :: 0 <= k < |cats| && k != j ==> cats[k] != cats[j]
  {
    var vs := Verdicts(cats, t);
    RouteMeaning(cats, t);
    forall k | 0 <= k < |cats| && k != j ensures cats[k] != cats[j] {
      assert vs[k] == Success(false) && vs[j] == Success(true);
    }
  }

  /** A transaction is filed into category `j` exactly when `j` is its only taker. */
  lemma FiledIff(cats: seq<Category>, t: Transaction, j: nat)
    ensures Route(cats, t) == Success(Filed(j)) <==>
      j < |cats| && forall x :: 0 <= x < |cats| ==> cats[x].IsMatched(t) == Success(x == j)
  {
    var vs := Verdicts(cats, t);
    RouteMeaning(cats, t);
    if j < |cats| && forall x :: 0 <= x < |cats| ==> cats[x].IsMatched(t) == Success(x == j) {
      assert vs[j] == Success(true);
      forall a, b | 0 <= a < b < |vs| ensures !(vs[a] == Success(true) && vs[b] == Success(true)) {
        assert vs[a] == Success(a == j) && vs[b] == Success(b == j);
      }
    }
  }

  /**
   * With two or more takers (and no raise) the error names every taker and
   * only takers, and its message says so.
   */
  lemma AmbiguityNamesEveryTaker(cats: seq<Category>, t: Transaction)
    requires Route(cats, t).Failure? && Route(cats, t).error.Ambiguous?
    ensures var names := Route(cats, t).error.names;
      && 2 <= |names|
      && (forall x :: 0 <= x < |cats| && cats[x].IsMatched(t) == Success(true) ==> cats[x].name in names)
      && (forall n :: n in names ==>
            exists x :: 0 <= x < |cats| && cats[x].IsMatched(t) == Success(true) && cats[x].name == n)
      && Contains(AmbiguityMessage(names), Multiple)
      && forall x :: 0 <= x < |cats| && cats[x].IsMatched(t) == Success(true) ==>
           Contains(AmbiguityMessage(names), cats[x].name)
  {
    var vs := Verdicts(cats, t);
    MatchedMeaning(vs, 0);
    var idx := MatchedFrom(vs, 0).value;
    var names := NamesAt(cats, idx);
    assert Route(cats, t).error.names == names;
    AmbiguityMessageNames(names);
    forall x | 0 <= x < |cats| && cats[x].IsMatched(t) == Success(true)
      ensures cats[x].name in names
    {
      assert x in idx;
      var i :| 0 <= i < |idx| && idx[i] == x;
      assert names[i] == cats[x].name;
    }
    forall n | n in names
      ensures exists x :: 0 <= x < |cats| && cats[x].IsMatched(t) == Success(true) && cats[x].name == n
    {
      var i :| 0 <= i < |names| && names[i] == n;
      assert idx[i] in idx;
    }
  }

  /** The ambiguity message says "matched multiple categories" and names every name it is given. */
  lemma AmbiguityMessageNames(names: seq<string>)
    ensures Contains(AmbiguityMessage(names), Multiple)
    ensures forall n :: n in names ==> Contains(AmbiguityMessage(names), n)
  {
    var msg := AmbiguityMessage(names);
    var head := "Transaction " + Multiple + " (";
    assert InfixAt(Multiple, Multiple, 0);
    ContainsWithin(Multiple, "Transaction ", Multiple, " (" + Join(names, ", ") + ")");
    assert msg == "Transaction " + Multiple + (" (" + Join(names, ", ") + ")");
    forall n | n in names
      ensures Contains(msg, n)
    {
      var i :| 0 <= i < |names| && names[i] == n;
      JoinContains(names, ", ", i);
      ContainsWithin(n, head, Join(names, ", "), ")");
    }
  }

  /** How many transactions of `txs` go to the categories `0 .. n - 1`. */
  function FiledCount(cats: seq<Category>, n: nat, txs: seq<Transaction>): nat
  {
    if n == 0 then 0 else FiledCount(cats, n - 1, txs) + |FiledAt(cats, n - 1, txs)|
  }

  /** Whether outcome `o` files its transaction into one of the categories `0 .. n - 1`. */
  predicate FiledBelow(o: Result<Outcome, GroupError>, n: nat)
  {
    o.Success? && o.value.Filed? && o.value.index < n
  }

  lemma {:induction false} FiledCountEmpty(cats: seq<Category>, n: nat)
    ensures FiledCount(cats, n, []) == 0
  {
    if n > 0 {
      FiledCountEmpty(cats, n - 1);
    }
  }

  lemma {:induction false} FiledCountStep(cats: seq<Category>, n: nat, txs: seq<Transaction>, t: Transaction)
    ensures FiledCount(cats, n, txs + [t]) == FiledCount(cats, n, txs) + (if FiledBelow(Route(cats, t), n) then 1 else 0)
  {
    if n > 0 {
      var o := Route(cats, t);
      FiledCountStep(cats, n - 1, txs, t);
      FiledAtStep(cats, n - 1, txs, t);
      assert |FiledAt(cats, n - 1, txs + [t])| == |FiledAt(cats, n - 1, txs)| + (if o == Success(Filed(n - 1)) then 1 else 0);
      assert FiledBelow(o, n) <==> FiledBelow(o, n - 1) || o == Success(Filed(n - 1));
      assert !(FiledBelow(o, n - 1) && o == Success(Filed(n - 1)));
      assert FiledCount(cats, n, txs + [t]) == FiledCount(cats, n - 1, txs + [t]) + |FiledAt(cats, n - 1, txs + [t])|;
      assert FiledCount(cats, n, txs) == FiledCount(cats, n - 1, txs) + |FiledAt(cats, n - 1, txs)|;
    }
  }

  /**
   * When no transaction raises, the ungrouped list and the categories
   * together receive exactly as many transactions as were offered.
   */
  lemma {:induction false} EveryTransactionLandsOnce(cats: seq<Category>, txs: seq<Transaction>)
    requires AllRouted(cats, txs)
    ensures |UngroupedOf(cats, txs)| + FiledCount(cats, |cats|, txs) == |txs|
  {
    if txs == [] {
      FiledCountEmpty(cats, |cats|);
    } else {
      var init, t := txs[..|txs| - 1], txs[|txs| - 1];
      assert txs == init + [t];
      assert forall i :: 0 <= i < |init| ==> init[i] == txs[i];
      EveryTransactionLandsOnce(cats, init);
      FiledCountStep(cats, |cats|, init, t);
      assert UngroupedOf(cats, txs) == UngroupedOf(cats, init) + (if Route(cats, t) == Success(Unfiled) then [t] else []);
      assert Route(cats, txs[|txs| - 1]).Success?;
      if Route(cats, t).value.Filed? {
        FileInto(cats, Route(cats, t).value.index, t);
        assert FiledBelow(Route(cats, t), |cats|);
        assert |UngroupedOf(cats, txs)| == |UngroupedOf(cats, init)|;
        assert FiledCount(cats, |cats|, txs) == FiledCount(cats, |cats|, init) + 1;
      } else {
        assert |UngroupedOf(cats, txs)| == |UngroupedOf(cats, init)| + 1;
        assert FiledCount(cats, |cats|, txs) == FiledCount(cats, |cats|, init);
      }
    }
  }

  /**
   * Every transaction that does not raise is found where its route says:
   * in the ungrouped list, or in the one category that took it.
   */
  lemma {:induction false} EveryTransactionLandsSomewhere(cats: seq<Category>, txs: seq<Transaction>)
    ensures forall i :: 0 <= i < |txs| && Route(cats, txs[i]) == Success(Unfiled) ==> txs[i] in UngroupedOf(cats, txs)
    ensures forall i :: 0 <= i < |txs| && Route(cats, txs[i]).Success? && Route(cats, txs[i]).value.Filed? ==>
      txs[i] in FiledAt(cats, Route(cats, txs[i]).value.index, txs)
  {
    if txs != [] {
      var init, t := txs[..|txs| - 1], txs[|txs| - 1];
      EveryTransactionLandsSomewhere(cats, init);
      forall i | 0 <= i < |txs| && Route(cats, txs[i]).Success?
        ensures Route(cats, txs[i]) == Success(Unfiled) ==> txs[i] in UngroupedOf(cats, txs)
        ensures Route(cats, txs[i]).value.Filed? ==> txs[i] in FiledAt(cats, Route(cats, txs[i]).value.index, txs)
      {
        if i < |init| {
          assert init[i] == txs[i];
        }
      }
    }
  }

  /**
   * Two Albert Heijn payments of opposite sign, offered to Groceries alone:
   * both are filed there and the total is their signed sum.
   */
  lemma MixedSignsAddUp(c: Category, t1: Transaction, t2: Transaction)
    requires c.matcher == AnyRule(GroceriesRules())
    requires t1.receiver == "albert heijn" && t2.receiver == "albert heijn"
    requires t1.amount == -1234 && t2.amount == 800
    ensures Grouped([c], [t1, t2]) == Success([])
    ensures FiledAt([c], 0, [t1, t2]) == [t1, t2] && Sum(FiledAt([c], 0, [t1, t2])) == -434
  {
    GroceriesMatchAlbertHeijn(t1);
    GroceriesMatchAlbertHeijn(t2);
    assert c.IsMatched(t1) == Success(true) && c.IsMatched(t2) == Success(true);
    FiledIff([c], t1, 0);
    FiledIff([c], t2, 0);
    assert Route([c], t1) == Success(Filed(0));
    assert Route([c], t2) == Success(Filed(0));
    assert [t1, t2][..1] == [t1];
    assert [t1][..0] == [];
    assert Grouped([c], [t1]) == Success([]);
    assert FiledAt([c], 0, [t1]) == [t1];
    assert [t1, t2][1..] == [t2] && [t2][1..] == [];
    assert Sum([t2]) == 800;
    assert Sum([t1, t2]) == -1234 + Sum([t2]);
  }

  class GroupedTransactions {
    const categories: seq<Category>

    /** `GroupedTransactions(*categories)`: the categories in argument order. */
    constructor(categories: seq<Category>)
      ensures this.categories == categories
    {
      this.categories := categories;
    }

    function GetCategories(): seq<Category>
    {
      categories
    }

    /** The transaction list of each category, in category order. */
    function Contents(): (ls: seq<seq<Transaction>>)
      reads categories
      ensures |ls| == |categories|
    {
      seq(|categories|, k requires 0 <= k < |categories| reads categories => categories[k].transactions)
    }

    /** The running total of each category, in category order. */
    function Totals(): (ts: seq<int>)
      reads categories
      ensures |ts| == |categories|
    {
      seq(|categories|, k requires 0 <= k < |categories| reads categories => categories[k].total)
    }

    /**
     * After the transactions `done` have been added to categories that
     * started out holding `start` with totals `totals`: each category holds
     * its starting list followed by the transactions routed to it.
     */
    ghost predicate Progress(start: seq<seq<Transaction>>, totals: seq<int>, done: seq<Transaction>)
      reads categories
    {
      |start| == |categories| && |totals| == |categories| &&
      forall k :: 0 <= k < |categories| ==>
        categories[k].transactions == start[k] + FiledAt(categories, k, done) &&
        categories[k].total == totals[k] + Sum(FiledAt(categories, k, done))
    }

    /**
     * Categories whose starting totals matched their starting lists still
     * have totals that match their lists.
     */
    lemma ProgressKeepsTotals(start: seq<seq<Transaction>>, totals: seq<int>, done: seq<Transaction>)
      requires Progress(start, totals, done)
      requires forall k :: 0 <= k < |start| && k < |totals| ==> totals[k] == Sum(start[k])
      ensures forall k :: 0 <= k < |categories| ==> categories[k].Valid()
    {
      forall k | 0 <= k < |categories| ensures categories[k].Valid() {
        SumConcat(start[k], FiledAt(categories, k, done));
      }
    }

    /**
     * `add_transactions`. It returns what `Grouped` describes; the
     * transactions before the raising one (position `stop`), or all of them
     * when nothing raises, have been appended to the categories they route
     * to, and nothing is rolled back.
     */
    method AddTransactions(txs: seq<Transaction>) returns (r: Result<seq<Transaction>, GroupError>, ghost stop: nat)
      modifies categories
      ensures r == Grouped(categories, txs)
      ensures stop <= |txs| && (r.Success? <==> stop == |txs|)
      ensures r.Failure? ==> Grouped(categories, txs[..stop]).Success? && Route(categories, txs[stop]) == Failure(r.error)
      ensures Progress(old(Contents()), old(Totals()), txs[..stop])
    {
      ghost var start, totals := Contents(), Totals();
      var ungrouped := [];
      var i := 0;
      while i < |txs|
        invariant 0 <= i <= |txs|
        invariant Grouped(categories, txs[..i]) == Success(ungrouped)
        invariant Progress(start, totals, txs[..i])
      {
        var t := txs[i];
        TakeOneMore(txs, i);
        var outcome := FileOne(t, start, totals, txs[..i]);
        GroupedStep(categories, txs, i, ungrouped, outcome);
        if outcome.Failure? {
          r, stop := Failure(outcome.error), i;
          return;
        }
        if outcome.value.Unfiled? {
          ungrouped := ungrouped + [t];
        }
        i := i + 1;
      }
      assert txs[..i] == txs;
      r, stop := Success(ungrouped), i;
    }

    /**
     * One pass of the loop in `add_transactions`: the transaction is added to
     * the single matching category, or left for the caller (no match, or an
     * error to raise).
     */
    method FileOne(t: Transaction, ghost start: seq<seq<Transaction>>, ghost totals: seq<int>, ghost done: seq<Transaction>)
      returns (r: Result<Outcome, GroupError>)
      requires Progress(start, totals, done)
      modifies categories
      ensures r == Route(categories, t)
      ensures Progress(start, totals, if r.Success? then done + [t] else done)
    {
      FiledStep(categories, done, t);
      r := Route(categories, t);
      if r == Success(Unfiled) {
        assert forall k: nat :: FiledAt(categories, k, done + [t]) == FiledAt(categories, k, done);
      } else if r.Success? {
        var j := r.value.index;
        FileInto(categories, j, t);
        SumAppend(FiledAt(categories, j, done), t);
        label Before:
        categories[j].AddTransaction(t);
        forall k | 0 <= k < |categories|
          ensures categories[k].transactions == start[k] + FiledAt(categories, k, done + [t])
          ensures categories[k].total == totals[k] + Sum(FiledAt(categories, k, done + [t]))
        {
          if k != j {
            assert categories[k].transactions == old@Before(categories[k].transactions);
            assert FiledAt(categories, k, done + [t]) == FiledAt(categories, k, done);
          }
        }
      }
    }
  }
}
