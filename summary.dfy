/**
 * The category-total summary the command line prints after grouping: every
 * category but InternalTransfers goes, by the sign of its total, either to the
 * earnings (total above zero) or to the spendings (zero or below), with its
 * name appended to the matching list and its total added to the matching sum.
 */
module Summary {
  import opened Categories

  /** The four accumulators of the loop. */
  datatype Report = Report(totalEarn: int, totalSpent: int, earnCategories: seq<string>, spentCategories: seq<string>)

  const EmptyReport := Report(0, 0, [], [])

  /** One category, by name and total, taken into the report. */
  function Record(r: Report, entry: (string, int)): Report
  {
    if entry.0 == InternalTransfersName then r
    else if entry.1 > 0 then r.(totalEarn := r.totalEarn + entry.1, earnCategories := r.earnCategories + [entry.0])
    else r.(totalSpent := r.totalSpent + entry.1, spentCategories := r.spentCategories + [entry.0])
  }

  /** The report over categories given by (name, total), in order. */
  function Summarize(entries: seq<(string, int)>): Report
  {
    if entries == [] then EmptyReport else Record(Summarize(entries[..|entries| - 1]), entries[|entries| - 1])
  }

  /** Two reports one after the other: sums added, name lists concatenated. */
  function Combine(a: Report, b: Report): Report
  {
    Report(a.totalEarn + b.totalEarn, a.totalSpent + b.totalSpent,
           a.earnCategories + b.earnCategories, a.spentCategories + b.spentCategories)
  }

  /** The totals of the categories other than InternalTransfers, added up. */
  function KeptTotal(entries: seq<(string, int)>): int
  {
    if entries == [] then 0
    else
      var e := entries[|entries| - 1];
      KeptTotal(entries[..|entries| - 1]) + (if e.0 == InternalTransfersName then 0 else e.1)
  }

  /** How many categories are not InternalTransfers. */
  function KeptCount(entries: seq<(string, int)>): nat
  {
    if entries == [] then 0
    else KeptCount(entries[..|entries| - 1]) + (if entries[|entries| - 1].0 == InternalTransfersName then 0 else 1)
  }

  /** The earnings sum is never negative and the spendings sum never positive. */
  lemma {:induction false} SummarizeSigns(entries: seq<(string, int)>)
    ensures Summarize(entries).totalEarn >= 0 >= Summarize(entries).totalSpent
  {
    if entries != [] {
      SummarizeSigns(entries[..|entries| - 1]);
    }
  }

  /**
   * The report over a concatenation is the two reports one after the other:
   * each list keeps the order the categories come in.
   */
  lemma {:induction false} SummarizeConcat(a: seq<(string, int)>, b: seq<(string, int)>)
    ensures Summarize(a + b) == Combine(Summarize(a), Summarize(b))
  {
    if b == [] {
      assert a + b == a;
    } else {
      var init, last := b[..|b| - 1], b[|b| - 1];
      assert (a + b)[..|a + b| - 1] == a + init && (a + b)[|a + b| - 1] == last;
      SummarizeConcat(a, init);
      RecordCombine(Summarize(a), Summarize(init), last);
    }
  }

  /** Taking one more category in after a combination extends the second report. */
  lemma RecordCombine(x: Report, y: Report, e: (string, int))
    ensures Record(Combine(x, y), e) == Combine(x, Record(y, e))
  {
    assert x.earnCategories + y.earnCategories + [e.0] == x.earnCategories + (y.earnCategories + [e.0]);
    assert x.spentCategories + y.spentCategories + [e.0] == x.spentCategories + (y.spentCategories + [e.0]);
  }

  /**
   * The two lists split the categories other than InternalTransfers between
   * them, and the two sums add up to those categories' totals.
   */
  lemma {:induction false} SummarizePartition(entries: seq<(string, int)>)
    ensures |Summarize(entries).earnCategories| + |Summarize(entries).spentCategories| == KeptCount(entries)
    ensures Summarize(entries).totalEarn + Summarize(entries).totalSpent == KeptTotal(entries)
  {
    if entries != [] {
      SummarizePartition(entries[..|entries| - 1]);
    }
  }

  /**
   * A name is listed under earnings exactly when a category of that name,
   * not InternalTransfers, has a total above zero; under spendings exactly
   * when one has a total of zero or below.
   */
  lemma {:induction false} SummarizeMembership(entries: seq<(string, int)>, n: string)
    ensures n in Summarize(entries).earnCategories <==>
      exists e :: e in entries && e.0 == n && n != InternalTransfersName && e.1 > 0
    ensures n in Summarize(entries).spentCategories <==>
      exists e :: e in entries && e.0 == n && n != InternalTransfersName && e.1 <= 0
  {
    if entries != [] {
      var init := entries[..|entries| - 1];
      SummarizeMembership(init, n);
      assert entries == init + [entries[|entries| - 1]];
    }
  }

  /** A category whose total is exactly zero counts as spent. */
  lemma ZeroTotalIsSpent(name: string)
    requires name != InternalTransfersName
    ensures Summarize([(name, 0)]) == Report(0, 0, [], [name])
  {
    assert [(name, 0)][..0] == [];
  }

  /** Each category's name and total, in list order. */
  function Entries(cats: seq<Category>): seq<(string, int)>
    reads cats
  {
    if cats == [] then [] else Entries(cats[..|cats| - 1]) + [(cats[|cats| - 1].name, cats[|cats| - 1].total)]
  }

  /**
   * The summary loop over `grouped.get_categories()`: its four accumulators
   * end as the report over the categories' names and totals.
   */
  method SummarizeCategories(categories: seq<Category>)
    returns (totalEarn: int, totalSpent: int, earnCategories: seq<string>, spentCategories: seq<string>)
    ensures Report(totalEarn, totalSpent, earnCategories, spentCategories) == Summarize(Entries(categories))
  {
    totalEarn, totalSpent := 0, 0;
    earnCategories, spentCategories := [], [];
    var i := 0;
    while i < |categories|
      invariant 0 <= i <= |categories|
      invariant Report(totalEarn, totalSpent, earnCategories, spentCategories) == Summarize(Entries(categories[..i]))
    {
      var category := categories[i];
      assert categories[..i + 1][..i] == categories[..i];
      if category.GetName() == InternalTransfersName {
        i := i + 1;
        continue;
      }
      var categoryTotal := category.total;
      if categoryTotal > 0 {
        totalEarn := totalEarn + categoryTotal;
        earnCategories := earnCategories + [category.GetName()];
      } else {
        totalSpent := totalSpent + categoryTotal;
        spentCategories := spentCategories + [category.GetName()];
      }
      i := i + 1;
    }
    assert categories[..i] == categories;
  }
}
