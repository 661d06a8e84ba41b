/**
 * Spending categories: each category has a name, a matching rule and a
 * flow direction, and collects the transactions filed under it together
 * with their running total.
 */
module Categories {
  import opened Wrappers
  import opened Ordering
  import opened Transactions
  import opened Patterns
  import opened Matching
  import opened RuleLists
  import opened Strings

  /** Whether a category's money comes in, goes out, or only moves between own accounts. */
  datatype FlowDirection = Earnings | Expenses | Neutral

  /** The twenty concrete categories. */
  datatype Kind =
    | Groceries | Transport | Insurance | HouseholdGoods | Restaurants
    | Gina | Health | Clothes | Child | Entertainment
    | Taxes | Documents | VVE | Bills | Banks
    | InternalTransfers | Apartment | Income | Services | Others

  /** The names the visualiser and the summary single out. */
  const InternalTransfersName := "InternalTransfers"
  const IncomeName := "Income"

  /** The name each category passes to the base constructor. */
  function NameOf(k: Kind): string
  {
    match k
    case Groceries => "Groceries"
    case Transport => "Transport"
    case Insurance => "Insurance"
    case HouseholdGoods => "Household goods"
    case Restaurants => "Restaurants"
    case Gina => "Gina"
    case Health => "Health"
    case Clothes => "Clothes"
    case Child => "Child"
    case Entertainment => "Entertainment"
    case Taxes => "Taxes"
    case Documents => "Documents"
    case VVE => "VVE"
    case Bills => "Bills"
    case Banks => "Banks"
    case InternalTransfers => InternalTransfersName
    case Apartment => "Apartment"
    case Income => IncomeName
    case Services => "Services"
    case Others => "Others"
  }

  /** `get_flow_direction()`: only Income earns, only InternalTransfers is neutral. */
  function FlowOf(k: Kind): (r: FlowDirection)
    ensures r == Earnings <==> k == Income
    ensures r == Neutral <==> k == InternalTransfers
    ensures r == Expenses <==> k != Income && k != InternalTransfers
  {
    match k
    case Income => Earnings
    case InternalTransfers => Neutral
    case _ => Expenses
  }

  /** `is_matched`: the rule list of each category; Entertainment matches nothing. */
  function MatcherOf(k: Kind): Matcher
  {
    if k == Entertainment then Never else AnyRule(RulesOf(k))
  }

  /** The rule list of each category that has one. */
  function RulesOf(k: Kind): seq<Rule>
    requires k != Entertainment
  {
    match k
    case Groceries => GroceriesRules()
    case Transport => TransportRules()
    case Insurance => InsuranceRules()
    case HouseholdGoods => HouseholdGoodsRules()
    case Restaurants => RestaurantsRules()
    case Gina => GinaRules()
    case Health => HealthRules()
    case Clothes => ClothesRules()
    case Child => ChildRules()
    case Taxes => TaxesRules()
    case Documents => DocumentsRules()
    case VVE => VVERules()
    case Bills => BillsRules()
    case Banks => BanksRules()
    case InternalTransfers => InternalTransfersRules()
    case Apartment => ApartmentRules()
    case Income => IncomeRules()
    case Services => ServicesRules()
    case Others => OthersRules()
  }

  /** Every date constraint of a matcher is `None`, a date, or a pair of dates. */
  predicate WellFormedMatcher(m: Matcher)
  {
    m.AnyRule? ==> NeverRaises(m.rules)
  }

  /** The category's verdict on a transaction when its matcher is well formed. */
  predicate Matches(m: Matcher, t: Transaction)
    requires WellFormedMatcher(m)
  {
    m.AnyRule? &&
    exists k :: 0 <= k < |m.rules| && WellFormed(m.rules[k].when)
      && Search(m.rules[k].pattern, t.receiver) && InWindow(m.rules[k].when, t.date)
  }

  /**
   * With a well-formed matcher, `is_matched` never raises, and it answers
   * whether some rule's pattern is found in the receiver and the date lies
   * in that rule's window.
   */
  lemma MatcherVerdict(m: Matcher, t: Transaction)
    requires WellFormedMatcher(m)
    ensures IsMatchedBy(m, t) == Success(Matches(m, t))
  {
    if m.AnyRule? {
      AnyMatchWellFormed(m.rules, t);
    }
  }

  /** Entertainment's `is_matched` is the constant `False`. */
  lemma EntertainmentMatchesNothing(t: Transaction)
    ensures IsMatchedBy(MatcherOf(Entertainment), t) == Success(false)
  {
  }

  /** A receiver that starts with `albert heijn` followed by whitespace or its end is a grocery purchase. */
  lemma GroceriesMatchAlbertHeijn(t: Transaction)
    requires StartsWith(t.receiver, "albert heijn")
    requires |t.receiver| == 12 || IsSpace(t.receiver[12])
    ensures IsMatchedBy(AnyRule(GroceriesRules()), t) == Success(true)
  {
    var rs := GroceriesRules();
    MatcherVerdict(AnyRule(GroceriesRules()), t);
    PrefixWordMeaning("albert heijn", t.receiver);
    assert rs[2] == Rule(PrefixWord("albert heijn"), NoDate);
    assert Search(rs[2].pattern, t.receiver) && InWindow(rs[2].when, t.date);
  }

  /** `^(bck\*)?(.*)ah to go(?:\s|$)` needs at least eight characters. */
  lemma AhToGoTooLong(s: string)
    requires |s| < 8
    ensures !Search(GroceriesRules()[3].pattern, s)
  {
    var ps := GroceriesRules()[3].pattern.pieces;
    assert ps == [OptText("bck*"), Star(AnyChar), Text("ah to go"), SpaceOrEnd];
    StarTextTooLong(ps[1..], s, 0);
    if |s| >= 4 {
      StarTextTooLong(ps[1..], s, 4);
    }
  }

  /** The receiver `gamma` is not a grocery purchase. */
  lemma GammaIsNotGroceries(t: Transaction)
    requires t.receiver == "gamma"
    ensures IsMatchedBy(AnyRule(GroceriesRules()), t) == Success(false)
  {
    var s := t.receiver;
    var rs := GroceriesRules();
    MatcherVerdict(AnyRule(GroceriesRules()), t);
    NoOptMatchByFirstChar(rs[0].pattern, s);
    NoOptMatchByFirstChar(rs[1].pattern, s);
    NoMatchByFirstChar(rs[2].pattern, s);
    AhToGoTooLong(s);
    NoMatchByFirstChar(rs[4].pattern, s);
  }

  /** The receiver `gamma` is a household-goods purchase. */
  lemma GammaIsHouseholdGoods(t: Transaction)
    requires t.receiver == "gamma"
    ensures IsMatchedBy(AnyRule(HouseholdGoodsRules()), t) == Success(true)
  {
    var hs := HouseholdGoodsRules();
    MatcherVerdict(AnyRule(HouseholdGoodsRules()), t);
    PrefixWordMeaning("gamma", t.receiver);
    assert hs[3] == Rule(PrefixWord("gamma"), NoDate);
    assert Search(hs[3].pattern, t.receiver) && InWindow(hs[3].when, t.date);
  }

  lemma KlarnaOthersFail(s: string)
    requires s == "klarna bank ab"
    ensures forall k | 0 <= k < |HouseholdGoodsRules()| && k != 13 :: !Search(HouseholdGoodsRules()[k].pattern, s)
  {
    var rs := HouseholdGoodsRules();
    forall k | 0 <= k < |rs| && k != 13 ensures !Search(rs[k].pattern, s) {
      if k == 10 {
        MissingFirstCharNoMatch("motel a miio", s);
      } else {
        NoMatchByFirstChar(rs[k].pattern, s);
      }
    }
  }

  /** A `klarna bank` payment counts as household goods on 2025-01-15 and on no other day. */
  lemma KlarnaOnlyOnItsDay(t: Transaction)
    requires t.receiver == "klarna bank ab"
    ensures IsMatchedBy(AnyRule(HouseholdGoodsRules()), t) == Success(t.date == Date(2025, 1, 15))
  {
    var m := AnyRule(HouseholdGoodsRules());
    var rs := HouseholdGoodsRules();
    MatcherVerdict(m, t);
    KlarnaOthersFail(t.receiver);
    PrefixSpaceMeaning("klarna bank", t.receiver);
    assert rs[13] == Rule(PrefixSpace("klarna bank"), OnDate(Date(2025, 1, 15)));
    assert Search(rs[13].pattern, t.receiver);
    assert Matches(m, t) <==> InWindow(rs[13].when, t.date);
  }

  lemma AlbertOthersFail(s: string)
    requires s == "albert"
    ensures forall k | 0 <= k < |OthersRules()| && k != 1 :: !Search(OthersRules()[k].pattern, s)
  {
    var rs := OthersRules();
    forall k | 0 <= k < |rs| && k != 1 ensures !Search(rs[k].pattern, s) {
      if k == 0 {
        NoOptMatchByFirstChar(rs[k].pattern, s);
      } else {
        NoMatchByFirstChar(rs[k].pattern, s);
      }
    }
  }

  /** A payment to `albert` counts as Others from 2025-03-08 to 2025-03-09, both included, and on no other day. */
  lemma AlbertOnlyDuringTrip(t: Transaction)
    requires t.receiver == "albert"
    ensures IsMatchedBy(AnyRule(OthersRules()), t)
      == Success(DateLessEq(Date(2025, 3, 8), t.date) && DateLessEq(t.date, Date(2025, 3, 9)))
  {
    var m := AnyRule(OthersRules());
    var rs := OthersRules();
    MatcherVerdict(m, t);
    AlbertOthersFail(t.receiver);
    ExactMeaning("albert", t.receiver);
    assert rs[1] == Rule(Exact("albert"), DateTuple([Date(2025, 3, 8), Date(2025, 3, 9)]));
    assert Search(rs[1].pattern, t.receiver);
    assert Matches(m, t) <==> InWindow(rs[1].when, t.date);
  }

  class Category {
    const name: string
    const matcher: Matcher
    const flow: FlowDirection
    /** `_transactions`, in the order they were added until `get_transactions` sorts them. */
    var transactions: seq<Transaction>
    /** `_total`, kept up to date by `add_transaction`. */
    var total: int

    /** The running total is the sum of the collected amounts. */
    ghost predicate Valid()
      reads this
    {
      total == Sum(transactions)
    }

    /** A category with the given name, rule and flow direction and no transactions. */
    constructor(name: string, matcher: Matcher, flow: FlowDirection)
      ensures this.name == name && this.matcher == matcher && this.flow == flow
      ensures transactions == [] && total == 0
      ensures Valid()
    {
      this.name := name;
      this.matcher := matcher;
      this.flow := flow;
      transactions := [];
      total := 0;
    }

    /** One of the twenty concrete categories, e.g. `Groceries()`. */
    constructor Of(kind: Kind)
      ensures name == NameOf(kind) && matcher == MatcherOf(kind) && flow == FlowOf(kind)
      ensures transactions == [] && total == 0
      ensures Valid()
    {
      name := NameOf(kind);
      matcher := MatcherOf(kind);
      flow := FlowOf(kind);
      transactions := [];
      total := 0;
    }

    function GetName(): string
    {
      name
    }

    /** `add_transaction`: append the transaction and add its amount to the total. */
    method AddTransaction(t: Transaction)
      modifies this
      ensures transactions == old(transactions) + [t]
      ensures total == old(total) + t.amount
      ensures old(Valid()) ==> Valid()
    {
      SumAppend(transactions, t);
      transactions := transactions + [t];
      total := total + t.amount;
    }

    /**
     * `get_total`: the running total, which is the sum of the amounts of the
     * transactions added so far whenever the category was built and updated
     * through its own methods.
     */
    function GetTotal(): (r: int)
      reads this
      ensures Valid() ==> r == Sum(transactions)
    {
      total
    }

    /**
     * `get_transactions`: sort the collected transactions in place (tuple
     * order) and return them. The sort neither adds nor drops a transaction
     * and leaves the total unchanged.
     */
    method GetTransactions() returns (r: seq<Transaction>)
      modifies this
      ensures transactions == SortTxs(old(transactions)) && r == transactions
      ensures total == old(total)
      ensures SortedBy(r, TxLess) && multiset(r) == multiset(old(transactions))
      ensures old(Valid()) ==> Valid()
    {
      SortTxsFacts(transactions);
      transactions := SortTxs(transactions);
      r := transactions;
    }

    /** `is_matched`; its meaning is given by `MatcherVerdict`. */
    function IsMatched(t: Transaction): Result<bool, MatchError>
    {
      IsMatchedBy(matcher, t)
    }

    function GetFlowDirection(): FlowDirection
    {
      flow
    }
  }
}
