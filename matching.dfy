/**
 * The matching rules of the categories: `match_receiver_and_date`, which
 * pairs a pattern search on the receiver with an optional date
 * constraint, and the `any(...)` over a category's rule list.
 */
module Matching {
  import opened Wrappers
  import opened Transactions
  import opened Patterns

  /**
   * The `match_date` argument: `None`, a `date`, a tuple (which must hold
   * exactly two dates), or a value of any other type.
   */
  datatype DateConstraint =
    | NoDate
    | OnDate(date: Date)
    | DateTuple(dates: seq<Date>)
    | OtherValue

  /** `assert len(match_date) == 2` failing, and the `ValueError` for an unexpected type. */
  datatype MatchError = TupleLengthAssertion | UnexpectedType

  /** One entry of a rule list: a pattern and its date constraint. */
  datatype Rule = Rule(pattern: Pattern, when: DateConstraint)

  /** A category's `is_matched`: `any(...)` over a rule list, or the constant `False`. */
  datatype Matcher = AnyRule(rules: seq<Rule>) | Never

  /** The date lies in the window the constraint describes (both ends included). */
  predicate InWindow(when: DateConstraint, d: Date)
    requires WellFormed(when)
  {
    match when
    case NoDate => true
    case OnDate(x) => d == x
    case DateTuple(ds) => DateLessEq(ds[0], d) && DateLessEq(d, ds[1])
  }

  /** `match_receiver_and_date(pattern, match_date, transaction)`. */
  function MatchReceiverAndDate(pattern: Pattern, when: DateConstraint, t: Transaction): (r: Result<bool, MatchError>)
    ensures when.NoDate? ==> r == Success(Search(pattern, t.receiver))
    ensures when.OnDate? || (when.DateTuple? && |when.dates| == 2) ==>
      WellFormed(when) && r == Success(Search(pattern, t.receiver) && InWindow(when, t.date))
    ensures when.DateTuple? && |when.dates| != 2 ==> r == Failure(TupleLengthAssertion)
    ensures when.OtherValue? ==> r == Failure(UnexpectedType)
  {
    var found := Search(pattern, t.receiver);
    match when
    case NoDate => Success(found)
    case DateTuple(ds) =>
      if |ds| != 2 then Failure(TupleLengthAssertion)
      else Success(found && !DateLess(t.date, ds[0]) && !DateLess(ds[1], t.date))
    case OnDate(x) => Success(found && t.date == x)
    case OtherValue => Failure(UnexpectedType)
  }

  function MatchRule(rule: Rule, t: Transaction): Result<bool, MatchError>
  {
    MatchReceiverAndDate(rule.pattern, rule.when, t)
  }

  /**
   * `any(match(rule) for rule in rules)`: rules are tried in order, the
   * first `True` stops the search, and an error raised by a rule tried
   * before that propagates.
   */
  function AnyMatch(rules: seq<Rule>, t: Transaction): Result<bool, MatchError>
  {
    if rules == [] then Success(false)
    else
      match MatchRule(rules[0], t)
      case Failure(e) => Failure(e)
      case Success(true) => Success(true)
      case Success(false) => AnyMatch(rules[1..], t)
  }

  /**
   * `any(...)` answers `True` only if some rule does; with no raising rule
   * it answers whether some rule matches; a raise comes from one of the rules.
   */
  lemma {:induction false} AnyMatchMeaning(rules: seq<Rule>, t: Transaction)
    ensures var r := AnyMatch(rules, t);
      && (r == Success(true) ==> exists k :: 0 <= k < |rules| && MatchRule(rules[k], t) == Success(true))
      && ((forall k :: 0 <= k < |rules| ==> MatchRule(rules[k], t).Success?) ==>
           r == Success(exists k :: 0 <= k < |rules| && MatchRule(rules[k], t) == Success(true)))
      && (r.Failure? ==> exists k :: 0 <= k < |rules| && MatchRule(rules[k], t) == Failure(r.error))
  {
    if rules != [] && MatchRule(rules[0], t) == Success(false) {
      AnyMatchMeaning(rules[1..], t);
      assert forall k :: 0 <= k < |rules| - 1 ==> rules[1..][k] == rules[k + 1];
    }
  }

  /** A constraint of one of the three accepted shapes. */
  predicate WellFormed(when: DateConstraint)
  {
    when.NoDate? || when.OnDate? || (when.DateTuple? && |when.dates| == 2)
  }

  /** Every date constraint in the list is `None`, a date, or a pair of dates. */
  predicate NeverRaises(rules: seq<Rule>)
  {
    forall k :: 0 <= k < |rules| ==> WellFormed(rules[k].when)
  }

  /** With well-formed constraints only, a rule list never raises. */
  lemma {:induction false} AnyMatchWellFormed(rules: seq<Rule>, t: Transaction)
    requires NeverRaises(rules)
    ensures AnyMatch(rules, t).Success?
    ensures AnyMatch(rules, t).value <==>
      exists k :: 0 <= k < |rules| && WellFormed(rules[k].when)
        && Search(rules[k].pattern, t.receiver) && InWindow(rules[k].when, t.date)
  {
    forall k | 0 <= k < |rules| ensures MatchRule(rules[k], t).Success? {
      assert WellFormed(rules[k].when);
    }
    AnyMatchMeaning(rules, t);
  }

  function IsMatchedBy(m: Matcher, t: Transaction): Result<bool, MatchError>
  {
    match m
    case Never => Success(false)
    case AnyRule(rules) => AnyMatch(rules, t)
  }
}
