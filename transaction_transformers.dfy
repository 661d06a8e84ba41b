/**
 * The field normaliser: every record with its sender, receiver and currency
 * lower-cased, so that the category rules can match in lower case.
 */
module TransactionTransformers {
  import opened Strings
  import opened Transactions

  /** One record with its three text fields lower-cased. */
  function LowercaseFields(t: Transaction): Transaction
  {
    t.(sender := Lower(t.sender), receiver := Lower(t.receiver), currency := Lower(t.currency))
  }

  /**
   * `lowercase_str_fields`: record by record, in order, sender, receiver and
   * currency come out equal to the lower-cased input (so with no capital
   * letter left); every other field is as it was.
   */
  function LowercaseStrFields(txs: seq<Transaction>): (r: seq<Transaction>)
    ensures |r| == |txs|
    ensures forall i :: 0 <= i < |txs| ==>
      r[i].sender == Lower(txs[i].sender) && r[i].receiver == Lower(txs[i].receiver) &&
      r[i].currency == Lower(txs[i].currency)
    ensures forall i :: 0 <= i < |txs| ==>
      r[i].accountNumber == txs[i].accountNumber && r[i].date == txs[i].date &&
      r[i].balanceBefore == txs[i].balanceBefore && r[i].balanceAfter == txs[i].balanceAfter &&
      r[i].amount == txs[i].amount && r[i].description == txs[i].description
    ensures forall i, k :: 0 <= i < |txs| && 0 <= k < |r[i].receiver| ==> !IsUpper(r[i].receiver[k])
  {
    seq(|txs|, i requires 0 <= i < |txs| => LowercaseFields(txs[i]))
  }

  /** Normalising twice is normalising once. */
  lemma LowercaseStrFieldsIdempotent(txs: seq<Transaction>)
    ensures LowercaseStrFields(LowercaseStrFields(txs)) == LowercaseStrFields(txs)
  {
    var once := LowercaseStrFields(txs);
    forall i | 0 <= i < |txs|
      ensures LowercaseStrFields(once)[i] == once[i]
    {
      var t := txs[i];
      LowerIdempotent(t.sender);
      LowerIdempotent(t.receiver);
      LowerIdempotent(t.currency);
    }
  }

  /** Normalising a concatenation normalises each part. */
  lemma LowercaseStrFieldsConcat(a: seq<Transaction>, b: seq<Transaction>)
    ensures LowercaseStrFields(a + b) == LowercaseStrFields(a) + LowercaseStrFields(b)
  {
    var r, s := LowercaseStrFields(a + b), LowercaseStrFields(a) + LowercaseStrFields(b);
    forall i | 0 <= i < |a| + |b| ensures r[i] == s[i] {
      if i >= |a| {
        assert (a + b)[i] == b[i - |a|];
      }
    }
  }

  /** Amounts pass through unchanged, so sums are unchanged. */
  lemma {:induction false} LowercaseStrFieldsKeepsSum(txs: seq<Transaction>)
    ensures Sum(LowercaseStrFields(txs)) == Sum(txs)
  {
    if txs != [] {
      LowercaseStrFieldsKeepsSum(txs[1..]);
      assert LowercaseStrFields(txs)[1..] == LowercaseStrFields(txs[1..]);
    }
  }
}
