/**
 * Python's ordering machinery as the model needs it: strict total orders,
 * the lexicographic order Python uses for str and tuple comparison, and the
 * sort that `list.sort()` performs (any correct sort gives the same list
 * under a strict total order, so an insertion sort stands for it).
 */
module Ordering {

  /** `lt` is a strict total order: irreflexive, transitive and total on distinct values. */
  ghost predicate StrictTotal<T(!new)>(lt: (T, T) -> bool)
  {
    && (forall x :: !lt(x, x))
    && (forall x, y, z :: lt(x, y) && lt(y, z) ==> lt(x, z))
    && (forall x, y :: x != y ==> lt(x, y) || lt(y, x))
  }

  /**
   * Python's sequence comparison `a < b`: the first position where the
   * elements differ decides; a proper prefix is smaller.
   */
  function LexLess<T(==)>(a: seq<T>, b: seq<T>, lt: (T, T) -> bool): bool
    decreases |a|
  {
    if a == [] then b != []
    else if b == [] then false
    else if a[0] == b[0] then LexLess(a[1..], b[1..], lt)
    else lt(a[0], b[0])
  }

  lemma {:induction false} LexIrreflexive<T>(a: seq<T>, lt: (T, T) -> bool)
    ensures !LexLess(a, a, lt)
    decreases |a|
  {
    if a != [] {
      LexIrreflexive(a[1..], lt);
    }
  }

  lemma {:induction false} LexTransitive<T(!new)>(a: seq<T>, b: seq<T>, c: seq<T>, lt: (T, T) -> bool)
    requires StrictTotal(lt)
    requires LexLess(a, b, lt) && LexLess(b, c, lt)
    ensures LexLess(a, c, lt)
    decreases |a|
  {
    assert b != [] && c != [];
    if a != [] {
      if a[0] == b[0] && b[0] == c[0] {
        LexTransitive(a[1..], b[1..], c[1..], lt);
      } else if a[0] == b[0] {
        assert lt(b[0], c[0]);
        assert a[0] != c[0];
      } else if b[0] == c[0] {
        assert lt(a[0], b[0]);
        assert a[0] != c[0];
      } else {
        assert lt(a[0], b[0]) && lt(b[0], c[0]);
        assert a[0] != c[0];
      }
    }
  }

  lemma {:induction false} LexTotal<T(!new)>(a: seq<T>, b: seq<T>, lt: (T, T) -> bool)
    requires StrictTotal(lt)
    requires a != b
    ensures LexLess(a, b, lt) || LexLess(b, a, lt)
    decreases |a|
  {
    if a != [] && b != [] && a[0] == b[0] {
      assert a == [a[0]] + a[1..] && b == [b[0]] + b[1..];
      LexTotal(a[1..], b[1..], lt);
    }
  }

  /** The lexicographic extension of a strict total order is again one. */
  lemma LexStrictTotal<T(!new)>(lt: (T, T) -> bool)
    requires StrictTotal(lt)
    ensures StrictTotal((a: seq<T>, b: seq<T>) => LexLess(a, b, lt))
  {
    forall a: seq<T> ensures !LexLess(a, a, lt) {
      LexIrreflexive(a, lt);
    }
    forall a: seq<T>, b: seq<T>, c: seq<T> | LexLess(a, b, lt) && LexLess(b, c, lt)
      ensures LexLess(a, c, lt)
    {
      LexTransitive(a, b, c, lt);
    }
    forall a: seq<T>, b: seq<T> | a != b ensures LexLess(a, b, lt) || LexLess(b, a, lt) {
      LexTotal(a, b, lt);
    }
  }

  /** Every pair of positions is in order: no later element is smaller than an earlier one. */
  ghost predicate SortedBy<T>(s: seq<T>, lt: (T, T) -> bool)
  {
    forall i, j :: 0 <= i < j < |s| ==> !lt(s[j], s[i])
  }

  /** Inserts `x` before the first element that is not smaller than it. */
  function Insert<T>(x: T, s: seq<T>, lt: (T, T) -> bool): seq<T>
  {
    if s == [] then [x]
    else if lt(s[0], x) then [s[0]] + Insert(x, s[1..], lt)
    else [x] + s
  }

  /** The sorted rearrangement of `s` that `list.sort()` produces. */
  function Sort<T>(s: seq<T>, lt: (T, T) -> bool): seq<T>
  {
    if s == [] then [] else Insert(s[0], Sort(s[1..], lt), lt)
  }

  lemma {:induction false} InsertPermutes<T>(x: T, s: seq<T>, lt: (T, T) -> bool)
    ensures multiset(Insert(x, s, lt)) == multiset(s) + multiset{x}
  {
    if s != [] && lt(s[0], x) {
      InsertPermutes(x, s[1..], lt);
      assert s == [s[0]] + s[1..];
    }
  }

  lemma {:induction false} SortPermutes<T>(s: seq<T>, lt: (T, T) -> bool)
    ensures multiset(Sort(s, lt)) == multiset(s)
  {
    if s != [] {
      SortPermutes(s[1..], lt);
      InsertPermutes(s[0], Sort(s[1..], lt), lt);
      assert s == [s[0]] + s[1..];
    }
  }

  lemma {:induction false} InsertSorted<T(!new)>(x: T, s: seq<T>, lt: (T, T) -> bool)
    requires StrictTotal(lt) && SortedBy(s, lt)
    ensures SortedBy(Insert(x, s, lt), lt)
  {
    if s != [] {
      if lt(s[0], x) {
        var rest := Insert(x, s[1..], lt);
        InsertSorted(x, s[1..], lt);
        InsertPermutes(x, s[1..], lt);
        forall j | 0 <= j < |rest| ensures !lt(rest[j], s[0]) {
          assert rest[j] in multiset(rest);
          if rest[j] != x {
            assert rest[j] in multiset(s[1..]);
            var k :| 0 <= k < |s[1..]| && s[1..][k] == rest[j];
            assert s[k + 1] == rest[j];
          }
        }
      } else {
        var r := [x] + s;
        forall i, j | 0 <= i < j < |r| ensures !lt(r[j], r[i]) {
          if i == 0 && j > 1 {
            assert !lt(s[j - 1], s[0]);
            assert s[j - 1] == s[0] || lt(s[0], s[j - 1]);
          }
        }
      }
    }
  }

  lemma {:induction false} SortSorted<T(!new)>(s: seq<T>, lt: (T, T) -> bool)
    requires StrictTotal(lt)
    ensures SortedBy(Sort(s, lt), lt)
  {
    if s != [] {
      SortSorted(s[1..], lt);
      InsertSorted(s[0], Sort(s[1..], lt), lt);
    }
  }

  /** Sorting a list that is already in order leaves it as it is. */
  lemma {:induction false} SortOfSorted<T>(s: seq<T>, lt: (T, T) -> bool)
    requires SortedBy(s, lt)
    ensures Sort(s, lt) == s
  {
    if s != [] {
      assert SortedBy(s[1..], lt) by {
        forall i, j | 0 <= i < j < |s[1..]| ensures !lt(s[1..][j], s[1..][i]) {
          assert s[1..][j] == s[j + 1] && s[1..][i] == s[i + 1];
        }
      }
      SortOfSorted(s[1..], lt);
      if |s| > 1 {
        assert !lt(s[1], s[0]);
      }
      assert s == [s[0]] + s[1..];
    }
  }

  /** Every element is smaller than every later one: in order and without repeats. */
  ghost predicate StrictlySorted<T>(s: seq<T>, lt: (T, T) -> bool)
  {
    forall i, j :: 0 <= i < j < |s| ==> lt(s[i], s[j])
  }

  /** Inserting a new element into a strictly sorted list keeps it strictly sorted. */
  lemma {:induction false} InsertStrictlySorted<T(!new)>(x: T, s: seq<T>, lt: (T, T) -> bool)
    requires StrictTotal(lt) && StrictlySorted(s, lt) && x !in s
    ensures StrictlySorted(Insert(x, s, lt), lt)
    ensures forall y :: y in Insert(x, s, lt) <==> y == x || y in s
  {
    if s != [] {
      var r := Insert(x, s, lt);
      if lt(s[0], x) {
        var rest := Insert(x, s[1..], lt);
        assert StrictlySorted(s[1..], lt) by {
          forall i, j | 0 <= i < j < |s[1..]| ensures lt(s[1..][i], s[1..][j]) {
            assert s[1..][i] == s[i + 1] && s[1..][j] == s[j + 1];
          }
        }
        InsertStrictlySorted(x, s[1..], lt);
        assert r == [s[0]] + rest;
        forall j | 0 <= j < |rest| ensures lt(s[0], rest[j]) {
          assert rest[j] in rest;
          if rest[j] != x {
            var k :| 0 <= k < |s[1..]| && s[1..][k] == rest[j];
            assert s[k + 1] == rest[j];
          }
        }
        forall i, j | 0 <= i < j < |r| ensures lt(r[i], r[j]) {
          if i > 0 {
            assert r[i] == rest[i - 1] && r[j] == rest[j - 1];
          } else {
            assert r[j] == rest[j - 1];
          }
        }
      } else {
        assert r == [x] + s;
        assert lt(x, s[0]);
        forall i, j | 0 <= i < j < |r| ensures lt(r[i], r[j]) {
          if i > 0 {
            assert r[i] == s[i - 1] && r[j] == s[j - 1];
          } else if j > 1 {
            assert lt(s[0], s[j - 1]);
          }
        }
      }
    }
  }
}
