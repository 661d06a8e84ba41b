/**
 * The string operations of Python's `str` that the modelled code uses:
 * whitespace (`str.isspace`, the `\s` of `re`), `lower()` restricted to
 * ASCII, `startswith`/`endswith`, `split()` with no argument, `' '.join`,
 * and the code-point order of `<` on `str`.
 */
module Strings {
  import opened Ordering
  import opened Sequences

  /** The characters `str.isspace()` (and `\s` in a `str` pattern) accepts. */
  predicate IsSpace(c: char)
  {
    || c == ' '
    || '\t' <= c <= '\r'
    || '\U{1c}' <= c <= '\U{1f}'
    || c == '\U{85}' || c == '\U{a0}' || c == '\U{1680}'
    || '\U{2000}' <= c <= '\U{200a}'
    || c == '\U{2028}' || c == '\U{2029}' || c == '\U{202f}' || c == '\U{205f}' || c == '\U{3000}'
  }

  predicate IsUpper(c: char)
  {
    'A' <= c <= 'Z'
  }

  function LowerChar(c: char): (r: char)
    ensures !IsUpper(r)
    ensures IsUpper(c) ==> r as int == c as int + 32
    ensures !IsUpper(c) ==> r == c
  {
    if IsUpper(c) then (c as int + 32) as char else c
  }

  /** `s.lower()` for ASCII letters; every other character is kept. */
  function Lower(s: string): (r: string)
    ensures |r| == |s|
    ensures forall i :: 0 <= i < |s| ==> r[i] == LowerChar(s[i])
  {
    seq(|s|, i requires 0 <= i < |s| => LowerChar(s[i]))
  }

  lemma LowerIdempotent(s: string)
    ensures Lower(Lower(s)) == Lower(s)
  {
  }

  predicate StartsWith(s: string, prefix: string)
  {
    |prefix| <= |s| && s[..|prefix|] == prefix
  }

  predicate EndsWith(s: string, suffix: string)
  {
    |suffix| <= |s| && s[|s| - |suffix|..] == suffix
  }

  /** `a < b` on Python strings: code points compared lexicographically. */
  function CharLess(x: char, y: char): bool
  {
    x < y
  }

  function StrLess(a: string, b: string): bool
  {
    LexLess(a, b, CharLess)
  }

  lemma StrLessStrictTotal()
    ensures StrictTotal(StrLess)
  {
    assert StrictTotal(CharLess);
    LexStrictTotal(CharLess);
    assert forall a, b :: StrLess(a, b) == ((a: string, b: string) => LexLess(a, b, CharLess))(a, b);
  }

  /** Drops the leading whitespace of `s`. */
  function TrimStart(s: string): (r: string)
    ensures |r| <= |s| && r == s[|s| - |r|..]
    ensures r == [] || !IsSpace(r[0])
    ensures forall i :: 0 <= i < |s| - |r| ==> IsSpace(s[i])
  {
    if s != [] && IsSpace(s[0]) then TrimStart(s[1..]) else s
  }

  /** The length of the run of non-whitespace characters that starts `s`. */
  function WordLength(s: string): (n: nat)
    ensures n <= |s|
    ensures forall i :: 0 <= i < n ==> !IsSpace(s[i])
    ensures n == |s| || IsSpace(s[n])
  {
    if s == [] || IsSpace(s[0]) then 0 else 1 + WordLength(s[1..])
  }

  /** A field of `split()`: non-empty and free of whitespace. */
  predicate IsWord(w: string)
  {
    w != [] && forall i :: 0 <= i < |w| ==> !IsSpace(w[i])
  }

  /** `s.rstrip()`: the text without its trailing whitespace. */
  function TrimEnd(s: string): (r: string)
    ensures |r| <= |s| && r == s[..|r|]
    ensures r == [] || !IsSpace(r[|r| - 1])
    ensures forall i :: |r| <= i < |s| ==> IsSpace(s[i])
  {
    if s == [] || !IsSpace(s[|s| - 1]) then s else TrimEnd(s[..|s| - 1])
  }

  /** `s.strip()`: the text without leading or trailing whitespace. */
  function Strip(s: string): string
  {
    TrimEnd(TrimStart(s))
  }

  /** `s.split()`: the maximal runs of non-whitespace characters, in order. */
  function Split(s: string): (ws: seq<string>)
    ensures forall k :: 0 <= k < |ws| ==> IsWord(ws[k])
    decreases |s|
  {
    var t := TrimStart(s);
    if t == [] then []
    else
      var n := WordLength(t);
      var rest := Split(t[n..]);
      assert IsWord(t[..n]);
      WordsCons(t[..n], rest);
      [t[..n]] + rest
  }

  lemma WordsCons(w: string, ws: seq<string>)
    requires IsWord(w) && forall k :: 0 <= k < |ws| ==> IsWord(ws[k])
    ensures forall k :: 0 <= k < |[w] + ws| ==> IsWord(([w] + ws)[k])
  {
    forall k | 0 <= k < |[w] + ws| ensures IsWord(([w] + ws)[k]) {
      if k > 0 {
        assert ([w] + ws)[k] == ws[k - 1];
      }
    }
  }

  /** Fields followed by fields are fields. */
  lemma WordsAppend(a: seq<string>, b: seq<string>)
    requires forall k :: 0 <= k < |a| ==> IsWord(a[k])
    requires forall k :: 0 <= k < |b| ==> IsWord(b[k])
    ensures forall k :: 0 <= k < |a + b| ==> IsWord((a + b)[k])
  {
  }

  /** `sep.join(ws)`. */
  function Join(ws: seq<string>, sep: string): string
  {
    if ws == [] then ""
    else if |ws| == 1 then ws[0]
    else ws[0] + sep + Join(ws[1..], sep)
  }

  lemma {:induction false} JoinStartsWithWord(ws: seq<string>)
    requires forall k :: 0 <= k < |ws| ==> IsWord(ws[k])
    ensures ws == [] <==> Join(ws, " ") == []
    ensures ws != [] ==> IsWord(ws[0]) && |Join(ws, " ")| > 0 && Join(ws, " ")[0] == ws[0][0]
  {
    if |ws| > 1 {
      assert IsWord(ws[0]);
      assert Join(ws, " ") == ws[0] + (" " + Join(ws[1..], " "));
    }
  }

  /**
   * Joining whitespace-free, non-empty fields with single spaces and
   * splitting again gives the fields back.
   */
  lemma {:induction false} SplitJoin(ws: seq<string>)
    requires forall k :: 0 <= k < |ws| ==> IsWord(ws[k])
    ensures Split(Join(ws, " ")) == ws
    decreases |ws|
  {
    if ws == [] {
      assert Join(ws, " ") == [];
      SplitEmpty();
    } else if |ws| == 1 {
      assert Join(ws, " ") == ws[0] + [];
      SplitWordThen(ws[0], []);
      SplitEmpty();
    } else {
      var rest := Join(ws[1..], " ");
      assert Join(ws, " ") == ws[0] + (" " + rest);
      assert Split(Join(ws, " ")) == [ws[0]] + Split(" " + rest) by {
        assert IsWord(ws[0]);
        SplitWordThen(ws[0], " " + rest);
      }
      assert Split(" " + rest) == ws[1..] by {
        SplitLeadingSpace(rest);
        forall k | 0 <= k < |ws[1..]| ensures IsWord(ws[1..][k]) {
          assert ws[1..][k] == ws[k + 1];
        }
        SplitJoin(ws[1..]);
      }
      HeadTail(ws);
    }
  }

  lemma SplitEmpty()
    ensures Split([]) == []
  {
    assert TrimStart([]) == [];
  }

  lemma SplitLeadingSpace(t: string)
    ensures Split(" " + t) == Split(t)
  {
    assert AllSpace(" ") by {
      assert |" "| == 1 && " "[0] == ' ';
    }
    SplitSkipsSpace(" ", t);
  }

  /** A word followed by whitespace (or nothing) is split off as the first field. */
  lemma SplitWordThen(w: string, tail: string)
    requires IsWord(w)
    requires tail == [] || IsSpace(tail[0])
    ensures Split(w + tail) == [w] + Split(tail)
  {
    var s := w + tail;
    assert TrimStart(s) == s;
    WordLengthOfWord(w, tail);
    assert s[..|w|] == w;
    assert s[|w|..] == tail;
  }

  lemma {:induction false} WordLengthOfWord(w: string, tail: string)
    requires IsWord(w)
    requires tail == [] || IsSpace(tail[0])
    ensures WordLength(w + tail) == |w|
    decreases |w|
  {
    if |w| > 1 {
      assert (w + tail)[1..] == w[1..] + tail;
      WordLengthOfWord(w[1..], tail);
    } else {
      assert (w + tail)[1..] == tail;
    }
  }

  /** `g` is nothing but whitespace (possibly nothing at all). */
  predicate AllSpace(g: string)
  {
    forall i :: 0 <= i < |g| ==> IsSpace(g[i])
  }

  /** Whitespace in front of a text is dropped by `TrimStart`. */
  lemma {:induction false} TrimStartSkipsSpace(g: string, t: string)
    requires AllSpace(g)
    ensures TrimStart(g + t) == TrimStart(t)
    decreases |g|
  {
    if g != [] {
      assert TrimStart(g + t) == TrimStart(g[1..] + t) by {
        var s := g + t;
        assert s[0] == g[0];
        assert s[1..] == g[1..] + t;
      }
      assert AllSpace(g[1..]) by {
        assert forall i :: 0 <= i < |g[1..]| ==> g[1..][i] == g[i + 1];
      }
      TrimStartSkipsSpace(g[1..], t);
    } else {
      assert g + t == t;
    }
  }

  /** `split()` looks at a text only from its first non-whitespace character on. */
  lemma SplitOfTrimmed(a: string, b: string)
    requires TrimStart(a) == TrimStart(b)
    ensures Split(a) == Split(b)
  {
  }

  /** Whitespace in front of a text is skipped by `split()`. */
  lemma SplitSkipsSpace(g: string, t: string)
    requires AllSpace(g)
    ensures Split(g + t) == Split(t)
  {
    TrimStartSkipsSpace(g, t);
    SplitOfTrimmed(g + t, t);
  }

  /**
   * Fields with whitespace runs around and between them:
   * `gaps[0] + ws[0] + gaps[1] + … + ws[n - 1] + gaps[n]`.
   */
  function Spaced(ws: seq<string>, gaps: seq<string>): string
    requires |gaps| == |ws| + 1
    decreases |ws|
  {
    if ws == [] then gaps[0] else gaps[0] + ws[0] + Spaced(ws[1..], gaps[1..])
  }

  /**
   * `ws` are fields and `gaps` the whitespace runs around them, a run
   * between two fields being non-empty.
   */
  predicate Gapped(ws: seq<string>, gaps: seq<string>)
  {
    && |gaps| == |ws| + 1
    && (forall k :: 0 <= k < |ws| ==> IsWord(ws[k]))
    && (forall k :: 0 <= k < |gaps| ==> AllSpace(gaps[k]))
    && (forall k :: 0 < k < |ws| ==> gaps[k] != [])
  }

  /** Dropping the first field and the run before it leaves a spaced text again. */
  lemma GappedTail(ws: seq<string>, gaps: seq<string>)
    requires Gapped(ws, gaps) && ws != []
    ensures Gapped(ws[1..], gaps[1..])
    ensures IsWord(ws[0]) && AllSpace(gaps[0])
    ensures |ws| > 1 ==> gaps[1] != []
  {
    assert forall k :: 0 <= k < |ws[1..]| ==> ws[1..][k] == ws[k + 1];
    assert forall k :: 0 <= k < |gaps[1..]| ==> gaps[1..][k] == gaps[k + 1];
  }

  /** A spaced text whose first run is empty only when there are no fields starts with whitespace or is empty. */
  lemma SpacedStart(ws: seq<string>, gaps: seq<string>)
    requires Gapped(ws, gaps) && (ws != [] ==> gaps[0] != [])
    ensures Spaced(ws, gaps) == [] || IsSpace(Spaced(ws, gaps)[0])
  {
    if ws != [] {
      assert IsSpace(gaps[0][0]);
      assert Spaced(ws, gaps) == gaps[0] + (ws[0] + Spaced(ws[1..], gaps[1..]));
    }
  }

  /**
   * However the fields are spaced (any whitespace before the first, after
   * the last, and a non-empty run between two), `split()` gives the fields
   * back in order.
   */
  lemma {:induction false} SplitSpaced(ws: seq<string>, gaps: seq<string>)
    requires Gapped(ws, gaps)
    ensures Split(Spaced(ws, gaps)) == ws
    decreases |ws|
  {
    if ws == [] {
      assert Spaced(ws, gaps) == gaps[0] + [];
      SplitSkipsSpace(gaps[0], []);
      SplitEmpty();
    } else {
      GappedTail(ws, gaps);
      var rest := Spaced(ws[1..], gaps[1..]);
      SpacedStart(ws[1..], gaps[1..]);
      assert Spaced(ws, gaps) == gaps[0] + (ws[0] + rest);
      SplitSkipsSpace(gaps[0], ws[0] + rest);
      SplitWordThen(ws[0], rest);
      SplitSpaced(ws[1..], gaps[1..]);
      HeadTail(ws);
    }
  }

  /** `w` occurs in `s` at position `i`. */
  predicate InfixAt(w: string, s: string, i: nat)
  {
    i + |w| <= |s| && s[i..i + |w|] == w
  }

  /** `w in s` for strings. */
  predicate Contains(s: string, w: string)
  {
    exists i: nat | i <= |s| :: InfixAt(w, s, i)
  }

  lemma InfixShift(w: string, a: string, b: string, i: nat)
    requires InfixAt(w, b, i)
    ensures InfixAt(w, a + b, |a| + i)
  {
    assert (a + b)[|a| + i..|a| + i + |w|] == b[i..i + |w|];
  }

  /** A text found in the middle part is found in the whole. */
  lemma ContainsWithin(w: string, a: string, b: string, c: string)
    requires Contains(b, w)
    ensures Contains(a + b + c, w)
  {
    var i: nat :| InfixAt(w, b, i);
    InfixShift(w, a, b, i);
    assert (a + b + c)[|a| + i..|a| + i + |w|] == (a + b)[|a| + i..|a| + i + |w|];
    assert InfixAt(w, a + b + c, |a| + i);
  }

  /** Every joined item can be found in the joined string. */
  lemma {:induction false} JoinContains(ws: seq<string>, sep: string, k: nat)
    requires k < |ws|
    ensures Contains(Join(ws, sep), ws[k])
    decreases |ws|
  {
    var j := Join(ws, sep);
    if |ws| == 1 {
      assert InfixAt(ws[0], j, 0);
    } else if k == 0 {
      assert j == ws[0] + (sep + Join(ws[1..], sep));
      assert j[0..|ws[0]|] == ws[0];
      assert InfixAt(ws[0], j, 0);
    } else {
      var rest := Join(ws[1..], sep);
      assert j == (ws[0] + sep) + rest;
      JoinContains(ws[1..], sep, k - 1);
      assert ws[1..][k - 1] == ws[k];
      var i: nat :| InfixAt(ws[k], rest, i);
      InfixShift(ws[k], ws[0] + sep, rest, i);
    }
  }
}
