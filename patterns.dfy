/**
 * The part of Python's `re` that the category rule lists use, searched
 * with `pattern.search(receiver)` (no flags).
 *
 * A pattern is an optional `^` anchor followed by a sequence of pieces:
 * literal text, an optional literal group `(...)?`, a single character
 * class, `*` and `+` over a character class, `$`, and the group
 * `(?:\s|$)`. Alternations `(a|b)` in the rule lists are written as two
 * rules of the same list, which the list's `any(...)` joins again.
 */
module Patterns {
  import opened Strings

  /** A one-character class. */
  datatype Sym =
    | Ch(c: char)       // the character itself
    | AnyChar           // `.`: anything but a newline
    | Space             // `\s`
    | Digit             // `[0-9]`
    | LowerAlnum        // `[a-z0-9]`
    | LowerAlnumDot     // `[a-z0-9\.]`

  predicate SymMatches(sym: Sym, c: char)
  {
    match sym
    case Ch(x) => c == x
    case AnyChar => c != '\n'
    case Space => IsSpace(c)
    case Digit => '0' <= c <= '9'
    case LowerAlnum => 'a' <= c <= 'z' || '0' <= c <= '9'
    case LowerAlnumDot => 'a' <= c <= 'z' || '0' <= c <= '9' || c == '.'
  }

  datatype Piece =
    | Text(w: string)     // the literal text w
    | OptText(w: string)  // `(w)?`
    | One(sym: Sym)       // exactly one character of the class
    | Star(sym: Sym)      // `sym*`
    | Plus(sym: Sym)      // `sym+`
    | End                 // `$`
    | SpaceOrEnd          // `(?:\s|$)`

  datatype Pattern = Pattern(anchored: bool, pieces: seq<Piece>)

  /** Where `$` matches: at the end, or just before a final newline. */
  predicate AtEnd(s: string, i: nat)
  {
    i == |s| || (i + 1 == |s| && s[i] == '\n')
  }

  /** `w` occurs in `s` at position `i`. */
  predicate TextAt(w: string, s: string, i: nat)
    ensures TextAt(w, s, i) ==> i + |w| <= |s|
    decreases |w|
  {
    if w == [] then i <= |s|
    else i < |s| && s[i] == w[0] && TextAt(w[1..], s, i + 1)
  }

  lemma {:induction false} TextAtSlice(w: string, s: string, i: nat)
    ensures TextAt(w, s, i) <==> i + |w| <= |s| && s[i..i + |w|] == w
    decreases |w|
  {
    if w != [] {
      TextAtSlice(w[1..], s, i + 1);
      if i + |w| <= |s| {
        assert s[i..i + |w|] == [s[i]] + s[i + 1..i + |w|];
        assert w == [w[0]] + w[1..];
      }
    }
  }

  /** The pieces `ps` match `s` starting at position `i` (the match may stop before the end). */
  predicate MatchFrom(ps: seq<Piece>, s: string, i: nat)
    requires i <= |s|
    decreases |s| - i, |ps|
  {
    if ps == [] then true
    else
      match ps[0]
      case Text(w) => TextAt(w, s, i) && MatchFrom(ps[1..], s, i + |w|)
      case OptText(w) =>
        (TextAt(w, s, i) && MatchFrom(ps[1..], s, i + |w|)) || MatchFrom(ps[1..], s, i)
      case One(sym) => i < |s| && SymMatches(sym, s[i]) && MatchFrom(ps[1..], s, i + 1)
      case Star(sym) =>
        MatchFrom(ps[1..], s, i) || (i < |s| && SymMatches(sym, s[i]) && MatchFrom(ps, s, i + 1))
      case Plus(sym) =>
        i < |s| && SymMatches(sym, s[i]) && MatchFrom([Star(sym)] + ps[1..], s, i + 1)
      case End => AtEnd(s, i) && MatchFrom(ps[1..], s, i)
      case SpaceOrEnd =>
        (i < |s| && IsSpace(s[i]) && MatchFrom(ps[1..], s, i + 1)) || (AtEnd(s, i) && MatchFrom(ps[1..], s, i))
  }

  /** `re.search(p, s) is not None`: with `^` only position 0 is tried, otherwise every position. */
  predicate Search(p: Pattern, s: string)
  {
    if p.anchored then MatchFrom(p.pieces, s, 0)
    else exists i: nat :: i <= |s| && MatchFrom(p.pieces, s, i)
  }

  // The shapes most rules take.

  /** `^w$` */
  function Exact(w: string): Pattern { Pattern(true, [Text(w), End]) }
  /** `^w` */
  function Prefix(w: string): Pattern { Pattern(true, [Text(w)]) }
  /** `^w\s` */
  function PrefixSpace(w: string): Pattern { Pattern(true, [Text(w), One(Space)]) }
  /** `^w(?:\s|$)` */
  function PrefixWord(w: string): Pattern { Pattern(true, [Text(w), SpaceOrEnd]) }
  /** `w` (unanchored) */
  function Within(w: string): Pattern { Pattern(false, [Text(w)]) }

  /** `w` is a substring of `s` starting at `i`. */
  predicate OccursAt(w: string, s: string, i: nat)
  {
    i + |w| <= |s| && s[i..i + |w|] == w
  }

  lemma ExactMeaning(w: string, s: string)
    ensures Search(Exact(w), s) <==> s == w || s == w + "\n"
  {
    TextAtSlice(w, s, 0);
    assert [Text(w), End][0] == Text(w) && [Text(w), End][1..] == [End];
    assert [End][0] == End && [End][1..] == [];
    if TextAt(w, s, 0) {
      assert MatchFrom([], s, |w|);
      assert MatchFrom([End], s, |w|) == AtEnd(s, |w|);
    }
    if s == w + "\n" {
      assert s[..|w|] == w;
    }
    if TextAt(w, s, 0) && AtEnd(s, |w|) && |s| == |w| + 1 {
      assert s == s[..|w|] + [s[|w|]];
    }
  }

  lemma PrefixMeaning(w: string, s: string)
    ensures Search(Prefix(w), s) <==> StartsWith(s, w)
  {
    TextAtSlice(w, s, 0);
    assert [Text(w)][0] == Text(w) && [Text(w)][1..] == [];
    if TextAt(w, s, 0) {
      assert MatchFrom([], s, |w|);
    }
  }

  lemma PrefixSpaceMeaning(w: string, s: string)
    ensures Search(PrefixSpace(w), s) <==> StartsWith(s, w) && |w| < |s| && IsSpace(s[|w|])
  {
    TextAtSlice(w, s, 0);
    assert [Text(w), One(Space)][0] == Text(w) && [Text(w), One(Space)][1..] == [One(Space)];
    assert [One(Space)][0] == One(Space) && [One(Space)][1..] == [];
    if TextAt(w, s, 0) {
      if |w| < |s| {
        assert MatchFrom([], s, |w| + 1);
      }
      assert MatchFrom([One(Space)], s, |w|) == (|w| < |s| && IsSpace(s[|w|]));
    }
  }

  lemma PrefixWordMeaning(w: string, s: string)
    ensures Search(PrefixWord(w), s) <==> StartsWith(s, w) && (|w| == |s| || IsSpace(s[|w|]))
  {
    TextAtSlice(w, s, 0);
    assert [Text(w), SpaceOrEnd][0] == Text(w) && [Text(w), SpaceOrEnd][1..] == [SpaceOrEnd];
    assert [SpaceOrEnd][0] == SpaceOrEnd && [SpaceOrEnd][1..] == [];
    if TextAt(w, s, 0) {
      assert MatchFrom([], s, |w|);
      if |w| < |s| {
        assert MatchFrom([], s, |w| + 1);
      }
      assert MatchFrom([SpaceOrEnd], s, |w|) == ((|w| < |s| && IsSpace(s[|w|])) || AtEnd(s, |w|));
    }
  }

  lemma WithinMeaning(w: string, s: string)
    ensures Search(Within(w), s) <==> exists i: nat :: OccursAt(w, s, i)
  {
    assert [Text(w)][0] == Text(w) && [Text(w)][1..] == [];
    forall i: nat | i <= |s| ensures MatchFrom([Text(w)], s, i) <==> OccursAt(w, s, i) {
      TextAtSlice(w, s, i);
      if TextAt(w, s, i) {
        assert MatchFrom([], s, i + |w|);
      }
    }
    if exists i: nat :: OccursAt(w, s, i) {
      var i: nat :| OccursAt(w, s, i);
      assert MatchFrom([Text(w)], s, i);
    }
  }

  /** `w` cannot start `s`: it is too long, or the first characters differ. */
  predicate ClashesAtStart(w: string, s: string)
  {
    |w| > |s| || (0 < |w| && s[0] != w[0])
  }

  lemma ClashMeansNoPrefix(w: string, s: string)
    requires ClashesAtStart(w, s)
    ensures !TextAt(w, s, 0)
  {
    TextAtSlice(w, s, 0);
    if |w| <= |s| {
      assert s[..|w|][0] == s[0];
    }
  }

  /** An anchored pattern that begins with literal text fails where that text clashes with the start. */
  lemma NoMatchByFirstChar(p: Pattern, s: string)
    requires p.anchored && |p.pieces| > 0 && p.pieces[0].Text?
    requires ClashesAtStart(p.pieces[0].w, s)
    ensures !Search(p, s)
  {
    ClashMeansNoPrefix(p.pieces[0].w, s);
  }

  /** The same for a pattern that begins with an optional group `(o)?` followed by literal text `w`. */
  lemma NoOptMatchByFirstChar(p: Pattern, s: string)
    requires p.anchored && |p.pieces| > 1 && p.pieces[0].OptText? && p.pieces[1].Text?
    requires ClashesAtStart(p.pieces[0].w, s) && ClashesAtStart(p.pieces[1].w, s)
    ensures !Search(p, s)
  {
    var o, w := p.pieces[0].w, p.pieces[1].w;
    ClashMeansNoPrefix(o, s);
    ClashMeansNoPrefix(w, s);
    assert p.pieces[1..][0] == Text(w);
    assert !MatchFrom(p.pieces[1..], s, 0);
  }

  /** `sym*` followed by text `w` cannot match when fewer than |w| characters remain. */
  lemma {:induction false} StarTextTooLong(ps: seq<Piece>, s: string, i: nat)
    requires i <= |s| && |ps| > 1 && ps[0].Star? && ps[1].Text? && i + |ps[1].w| > |s|
    ensures !MatchFrom(ps, s, i)
    decreases |s| - i
  {
    assert ps[1..][0] == ps[1];
    assert !TextAt(ps[1].w, s, i);
    if i < |s| {
      StarTextTooLong(ps, s, i + 1);
    }
  }

  /** An unanchored literal search fails on a string that lacks the literal's first character. */
  lemma MissingFirstCharNoMatch(w: string, s: string)
    requires |w| > 0 && forall i :: 0 <= i < |s| ==> s[i] != w[0]
    ensures !Search(Within(w), s)
  {
    WithinMeaning(w, s);
    forall i: nat ensures !OccursAt(w, s, i) {
      if i + |w| <= |s| {
        assert s[i..i + |w|][0] == s[i];
      }
    }
  }
}
