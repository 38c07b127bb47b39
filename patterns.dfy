/**
 * The case-insensitive regular expressions of the page objects and the journey test.
 * Every one of them has the shape `/a|b.*c|.../i`: top-level alternatives, each a chain
 * of literal pieces joined by `.*`. Matching is modelled exactly for that shape
 * (unanchored, `.` not crossing a line terminator) on ASCII-lower-cased text.
 */
module Patterns {
  import opened Text

  /** `source` is the expression as written (it appears in error messages); the pieces of
      every alternative are stored in lower case. */
  datatype Pattern = Pattern(source: string, alternatives: seq<seq<string>>)

  /** The characters JavaScript's `.` does not match. */
  predicate IsLineTerminator(c: char) {
    c == '\n' || c == '\r' || c == '\U{2028}' || c == '\U{2029}'
  }

  /** `t` begins with `pieces[0]`, followed by the remaining pieces, each after a `.*` gap. */
  predicate MatchHere(t: string, pieces: seq<string>)
    decreases |pieces|, 0, |t|
  {
    pieces == [] || (StartsWith(t, pieces[0]) && MatchGap(t[|pieces[0]|..], pieces[1..]))
  }

  /** `.*` followed by `pieces`: skip characters other than line terminators, then match. */
  predicate MatchGap(t: string, pieces: seq<string>)
    decreases |pieces|, 1, |t|
  {
    || pieces == []
    || MatchHere(t, pieces)
    || (t != [] && !IsLineTerminator(t[0]) && MatchGap(t[1..], pieces))
  }

  /** An unanchored search, as `RegExp.prototype.test` performs it. */
  predicate MatchAnywhere(t: string, pieces: seq<string>)
    decreases |t|
  {
    MatchHere(t, pieces) || (t != [] && MatchAnywhere(t[1..], pieces))
  }

  /** `pattern.test(text)` for a pattern carrying the `i` flag. */
  predicate Matches(p: Pattern, text: string) {
    exists k :: 0 <= k < |p.alternatives| && MatchAnywhere(Lower(text), p.alternatives[k])
  }

  /** The `i` flag makes the match blind to case: a text and its lower-cased form match the same
      patterns. */
  lemma MatchesIgnoresCase(p: Pattern, text: string)
    ensures Matches(p, text) <==> Matches(p, Lower(text))
  {
    LowerIsIdempotent(text);
  }

  /** A one-piece chain is found exactly where `includes` finds the piece. */
  lemma {:induction false} LiteralChainIsContains(t: string, w: string)
    ensures MatchAnywhere(t, [w]) <==> Contains(t, w)
    decreases |t|
  {
    assert [w][1..] == [];
    assert MatchHere(t, [w]) <==> StartsWith(t, w) by {
      if StartsWith(t, w) {
        assert MatchGap(t[|w|..], []);
      }
    }
    if t != [] {
      LiteralChainIsContains(t[1..], w);
    }
  }

  /** A pattern that is a single literal `w` matches exactly the texts whose lower-cased form
      contains `w`. */
  lemma LiteralMatchIff(source: string, w: string, text: string)
    ensures Matches(Pattern(source, [[w]]), text) <==> Contains(Lower(text), w)
  {
    LiteralChainIsContains(Lower(text), w);
    if Contains(Lower(text), w) {
      assert Pattern(source, [[w]]).alternatives[0] == [w];
    }
  }
}
