/**
 * The parts of Kotlin's `Char` and `CharSequence` library that the app's
 * logic relies on: `isWhitespace`, `isBlank`, `isDigit`, case-insensitive
 * `contains`, `split(",")`, `joinToString(",")` and `filter { isNotEmpty() }`.
 * Strings are sequences of characters.
 */
module Text {

  /** Kotlin/JVM `Char.isWhitespace()`: Java's `isWhitespace` or `isSpaceChar`. */
  predicate IsWhitespace(c: char) {
    || '\t' <= c <= '\r'
    || '\U{1C}' <= c <= '\U{1F}'
    || c == ' ' || c == '\U{A0}' || c == '\U{1680}'
    || '\U{2000}' <= c <= '\U{200A}'
    || c == '\U{2028}' || c == '\U{2029}' || c == '\U{202F}' || c == '\U{205F}' || c == '\U{3000}'
  }

  /** `CharSequence.isBlank()`: empty, or made only of whitespace. */
  predicate IsBlank(s: string) {
    forall i :: 0 <= i < |s| ==> IsWhitespace(s[i])
  }

  /** `Char.isDigit()`, restricted to the ASCII digits. */
  predicate IsDigit(c: char) {
    '0' <= c <= '9'
  }

  /** `Char.uppercaseChar()` on ASCII and Latin-1 letters; other characters map to themselves. */
  function UpperChar(c: char): (u: char)
    ensures IsWhitespace(c) ==> u == c
  {
    if 'a' <= c <= 'z' || ('\U{E0}' <= c <= '\U{FE}' && c != '\U{F7}') then (c as int - 32) as char else c
  }

  /** `Char.lowercaseChar()` on ASCII and Latin-1 letters; other characters map to themselves. */
  function LowerChar(c: char): (l: char) {
    if 'A' <= c <= 'Z' || ('\U{C0}' <= c <= '\U{DE}' && c != '\U{D7}') then (c as int + 32) as char else c
  }

  /** `Char.equals(other, ignoreCase = true)`. */
  predicate CharEqualsIgnoreCase(a: char, b: char) {
    a == b || UpperChar(a) == UpperChar(b) || LowerChar(UpperChar(a)) == LowerChar(UpperChar(b))
  }

  /** Two characters are equal ignoring case exactly when their upper-case forms agree. */
  lemma CharEqualsIgnoreCaseIsUpperEquality(a: char, b: char)
    ensures CharEqualsIgnoreCase(a, b) <==> UpperChar(a) == UpperChar(b)
  {
    if LowerChar(UpperChar(a)) == LowerChar(UpperChar(b)) {
      var ua, ub := UpperChar(a), UpperChar(b);
      assert !('a' <= ua <= 'z') && !('\U{E0}' <= ua <= '\U{FE}' && ua != '\U{F7}');
      assert !('a' <= ub <= 'z') && !('\U{E0}' <= ub <= '\U{FE}' && ub != '\U{F7}');
    }
  }

  /** Upper-cases every character of `s`. */
  function UpperAll(s: string): (r: string)
    ensures |r| == |s|
    ensures forall i :: 0 <= i < |s| ==> r[i] == UpperChar(s[i])
  {
    seq(|s|, i requires 0 <= i < |s| => UpperChar(s[i]))
  }

  /** `s` starts with `q`, comparing characters ignoring case. */
  predicate StartsWithIgnoreCase(s: string, q: string) {
    |q| <= |s| && forall i :: 0 <= i < |q| ==> CharEqualsIgnoreCase(s[i], q[i])
  }

  /** `s.contains(q, ignoreCase = true)`: some region of `s` matches `q` ignoring case. */
  predicate ContainsIgnoreCase(s: string, q: string): (b: bool)
    ensures q == [] ==> b
    ensures b ==> |q| <= |s|
  {
    assert q == [] ==> StartsWithIgnoreCase(s[0..], q);
    exists i :: 0 <= i <= |s| - |q| && StartsWithIgnoreCase(s[i..], q)
  }

  /** An exact occurrence of `q` in `s` is in particular an occurrence ignoring case. */
  lemma ContainsExactOccurrence(a: string, q: string, b: string)
    ensures ContainsIgnoreCase(a + q + b, q)
  {
    var s := a + q + b;
    assert s[|a|..][..|q|] == q;
    assert StartsWithIgnoreCase(s[|a|..], q);
  }

  /** Upper-casing the query does not change what a case-insensitive search finds. */
  lemma ContainsIgnoreCaseOfUpperQuery(s: string, q: string)
    ensures ContainsIgnoreCase(s, q) <==> ContainsIgnoreCase(s, UpperAll(q))
  {
    var uq := UpperAll(q);
    forall i | 0 <= i <= |s| - |q|
      ensures StartsWithIgnoreCase(s[i..], q) <==> StartsWithIgnoreCase(s[i..], uq)
    {
      forall k | 0 <= k < |q|
        ensures CharEqualsIgnoreCase(s[i..][k], q[k]) <==> CharEqualsIgnoreCase(s[i..][k], uq[k])
      {
        CharEqualsIgnoreCaseIsUpperEquality(s[i..][k], q[k]);
        CharEqualsIgnoreCaseIsUpperEquality(s[i..][k], uq[k]);
      }
    }
    if ContainsIgnoreCase(s, q) {
      var i :| 0 <= i <= |s| - |q| && StartsWithIgnoreCase(s[i..], q);
      assert StartsWithIgnoreCase(s[i..], uq);
    }
    if ContainsIgnoreCase(s, uq) {
      var i :| 0 <= i <= |s| - |uq| && StartsWithIgnoreCase(s[i..], uq);
      assert StartsWithIgnoreCase(s[i..], q);
    }
  }

  /** Upper-casing keeps a blank string blank and a non-blank one non-blank. */
  lemma UpperAllKeepsBlankness(s: string)
    ensures IsBlank(UpperAll(s)) <==> IsBlank(s)
  {
    if !IsBlank(s) {
      var i :| 0 <= i < |s| && !IsWhitespace(s[i]);
      assert !IsWhitespace(UpperAll(s)[i]);
    }
  }

  /** `s.filter { it.isDigit() }`. */
  function DigitsOf(s: string): (r: string)
    ensures |r| <= |s|
    ensures forall i :: 0 <= i < |r| ==> IsDigit(r[i])
  {
    if s == [] then [] else (if IsDigit(s[0]) then [s[0]] else []) + DigitsOf(s[1..])
  }

  /** Digit filtering distributes over concatenation, so it keeps exactly the digits, in order. */
  lemma {:induction false} DigitsOfAppend(a: string, b: string)
    ensures DigitsOf(a + b) == DigitsOf(a) + DigitsOf(b)
  {
    if a == [] {
      assert a + b == b;
    } else {
      assert (a + b)[1..] == a[1..] + b;
      DigitsOfAppend(a[1..], b);
    }
  }

  /** A string made only of digits is left as it is. */
  lemma {:induction false} DigitsOfAllDigits(s: string)
    requires forall i :: 0 <= i < |s| ==> IsDigit(s[i])
    ensures DigitsOf(s) == s
  {
    if s != [] {
      DigitsOfAllDigits(s[1..]);
    }
  }

  /** Filtering digits twice is the same as filtering once. */
  lemma DigitsOfIdempotent(s: string)
    ensures DigitsOf(DigitsOf(s)) == DigitsOf(s)
  {
    DigitsOfAllDigits(DigitsOf(s));
  }

  /** `s.split(",")`: the pieces between commas, keeping empty pieces (so never an empty list). */
  function Split(s: string): (r: seq<string>)
    ensures |r| >= 1
  {
    if s == [] then [""]
    else
      var rest := Split(s[1..]);
      if s[0] == ',' then [""] + rest else [[s[0]] + rest[0]] + rest[1..]
  }

  /** `xs.joinToString(",")`. */
  function Join(xs: seq<string>): (r: string)
    ensures forall c :: c in r ==> c == ',' || exists x :: x in xs && c in x
  {
    if xs == [] then ""
    else if |xs| == 1 then xs[0]
    else xs[0] + "," + Join(xs[1..])
  }

  /** `xs.filter { it.isNotEmpty() }`. */
  function DropEmpty(xs: seq<string>): (r: seq<string>)
    ensures |r| <= |xs|
    ensures forall i :: 0 <= i < |r| ==> r[i] != ""
    ensures forall x :: x in r ==> x in xs
  {
    if xs == [] then [] else (if xs[0] == "" then [] else [xs[0]]) + DropEmpty(xs[1..])
  }

  /** What splitting and dropping empties yields for each element of `xs`, concatenated. */
  function SplitPieces(xs: seq<string>): (r: seq<string>) {
    if xs == [] then [] else DropEmpty(Split(xs[0])) + SplitPieces(xs[1..])
  }

  /** A comma separates the pieces of its two sides. */
  lemma {:induction false} SplitAppend(a: string, b: string)
    ensures Split(a + "," + b) == Split(a) + Split(b)
  {
    if a == [] {
      assert a + "," + b == [','] + b;
      assert ([','] + b)[1..] == b;
    } else {
      assert (a + "," + b)[1..] == a[1..] + "," + b;
      SplitAppend(a[1..], b);
    }
  }

  /** A string without commas splits into itself. */
  lemma {:induction false} SplitNoComma(s: string)
    requires ',' !in s
    ensures Split(s) == [s]
  {
    if s != [] {
      SplitNoComma(s[1..]);
      assert [s[0]] + s[1..] == s;
    }
  }

  lemma {:induction false} DropEmptyAppend(a: seq<string>, b: seq<string>)
    ensures DropEmpty(a + b) == DropEmpty(a) + DropEmpty(b)
  {
    if a == [] {
      assert a + b == b;
    } else {
      assert (a + b)[1..] == a[1..] + b;
      DropEmptyAppend(a[1..], b);
    }
  }

  /**
   * Joining with commas, splitting on commas and dropping empty pieces
   * re-splits every element on its own commas and loses its empty pieces.
   */
  lemma {:induction false} SplitJoin(xs: seq<string>)
    ensures DropEmpty(Split(Join(xs))) == SplitPieces(xs)
  {
    if xs == [] {
    } else if |xs| == 1 {
      assert SplitPieces(xs[1..]) == [];
    } else {
      SplitAppend(xs[0], Join(xs[1..]));
      DropEmptyAppend(Split(xs[0]), Split(Join(xs[1..])));
      SplitJoin(xs[1..]);
    }
  }

  /** The pieces are the elements themselves when none is empty or holds a comma. */
  lemma {:induction false} SplitPiecesOfPlainElements(xs: seq<string>)
    requires forall i :: 0 <= i < |xs| ==> xs[i] != "" && ',' !in xs[i]
    ensures SplitPieces(xs) == xs
  {
    if xs != [] {
      SplitNoComma(xs[0]);
      SplitPiecesOfPlainElements(xs[1..]);
    }
  }

  /** Join and split are inverse on lists of non-empty, comma-free strings. */
  lemma SplitJoinRoundTrip(xs: seq<string>)
    requires forall i :: 0 <= i < |xs| ==> xs[i] != "" && ',' !in xs[i]
    ensures DropEmpty(Split(Join(xs))) == xs
  {
    SplitJoin(xs);
    SplitPiecesOfPlainElements(xs);
  }
}
