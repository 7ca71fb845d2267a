/** String helpers standing in for the JavaScript string methods the sign-in flow uses:
    `includes`, `split('@')[0]`, `split(/[ ,]+/).filter(Boolean)` and `join(' ')`. */
module Strings {

  // ---------------------------------------------------------------------------
  // Substring search (`String.prototype.includes`)

  /** `s.includes(t)`, searched from the front: `t` starts at some position of `s`. */
  predicate Contains(s: string, t: string)
    ensures Contains(s, t) <==> exists i :: 0 <= i <= |s| && t <= s[i..]
    decreases |s|
  {
    if t <= s then
      assert s[0..] == s;
      true
    else if s == [] then
      false
    else
      assert forall i :: 1 <= i <= |s| ==> s[i..] == s[1..][i - 1..];
      Contains(s[1..], t)
  }

  /** `s` cannot contain `t` if `t` has a character that `s` lacks. */
  lemma {:induction false} NotContainsMissingChar(s: string, t: string, c: char)
    requires c in t && c !in s
    ensures !Contains(s, t)
    decreases |s|
  {
    assert !(t <= s);
    if s != [] {
      assert forall k :: 0 <= k < |s[1..]| ==> s[1..][k] == s[k + 1];
      NotContainsMissingChar(s[1..], t, c);
    }
  }

  // ---------------------------------------------------------------------------
  // `s.split(c)[0]`: the part of `s` before the first `c`

  function BeforeFirst(s: string, c: char): (r: string)
    ensures r <= s
    ensures c !in r
    ensures |r| < |s| ==> s[|r|] == c
    decreases |s|
  {
    if s == [] || s[0] == c then [] else [s[0]] + BeforeFirst(s[1..], c)
  }

  // ---------------------------------------------------------------------------
  // Scope lists: `split(/[ ,]+/).filter(Boolean)` and `join(' ')`

  /** A character of the separator class `[ ,]`. */
  predicate IsScopeSeparator(c: char) {
    c == ' ' || c == ','
  }

  /** A word: no character of the separator class. */
  predicate NoSeparator(w: string) {
    forall i :: 0 <= i < |w| ==> !IsScopeSeparator(w[i])
  }

  /** A well-formed scope list: every token is a non-empty word. */
  predicate WellFormedTokens(ts: seq<string>) {
    forall i :: 0 <= i < |ts| ==> ts[i] != [] && NoSeparator(ts[i])
  }

  /** The longest prefix of `s` that holds no separator. */
  function LeadingWord(s: string): (w: string)
    ensures w <= s && NoSeparator(w)
    ensures |w| < |s| ==> IsScopeSeparator(s[|w|])
    decreases |s|
  {
    if s == [] || IsScopeSeparator(s[0]) then [] else [s[0]] + LeadingWord(s[1..])
  }

  /** The words of `s`, in order: split on runs of spaces and commas, empty pieces dropped. */
  function Tokenize(s: string): (ts: seq<string>)
    ensures WellFormedTokens(ts)
    decreases |s|
  {
    if s == [] then []
    else if IsScopeSeparator(s[0]) then Tokenize(s[1..])
    else
      var w := LeadingWord(s);
      [w] + Tokenize(s[|w|..])
  }

  /** The characters of `s` that are not separators, in order. */
  function Letters(s: string): string
    decreases |s|
  {
    if s == [] then [] else (if IsScopeSeparator(s[0]) then [] else [s[0]]) + Letters(s[1..])
  }

  /** The tokens concatenated. */
  function Concat(ts: seq<string>): string
    decreases |ts|
  {
    if ts == [] then [] else ts[0] + Concat(ts[1..])
  }

  /** `ts.join(sep)`. */
  function Join(ts: seq<string>, sep: string): string
    decreases |ts|
  {
    if ts == [] then [] else if |ts| == 1 then ts[0] else ts[0] + sep + Join(ts[1..], sep)
  }

  lemma {:induction false} LettersAppend(a: string, b: string)
    ensures Letters(a + b) == Letters(a) + Letters(b)
    decreases |a|
  {
    if a != [] {
      assert (a + b)[1..] == a[1..] + b;
      LettersAppend(a[1..], b);
    } else {
      assert a + b == b;
    }
  }

  lemma {:induction false} LettersOfWord(w: string)
    requires NoSeparator(w)
    ensures Letters(w) == w
    decreases |w|
  {
    if w != [] {
      LettersOfWord(w[1..]);
    }
  }

  /** Tokenizing loses only separators: the tokens, concatenated, are the input's
      non-separator characters in their original order. */
  lemma {:induction false} TokenizeKeepsLetters(s: string)
    ensures Concat(Tokenize(s)) == Letters(s)
    decreases |s|
  {
    if s == [] {
    } else if IsScopeSeparator(s[0]) {
      TokenizeKeepsLetters(s[1..]);
    } else {
      var w := LeadingWord(s);
      var rest := s[|w|..];
      assert s == w + rest;
      TokenizeKeepsLetters(rest);
      LettersAppend(w, rest);
      LettersOfWord(w);
      assert Tokenize(s) == [w] + Tokenize(rest);
      assert ([w] + Tokenize(rest))[1..] == Tokenize(rest);
    }
  }

  lemma {:induction false} LeadingWordAppend(a: string, c: char, b: string)
    requires IsScopeSeparator(c)
    ensures LeadingWord(a + [c] + b) == LeadingWord(a)
    decreases |a|
  {
    if a == [] {
      assert (a + [c] + b)[0] == c;
    } else {
      assert (a + [c] + b)[0] == a[0];
      assert (a + [c] + b)[1..] == a[1..] + [c] + b;
      LeadingWordAppend(a[1..], c, b);
    }
  }

  /** A separator cuts the input into two independently tokenized halves. */
  lemma {:induction false} TokenizeAppend(a: string, c: char, b: string)
    requires IsScopeSeparator(c)
    ensures Tokenize(a + [c] + b) == Tokenize(a) + Tokenize(b)
    decreases |a|
  {
    var s := a + [c] + b;
    if a == [] {
      assert s[0] == c && s[1..] == b;
    } else if IsScopeSeparator(a[0]) {
      assert s[0] == a[0] && s[1..] == a[1..] + [c] + b;
      TokenizeAppend(a[1..], c, b);
    } else {
      assert s[0] == a[0];
      LeadingWordAppend(a, c, b);
      var w := LeadingWord(a);
      assert s[|w|..] == a[|w|..] + [c] + b;
      TokenizeAppend(a[|w|..], c, b);
    }
  }

  lemma {:induction false} LeadingWordOfWord(w: string)
    requires NoSeparator(w)
    ensures LeadingWord(w) == w
    decreases |w|
  {
    if w != [] {
      LeadingWordOfWord(w[1..]);
    }
  }

  /** A single non-empty word tokenizes to itself. */
  lemma TokenizeWord(w: string)
    requires w != [] && NoSeparator(w)
    ensures Tokenize(w) == [w]
  {
    LeadingWordOfWord(w);
    assert w[|w|..] == [];
  }

  lemma TokenizeTwoWords(a: string, b: string)
    requires a != [] && NoSeparator(a) && b != [] && NoSeparator(b)
    ensures Tokenize(a + " " + b) == [a, b]
  {
    assert a + " " + b == a + [' '] + b;
    TokenizeAppend(a, ' ', b);
    TokenizeWord(a);
    TokenizeWord(b);
  }

  /** Joining a well-formed scope list with single spaces and tokenizing again gives
      the list back. */
  lemma {:induction false} TokenizeJoin(ts: seq<string>)
    requires WellFormedTokens(ts)
    ensures Tokenize(Join(ts, " ")) == ts
    decreases |ts|
  {
    if ts == [] {
    } else if |ts| == 1 {
      TokenizeWord(ts[0]);
    } else {
      TokenizeJoin(ts[1..]);
      TokenizeWord(ts[0]);
      assert ts[0] + " " + Join(ts[1..], " ") == ts[0] + [' '] + Join(ts[1..], " ");
      TokenizeAppend(ts[0], ' ', Join(ts[1..], " "));
      assert ts == [ts[0]] + ts[1..];
    }
  }
}
