/**
 * The lexical half of command classification: `query.upper().split()[0]`
 * (main.py:37) takes the first whitespace-separated token of the uppercased
 * query.
 */
module Tokens {
  import opened Wrappers

  /**
   * Python's `str.isspace`, the separator set of `str.split()` with no
   * argument: the ASCII controls \t \n \v \f \r and \x1c-\x1f, the space,
   * U+0085, U+00A0, U+1680, U+2000-U+200A, U+2028, U+2029, U+202F, U+205F
   * and U+3000.
   */
  predicate IsSpace(c: char)
  {
    ('\U{9}' <= c <= '\U{d}') || ('\U{1c}' <= c <= '\U{20}')
    || c == '\U{85}' || c == '\U{a0}' || c == '\U{1680}'
    || ('\U{2000}' <= c <= '\U{200a}') || c == '\U{2028}' || c == '\U{2029}'
    || c == '\U{202f}' || c == '\U{205f}' || c == '\U{3000}'
  }

  /**
   * Python's `str.upper` on one character, for the characters whose upper
   * case is an ASCII letter: a-z, the dotless i (U+0131) and the long s
   * (U+017F).  Every other character is left as it is.
   */
  function UpperChar(c: char): (u: char)
    ensures !('a' <= u <= 'z')
    ensures 'A' <= u <= 'Z' <==> 'A' <= c <= 'Z' || 'a' <= c <= 'z' || c == '\U{131}' || c == '\U{17f}'
    ensures !('A' <= u <= 'Z') ==> u == c
    ensures 'a' <= c <= 'z' ==> u as int == c as int - 32
    ensures 'A' <= c <= 'Z' ==> u == c
    ensures c == '\U{131}' ==> u == 'I'
    ensures c == '\U{17f}' ==> u == 'S'
  {
    if 'a' <= c <= 'z' then (c as int - 32) as char
    else if c == '\U{131}' then 'I'
    else if c == '\U{17f}' then 'S'
    else c
  }

  /** `str.upper`, character by character. */
  function Upper(s: string): (u: string)
    ensures |u| == |s|
    ensures forall i :: 0 <= i < |s| ==> u[i] == UpperChar(s[i])
  {
    if s == [] then [] else [UpperChar(s[0])] + Upper(s[1..])
  }

  /**
   * Below U+0080 the whitespace is the tab, line feed, vertical tab, form
   * feed, carriage return, the four separators \x1c-\x1f and the space.
   */
  lemma IsSpaceAscii(c: char)
    requires c < '\U{80}'
    ensures IsSpace(c) <==> c in "\t\n\U{b}\U{c}\r\U{1c}\U{1d}\U{1e}\U{1f} "
  {
  }

  /** No letter is whitespace, so a keyword is never split apart. */
  lemma LetterIsNotSpace(c: char)
    requires 'A' <= c <= 'Z' || 'a' <= c <= 'z'
    ensures !IsSpace(c)
  {
  }

  /** Uppercasing neither creates nor removes whitespace. */
  lemma UpperCharKeepsSpace(c: char)
    ensures IsSpace(UpperChar(c)) <==> IsSpace(c)
  {
  }

  /** Uppercasing a string moves no whitespace. */
  lemma UpperKeepsSpaces(s: string)
    ensures forall i :: 0 <= i < |s| ==> (IsSpace(Upper(s)[i]) <==> IsSpace(s[i]))
  {
    forall i | 0 <= i < |s| ensures IsSpace(Upper(s)[i]) <==> IsSpace(s[i]) {
      UpperCharKeepsSpace(s[i]);
    }
  }

  lemma UpperCharIdempotent(c: char)
    ensures UpperChar(UpperChar(c)) == UpperChar(c)
  {
  }

  /** Uppercasing an uppercased string changes nothing. */
  lemma UpperIdempotent(s: string)
    ensures Upper(Upper(s)) == Upper(s)
  {
    forall i | 0 <= i < |s| ensures Upper(Upper(s))[i] == Upper(s)[i] {
      UpperCharIdempotent(s[i]);
    }
  }

  /** The number of whitespace characters the string starts with. */
  function SpaceRun(s: string): (n: nat)
    ensures n <= |s|
    ensures forall i :: 0 <= i < n ==> IsSpace(s[i])
    ensures n == |s| || !IsSpace(s[n])
  {
    if s != [] && IsSpace(s[0]) then 1 + SpaceRun(s[1..]) else 0
  }

  /** The number of non-whitespace characters the string starts with. */
  function WordRun(s: string): (n: nat)
    ensures n <= |s|
    ensures forall i :: 0 <= i < n ==> !IsSpace(s[i])
    ensures n == |s| || IsSpace(s[n])
  {
    if s != [] && !IsSpace(s[0]) then 1 + WordRun(s[1..]) else 0
  }

  /** A non-empty run of non-whitespace characters. */
  predicate IsToken(w: string)
  {
    w != [] && forall i :: 0 <= i < |w| ==> !IsSpace(w[i])
  }

  /**
   * `str.split()` with no argument: the maximal runs of non-whitespace
   * characters, in order; leading, trailing and repeated whitespace yield no
   * empty tokens.
   */
  function Split(s: string): (tokens: seq<string>)
    ensures forall k :: 0 <= k < |tokens| ==> IsToken(tokens[k])
    ensures tokens == [] <==> forall i :: 0 <= i < |s| ==> IsSpace(s[i])
    decreases |s|
  {
    var a := SpaceRun(s);
    if a == |s| then []
    else
      var b := a + WordRun(s[a..]);
      assert IsToken(s[a..b]) && !IsSpace(s[a]);
      [s[a..b]] + Split(s[b..])
  }

  /** `s.split()[0]`, or None where Python's indexing would raise IndexError. */
  function FirstToken(s: string): (r: Option<string>)
    ensures r.None? <==> forall i :: 0 <= i < |s| ==> IsSpace(s[i])
    ensures r.Some? ==> IsToken(r.value)
  {
    var tokens := Split(s);
    if tokens == [] then None else Some(tokens[0])
  }

  /**
   * The first token is the word that starts after the leading whitespace:
   * it sits at offset n, everything before n is whitespace, and it ends at
   * the end of the string or at a whitespace character.
   */
  lemma FirstTokenShape(s: string) returns (n: nat)
    ensures FirstToken(s).None? <==> forall i :: 0 <= i < |s| ==> IsSpace(s[i])
    ensures FirstToken(s).Some? ==>
      var t := FirstToken(s).value;
      IsToken(t) && n + |t| <= |s| && s[n..n + |t|] == t
      && (forall i :: 0 <= i < n ==> IsSpace(s[i]))
      && (n + |t| == |s| || IsSpace(s[n + |t|]))
  {
    n := SpaceRun(s);
  }

  /** `u` is `s` with every character uppercased. */
  predicate UppercaseOf(u: string, s: string)
  {
    |u| == |s| && forall i :: 0 <= i < |s| ==> u[i] == UpperChar(s[i])
  }

  lemma {:induction false} RunsOfUppercase(u: string, s: string)
    requires UppercaseOf(u, s)
    ensures SpaceRun(u) == SpaceRun(s) && WordRun(u) == WordRun(s)
  {
    if s != [] {
      UpperCharKeepsSpace(s[0]);
      assert UppercaseOf(u[1..], s[1..]);
      RunsOfUppercase(u[1..], s[1..]);
    }
  }

  /** One step of `Split`: the first token, then the split of what follows it. */
  lemma SplitStep(s: string) returns (a: nat, b: nat)
    requires SpaceRun(s) < |s|
    ensures a == SpaceRun(s) && b == a + WordRun(s[a..]) && a < b <= |s|
    ensures Split(s) == [s[a..b]] + Split(s[b..])
  {
    a := SpaceRun(s);
    b := a + WordRun(s[a..]);
  }

  lemma SliceOfUppercase(u: string, s: string, a: nat, b: nat)
    requires UppercaseOf(u, s) && a <= b <= |s|
    ensures UppercaseOf(u[a..b], s[a..b])
  {
  }

  lemma UppercaseIsUpper(u: string, s: string)
    requires UppercaseOf(u, s)
    ensures u == Upper(s)
  {
  }

  lemma ConsUpper(x: string, xs: seq<string>, ys: seq<string>)
    requires |ys| == |xs| && forall k :: 0 <= k < |xs| ==> ys[k] == Upper(xs[k])
    ensures forall k :: 0 <= k < |xs| + 1 ==> ([Upper(x)] + ys)[k] == Upper(([x] + xs)[k])
  {
  }

  lemma {:induction false} SplitOfUppercase(u: string, s: string)
    requires UppercaseOf(u, s)
    ensures |Split(u)| == |Split(s)|
    ensures forall k :: 0 <= k < |Split(s)| ==> Split(u)[k] == Upper(Split(s)[k])
    decreases |s|
  {
    RunsOfUppercase(u, s);
    if SpaceRun(s) < |s| {
      var a, b := SplitStep(s);
      SliceOfUppercase(u, s, a, |s|);
      RunsOfUppercase(u[a..], s[a..]);
      var a', b' := SplitStep(u);
      SliceOfUppercase(u, s, a, b);
      UppercaseIsUpper(u[a..b], s[a..b]);
      SliceOfUppercase(u, s, b, |s|);
      SplitOfUppercase(u[b..], s[b..]);
      ConsUpper(s[a..b], Split(s[b..]), Split(u[b..]));
    }
  }

  /**
   * Uppercasing and splitting commute: the tokens of the uppercased string
   * are the uppercased tokens of the string.
   */
  lemma UpperSplit(s: string)
    ensures |Split(Upper(s))| == |Split(s)|
    ensures forall k :: 0 <= k < |Split(s)| ==> Split(Upper(s))[k] == Upper(Split(s)[k])
  {
    SplitOfUppercase(Upper(s), s);
  }

  /**
   * A word that is followed by whitespace or by nothing is the first token,
   * uppercased: "select * from t" has the command "SELECT".
   */
  lemma {:induction false} FirstTokenOfWord(w: string, rest: string)
    requires IsToken(w)
    requires rest == [] || IsSpace(rest[0])
    ensures FirstToken(Upper(w + rest)) == Some(Upper(w))
  {
    WordRunOfWord(w, rest);
    assert (w + rest)[0] == w[0];
    assert (w + rest)[..|w|] == w;
    UpperSplit(w + rest);
    assert Split(w + rest)[0] == w;
  }

  lemma {:induction false} WordRunOfWord(w: string, rest: string)
    requires forall i :: 0 <= i < |w| ==> !IsSpace(w[i])
    requires rest == [] || IsSpace(rest[0])
    ensures WordRun(w + rest) == |w|
  {
    if w != [] {
      assert (w + rest)[1..] == w[1..] + rest;
      WordRunOfWord(w[1..], rest);
    } else {
      assert w + rest == rest;
    }
  }
}
