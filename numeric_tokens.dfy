/**
 * The numeric-literal pattern `[-+]?\d*\.?\d+` that the frame parser uses,
 * with Python `re` semantics: a greedy, leftmost match, `re.findall` for the
 * token list and `re.search(key + "(...)")` for a named field.
 * All functions work on suffixes: a match is always at the start of `s`.
 */
module NumericTokens {
  import opened Wrappers
  import opened Text

  /** The length of the run of digits at the start of `s`. */
  function DigitRun(s: string): (n: nat)
    ensures n <= |s| && AllDigits(s[..n]) && (n == |s| || !IsDigit(s[n]))
  {
    if s != [] && IsDigit(s[0]) then 1 + DigitRun(s[1..]) else 0
  }

  /** The length of the match of `\d*\.?\d+` at the start of `s` (0: no match). */
  function UnsignedMatchLen(s: string): (n: nat)
    ensures n <= |s|
  {
    var a := DigitRun(s);
    if a + 1 < |s| && s[a] == '.' && IsDigit(s[a + 1]) then a + 1 + DigitRun(s[a + 1..]) else a
  }

  /**
   * The length of the greedy match of `[-+]?\d*\.?\d+` at the start of `s`,
   * 0 when the pattern does not match there.
   */
  function MatchLen(s: string): (n: nat)
    ensures n <= |s|
  {
    if s != [] && IsSign(s[0]) then
      var u := UnsignedMatchLen(s[1..]);
      if u > 0 then 1 + u else 0
    else UnsignedMatchLen(s)
  }

  /** The unsigned part of a literal: `t` without its leading sign. */
  function Unsigned(t: string): string {
    if t != [] && IsSign(t[0]) then t[1..] else t
  }

  /** `t` is a whole numeric literal: `[-+]?` then `digits` or `digits?.digits`. */
  predicate IsNumeral(t: string) {
    NumeralBody(Unsigned(t))
  }

  /** A literal without its sign: digits, or digits, a dot and digits on both sides. */
  predicate NumeralBody(body: string) {
    body != [] &&
    (AllDigits(body) ||
     var d := IndexOf(body, '.'); d + 1 < |body| && AllDigits(body[..d]) && AllDigits(body[d + 1..]))
  }

  /** A character at which a literal cannot be extended. */
  predicate Boundary(rest: string) {
    rest == [] || (!IsDigit(rest[0]) && rest[0] != '.')
  }

  lemma DigitRunConcat(x: string, y: string)
    requires AllDigits(x) && (y == [] || !IsDigit(y[0]))
    ensures DigitRun(x + y) == |x|
  {
    if x != [] {
      assert (x + y)[1..] == x[1..] + y;
      DigitRunConcat(x[1..], y);
    } else {
      assert x + y == y;
    }
  }

  /** Whatever the unsigned pattern matches is an unsigned literal. */
  lemma UnsignedMatchIsNumeral(s: string)
    requires UnsignedMatchLen(s) > 0
    ensures var body := s[..UnsignedMatchLen(s)];
            body != [] && !IsSign(body[0]) &&
            (AllDigits(body) ||
             var d := IndexOf(body, '.'); d + 1 < |body| && AllDigits(body[..d]) && AllDigits(body[d + 1..]))
  {
    var n := UnsignedMatchLen(s);
    var a := DigitRun(s);
    var body := s[..n];
    assert body[..a] == s[..a];
    if a + 1 < |s| && s[a] == '.' && IsDigit(s[a + 1]) {
      var b := DigitRun(s[a + 1..]);
      assert body[a] == '.';
      assert IndexOf(body, '.') == a;
      assert body[a + 1..] == s[a + 1..][..b];
    } else {
      assert body == s[..a];
    }
  }

  /** Whatever the pattern matches is a whole numeric literal. */
  lemma MatchIsNumeral(s: string)
    requires MatchLen(s) > 0
    ensures IsNumeral(s[..MatchLen(s)])
  {
    var n := MatchLen(s);
    if s != [] && IsSign(s[0]) {
      UnsignedMatchIsNumeral(s[1..]);
      assert s[..n][1..] == s[1..][..n - 1];
    } else {
      UnsignedMatchIsNumeral(s);
    }
  }

  /** `w.f` followed by a boundary is matched exactly. */
  lemma DottedMatches(body: string, d: nat, rest: string)
    requires d + 1 < |body| && body[d] == '.'
    requires AllDigits(body[..d]) && AllDigits(body[d + 1..]) && Boundary(rest)
    ensures UnsignedMatchLen(body + rest) == |body|
  {
    var s := body + rest;
    assert s[..d] == body[..d];
    assert s[..d] + s[d..] == s;
    assert s[d..][0] == s[d] == '.';
    DigitRunConcat(body[..d], s[d..]);
    assert DigitRun(s) == d;
    assert IsDigit(body[d + 1..][0]);
    assert s[d + 1..] == body[d + 1..] + rest;
    DigitRunConcat(body[d + 1..], rest);
  }

  /** An unsigned literal followed by a boundary is matched exactly. */
  lemma UnsignedNumeralMatches(body: string, rest: string)
    requires body != [] && Boundary(rest)
    requires AllDigits(body) ||
             var d := IndexOf(body, '.'); d + 1 < |body| && AllDigits(body[..d]) && AllDigits(body[d + 1..])
    ensures UnsignedMatchLen(body + rest) == |body|
  {
    if AllDigits(body) {
      DigitRunConcat(body, rest);
    } else {
      DottedMatches(body, IndexOf(body, '.'), rest);
    }
  }

  /** A literal followed by a boundary is matched exactly. */
  lemma NumeralMatches(t: string, rest: string)
    requires IsNumeral(t) && Boundary(rest)
    ensures MatchLen(t + rest) == |t|
  {
    var body := Unsigned(t);
    if t != [] && IsSign(t[0]) {
      assert (t + rest)[1..] == body + rest;
      UnsignedNumeralMatches(body, rest);
    } else {
      UnsignedNumeralMatches(body, rest);
    }
  }

  /** `re.findall(r"([-+]?\d*\.?\d+)", s)`: the non-overlapping matches, left to right. */
  function Tokens(s: string): (ts: seq<string>)
    ensures forall i :: 0 <= i < |ts| ==> IsNumeral(ts[i])
    decreases |s|
  {
    if s == [] then []
    else
      var n := MatchLen(s);
      if n > 0 then
        MatchIsNumeral(s);
        [s[..n]] + Tokens(s[n..])
      else Tokens(s[1..])
  }

  /**
   * `re.search(key + r"([-+]?\d*\.?\d+)", s).group(1)`: the literal after the
   * first occurrence of `key` that is followed by one, or None.
   */
  function Search(s: string, key: string): (r: Option<string>)
    ensures r.Some? ==> IsNumeral(r.value)
    decreases |s|
  {
    if StartsWith(s, key) && MatchLen(s[|key|..]) > 0 then
      MatchIsNumeral(s[|key|..]);
      Some(s[|key|..][..MatchLen(s[|key|..])])
    else if s == [] then None
    else Search(s[1..], key)
  }

  /** Characters that can never start a match of the pattern. */
  predicate NoTokenStart(x: string) {
    forall i :: 0 <= i < |x| ==> !IsDigit(x[i]) && !IsSign(x[i]) && x[i] != '.'
  }

  /** A stretch without digits, signs or dots contributes no token. */
  lemma {:induction false} TokensSkip(x: string, y: string)
    requires NoTokenStart(x)
    ensures Tokens(x + y) == Tokens(y)
  {
    if x != [] {
      assert MatchLen(x + y) == 0;
      assert (x + y)[1..] == x[1..] + y;
      TokensSkip(x[1..], y);
    } else {
      assert x + y == y;
    }
  }

  /** A literal followed by a boundary is the next token. */
  lemma TokensNumeral(t: string, rest: string)
    requires IsNumeral(t) && Boundary(rest)
    ensures Tokens(t + rest) == [t] + Tokens(rest)
  {
    NumeralMatches(t, rest);
    assert (t + rest)[..|t|] == t;
    assert (t + rest)[|t|..] == rest;
  }

  /** A stretch that holds no first character of `key` is passed over by the search. */
  lemma {:induction false} SearchSkip(x: string, y: string, key: string)
    requires key != [] && forall i :: 0 <= i < |x| ==> x[i] != key[0]
    ensures Search(x + y, key) == Search(y, key)
  {
    if x != [] {
      assert (x + y)[0] != key[0];
      assert (x + y)[1..] == x[1..] + y;
      SearchSkip(x[1..], y, key);
    } else {
      assert x + y == y;
    }
  }

  /** The search finds the literal right after `key`. */
  lemma SearchHit(key: string, t: string, rest: string)
    requires IsNumeral(t) && Boundary(rest)
    ensures Search(key + t + rest, key) == Some(t)
  {
    var s := key + t + rest;
    assert StartsWith(s, key);
    assert s[|key|..] == t + rest;
    NumeralMatches(t, rest);
    assert (t + rest)[..|t|] == t;
  }
}
