/**
 Whitespace tokenisation of an input line, as Python's `str.strip()` followed by
 `str.split()` (no separator argument) performs it: the line is cut into the
 maximal runs of non-whitespace characters, and leading, trailing and repeated
 whitespace produce no empty tokens.
 */
module Tokens {

  /** Python's `str.isspace` characters, which is the set `split()` and `strip()`
      (without arguments) treat as whitespace. */
  predicate IsSpace(c: char) {
    || '\U{9}' <= c <= '\U{D}'
    || '\U{1C}' <= c <= '\U{20}'
    || c == '\U{85}' || c == '\U{A0}' || c == '\U{1680}'
    || '\U{2000}' <= c <= '\U{200A}'
    || c == '\U{2028}' || c == '\U{2029}' || c == '\U{202F}'
    || c == '\U{205F}' || c == '\U{3000}'
  }

  /** The whitespace set written out character by character: the 29
      characters for which Python's `str.isspace` holds. */
  lemma SpaceCharacters(c: char)
    ensures IsSpace(c) <==> c in {
      '\t', '\n', '\U{B}', '\U{C}', '\r', '\U{1C}', '\U{1D}', '\U{1E}', '\U{1F}', ' ',
      '\U{85}', '\U{A0}', '\U{1680}',
      '\U{2000}', '\U{2001}', '\U{2002}', '\U{2003}', '\U{2004}', '\U{2005}',
      '\U{2006}', '\U{2007}', '\U{2008}', '\U{2009}', '\U{200A}',
      '\U{2028}', '\U{2029}', '\U{202F}', '\U{205F}', '\U{3000}' }
  {
  }

  /** A string with no whitespace character in it. */
  predicate SpaceFree(s: string) {
    forall i :: 0 <= i < |s| ==> !IsSpace(s[i])
  }

  /** A string made of whitespace characters only. */
  predicate AllSpace(s: string) {
    forall i :: 0 <= i < |s| ==> IsSpace(s[i])
  }

  /** A well-formed token: non-empty and free of whitespace. */
  predicate IsToken(t: string) {
    |t| > 0 && SpaceFree(t)
  }

  /** The longest whitespace-free prefix of `s`. */
  function LeadingWord(s: string): (w: string)
    ensures w <= s
    ensures SpaceFree(w)
    ensures |w| == |s| || IsSpace(s[|w|])
  {
    if |s| == 0 || IsSpace(s[0]) then [] else [s[0]] + LeadingWord(s[1..])
  }

  /** The tokens of `s`, left to right: Python's `s.split()`. */
  function Words(s: string): (ts: seq<string>)
    ensures forall i :: 0 <= i < |ts| ==> IsToken(ts[i])
    decreases |s|
  {
    if |s| == 0 then []
    else if IsSpace(s[0]) then Words(s[1..])
    else
      var w := LeadingWord(s);
      [w] + Words(s[|w|..])
  }

  /** `s` without its leading whitespace. */
  function TrimLeft(s: string): string {
    if |s| > 0 && IsSpace(s[0]) then TrimLeft(s[1..]) else s
  }

  /** `s` without its trailing whitespace. */
  function TrimRight(s: string): string {
    if |s| > 0 && IsSpace(s[|s| - 1]) then TrimRight(s[..|s| - 1]) else s
  }

  /** Python's `s.strip()`. */
  function Strip(s: string): (r: string)
    ensures |r| == 0 || (!IsSpace(r[0]) && !IsSpace(r[|r| - 1]))
    ensures exists i, j :: 0 <= i <= j <= |s| && r == s[i..j] && AllSpace(s[..i]) && AllSpace(s[j..])
  {
    StripIsSlice(s);
    TrimRight(TrimLeft(s))
  }

  /** The token list `parse_input` computes, `s.strip().split()`: stripping first
      changes nothing, so it is the token list of `s` itself. */
  function Tokenize(s: string): (ts: seq<string>)
    ensures ts == Words(s)
  {
    WordsOfStrip(s);
    Words(Strip(s))
  }

  /** The tokens written out again, separated by single blanks. */
  function Join(ts: seq<string>): string {
    if |ts| == 0 then ""
    else if |ts| == 1 then ts[0]
    else ts[0] + " " + Join(ts[1..])
  }

  /** All tokens of `ts` glued together. */
  function Concat(ts: seq<string>): string {
    if |ts| == 0 then "" else ts[0] + Concat(ts[1..])
  }

  /** The non-whitespace characters of `s`, in order. */
  function NonSpace(s: string): string {
    if |s| == 0 then ""
    else if IsSpace(s[0]) then NonSpace(s[1..])
    else [s[0]] + NonSpace(s[1..])
  }

  // ---------------------------------------------------------------------
  // Facts about trimming

  lemma {:induction false} TrimLeftShape(s: string) returns (i: nat)
    ensures i <= |s| && TrimLeft(s) == s[i..] && AllSpace(s[..i])
    ensures i == |s| || !IsSpace(s[i])
    decreases |s|
  {
    if |s| > 0 && IsSpace(s[0]) {
      var k := TrimLeftShape(s[1..]);
      i := k + 1;
      assert s[1..][k..] == s[i..];
      var pre := s[..i];
      forall m | 0 <= m < |pre|
        ensures IsSpace(pre[m])
      {
        if m > 0 {
          assert pre[m] == s[1..][..k][m - 1];
        }
      }
    } else {
      i := 0;
      assert TrimLeft(s) == s[0..];
    }
  }

  lemma {:induction false} TrimRightShape(s: string) returns (j: nat)
    ensures j <= |s| && TrimRight(s) == s[..j] && AllSpace(s[j..])
    ensures j == 0 || !IsSpace(s[j - 1])
    decreases |s|
  {
    if |s| > 0 && IsSpace(s[|s| - 1]) {
      var p := s[..|s| - 1];
      j := TrimRightShape(p);
      assert p[..j] == s[..j];
      var post := s[j..];
      forall m | 0 <= m < |post|
        ensures IsSpace(post[m])
      {
        if m < |p| - j {
          assert post[m] == p[j..][m];
        }
      }
    } else {
      j := |s|;
      assert TrimRight(s) == s[..|s|];
    }
  }

  lemma StripShape(s: string) returns (i: nat, j: nat)
    ensures i <= j <= |s|
    ensures TrimRight(TrimLeft(s)) == s[i..j]
    ensures AllSpace(s[..i]) && AllSpace(s[j..])
    ensures i < j ==> !IsSpace(s[i]) && !IsSpace(s[j - 1])
  {
    var l := TrimLeft(s);
    i := TrimLeftShape(s);
    var k := TrimRightShape(l);
    j := i + k;
    assert l[..k] == s[i..j];
    assert l[k..] == s[j..];
  }

  lemma StripIsSlice(s: string)
    ensures var r := TrimRight(TrimLeft(s));
      && (|r| == 0 || (!IsSpace(r[0]) && !IsSpace(r[|r| - 1])))
      && exists i, j :: 0 <= i <= j <= |s| && r == s[i..j] && AllSpace(s[..i]) && AllSpace(s[j..])
  {
    var i, j := StripShape(s);
    assert 0 <= i <= j <= |s| && TrimRight(TrimLeft(s)) == s[i..j] && AllSpace(s[..i]) && AllSpace(s[j..]);
  }

  // ---------------------------------------------------------------------
  // Facts about splitting

  /** Whitespace in front of a line does not change its tokens. */
  lemma {:induction false} WordsOfTrimLeft(s: string)
    ensures Words(TrimLeft(s)) == Words(s)
    decreases |s|
  {
    if |s| > 0 && IsSpace(s[0]) {
      WordsOfTrimLeft(s[1..]);
    }
  }

  /** A whitespace-free word followed by whitespace or the end of the line is
      exactly the leading word. */
  lemma {:induction false} LeadingWordOf(w: string, x: string)
    requires SpaceFree(w)
    requires |x| == 0 || IsSpace(x[0])
    ensures LeadingWord(w + x) == w
    decreases |w|
  {
    if |w| > 0 {
      assert (w + x)[1..] == w[1..] + x;
      LeadingWordOf(w[1..], x);
    }
  }

  lemma SeqAssociative<T>(p: seq<T>, q: seq<T>, r: seq<T>)
    ensures p + (q + r) == (p + q) + r
  {
  }

  /** Whitespace in front of a line is skipped. */
  lemma SpaceThen(c: char, y: string)
    requires IsSpace(c)
    ensures Words([c] + y) == Words(y)
  {
    assert ([c] + y)[1..] == y;
  }

  /** A token followed by whitespace or the end of the line is read first. */
  lemma TokenThen(w: string, y: string)
    requires IsToken(w)
    requires |y| == 0 || IsSpace(y[0])
    ensures Words(w + y) == [w] + Words(y)
  {
    LeadingWordOf(w, y);
    assert (w + y)[0] == w[0];
    assert (w + y)[|w|..] == y;
  }

  /** A whitespace character separates tokens: the tokens of a line cut at
      any whitespace character are the tokens before it followed by the tokens
      after it. A run of whitespace therefore acts as one separator, and no
      token spans whitespace. */
  lemma {:induction false} WordsOfSep(a: string, c: char, b: string)
    requires IsSpace(c)
    ensures Words(a + [c] + b) == Words(a) + Words(b)
    decreases |a|
  {
    if |a| == 0 {
      assert a + [c] + b == [c] + b;
      SpaceThen(c, b);
    } else if IsSpace(a[0]) {
      var y := a[1..] + [c] + b;
      assert a + [c] + b == [a[0]] + y;
      assert a == [a[0]] + a[1..];
      SpaceThen(a[0], y);
      SpaceThen(a[0], a[1..]);
      WordsOfSep(a[1..], c, b);
    } else {
      var w := LeadingWord(a);
      var x := a[|w|..];
      var y := x + [c] + b;
      assert a == w + x;
      assert a + [c] + b == w + y;
      if |x| > 0 {
        assert x[0] == a[|w|];
      }
      TokenThen(w, x);
      TokenThen(w, y);
      WordsOfSep(x, c, b);
      calc {
        Words(a + [c] + b);
        [w] + Words(y);
        [w] + (Words(x) + Words(b));
        { SeqAssociative([w], Words(x), Words(b)); }
        ([w] + Words(x)) + Words(b);
        Words(a) + Words(b);
      }
    }
  }

  /** One whitespace character appended to a line does not change its tokens. */
  lemma WordsOfSnocSpace(s: string, c: char)
    requires IsSpace(c)
    ensures Words(s + [c]) == Words(s)
  {
    WordsOfSep(s, c, []);
    assert s + [c] + [] == s + [c];
  }

  /** Whitespace at the end of a line does not change its tokens. */
  lemma {:induction false} WordsOfTrimRight(s: string)
    ensures Words(TrimRight(s)) == Words(s)
    decreases |s|
  {
    if |s| > 0 && IsSpace(s[|s| - 1]) {
      var p := s[..|s| - 1];
      assert s == p + [s[|s| - 1]];
      WordsOfSnocSpace(p, s[|s| - 1]);
      WordsOfTrimRight(p);
    }
  }

  /** `s.strip().split() == s.split()`. */
  lemma WordsOfStrip(s: string)
    ensures Words(TrimRight(TrimLeft(s))) == Words(s)
  {
    WordsOfTrimRight(TrimLeft(s));
    WordsOfTrimLeft(s);
  }

  /** Splitting undoes joining: a list of tokens written out with blanks between
      them splits back into the same list. */
  lemma {:induction false} WordsOfJoin(ts: seq<string>)
    requires forall i :: 0 <= i < |ts| ==> IsToken(ts[i])
    ensures Words(Join(ts)) == ts
    decreases |ts|
  {
    if |ts| == 1 {
      LeadingWordOf(ts[0], "");
      assert ts[0] + "" == ts[0];
      assert Join(ts)[|ts[0]|..] == "";
    } else if |ts| > 1 {
      var rest := Join(ts[1..]);
      var s := ts[0] + " " + rest;
      assert s == ts[0] + (" " + rest);
      LeadingWordOf(ts[0], " " + rest);
      assert s[|ts[0]|..] == " " + rest;
      assert (" " + rest)[1..] == rest;
      WordsOfJoin(ts[1..]);
      assert Words(s) == [ts[0]] + Words(" " + rest);
    }
  }

  lemma {:induction false} NonSpaceOfSpaceFree(w: string)
    requires SpaceFree(w)
    ensures NonSpace(w) == w
    decreases |w|
  {
    if |w| > 0 {
      NonSpaceOfSpaceFree(w[1..]);
      assert w == [w[0]] + w[1..];
    }
  }

  lemma {:induction false} NonSpaceAppend(a: string, b: string)
    ensures NonSpace(a + b) == NonSpace(a) + NonSpace(b)
    decreases |a|
  {
    if |a| > 0 {
      assert (a + b)[1..] == a[1..] + b;
      NonSpaceAppend(a[1..], b);
    } else {
      assert a + b == b;
    }
  }

  /** Splitting loses only whitespace: the tokens glued back together are the
      non-whitespace characters of the line, in order. */
  lemma {:induction false} WordsKeepNonSpace(s: string)
    ensures Concat(Words(s)) == NonSpace(s)
    decreases |s|
  {
    if |s| > 0 {
      if IsSpace(s[0]) {
        WordsKeepNonSpace(s[1..]);
      } else {
        var w := LeadingWord(s);
        assert s == w + s[|w|..];
        NonSpaceAppend(w, s[|w|..]);
        NonSpaceOfSpaceFree(w);
        WordsKeepNonSpace(s[|w|..]);
        assert Concat(Words(s)) == w + Concat(Words(s[|w|..]));
      }
    }
  }

  /** A line has no tokens exactly when it is blank. */
  lemma {:induction false} NoWordsIffBlank(s: string)
    ensures |Words(s)| == 0 <==> AllSpace(s)
    decreases |s|
  {
    if |s| > 0 {
      if IsSpace(s[0]) {
        NoWordsIffBlank(s[1..]);
        if AllSpace(s[1..]) {
          assert forall i :: 1 <= i < |s| ==> s[i] == s[1..][i - 1];
        }
      }
    }
  }
}
