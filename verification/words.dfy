/** JavaScript's white space (the `WhiteSpace` and `LineTerminator` code
    points that both `String.prototype.trim` and the regular-expression
    class `\s` use), `trim`, `split(/\s+/)` on a trimmed string, and
    `join(' ')`.
 */
module Words {

  predicate IsSpace(c: char) {
    || c == ' ' || c == '\t' || c == '\n' || c == '\U{B}' || c == '\U{C}' || c == '\r'
    || c == '\U{A0}' || c == '\U{1680}' || ('\U{2000}' <= c <= '\U{200A}')
    || c == '\U{2028}' || c == '\U{2029}' || c == '\U{202F}' || c == '\U{205F}'
    || c == '\U{3000}' || c == '\U{FEFF}'
  }

  predicate NoSpace(s: string) {
    forall i :: 0 <= i < |s| ==> !IsSpace(s[i])
  }

  predicate AllSpace(s: string) {
    forall i :: 0 <= i < |s| ==> IsSpace(s[i])
  }

  /** A word: a non-empty run with no white space. */
  predicate IsWord(w: string) {
    w != [] && NoSpace(w)
  }

  /** `s.trimStart()`. */
  function TrimStart(s: string): (r: string)
    ensures |r| <= |s| && r == s[|s| - |r|..]
    ensures AllSpace(s[..|s| - |r|])
    ensures r != [] ==> !IsSpace(r[0])
  {
    if s != [] && IsSpace(s[0]) then TrimStart(s[1..]) else s
  }

  /** `s.trimEnd()`. */
  function TrimEnd(s: string): (r: string)
    ensures |r| <= |s| && r == s[..|r|]
    ensures AllSpace(s[|r|..])
    ensures r != [] ==> !IsSpace(r[|r| - 1])
  {
    if s != [] && IsSpace(s[|s| - 1]) then TrimEnd(s[..|s| - 1]) else s
  }

  /** `s.trim()`. */
  function Trim(s: string): (r: string)
    ensures r != [] ==> !IsSpace(r[0]) && !IsSpace(r[|r| - 1])
    ensures |r| <= |s|
  {
    TrimEnd(TrimStart(s))
  }

  /** Trimming does not change the words. */
  lemma TrimKeepsTokens(s: string)
    ensures Tokens(Trim(s)) == Tokens(s)
  {
    LeadingSpaceSkipped(s);
    TrailingSpaceDropped(TrimStart(s));
  }

  lemma {:induction false} LeadingSpaceSkipped(s: string)
    ensures Tokens(TrimStart(s)) == Tokens(s)
    decreases |s|
  {
    if s != [] && IsSpace(s[0]) {
      LeadingSpaceSkipped(s[1..]);
    }
  }

  lemma {:induction false} TrailingSpaceDropped(s: string)
    ensures Tokens(TrimEnd(s)) == Tokens(s)
    decreases |s|
  {
    if s != [] && IsSpace(s[|s| - 1]) {
      var init := s[..|s| - 1];
      TrailingSpaceDropped(init);
      TrailingSpace(init, s[|s| - 1]);
      assert s == init + [s[|s| - 1]];
    }
  }

  /** One white-space character at the end adds no word. */
  lemma {:induction false} TrailingSpace(s: string, c: char)
    requires IsSpace(c)
    ensures Tokens(s + [c]) == Tokens(s)
    decreases |s|
  {
    var t := s + [c];
    if s == [] {
      assert t[1..] == [];
    } else if IsSpace(s[0]) {
      assert t[1..] == s[1..] + [c];
      TrailingSpace(s[1..], c);
    } else {
      var n := RunLength(s);
      RunLengthExtends(s, c);
      assert t[..n] == s[..n];
      assert t[n..] == s[n..] + [c];
      TrailingSpace(s[n..], c);
    }
  }

  lemma {:induction false} RunLengthExtends(s: string, c: char)
    requires IsSpace(c)
    ensures RunLength(s + [c]) == RunLength(s)
    decreases |s|
  {
    if s != [] && !IsSpace(s[0]) {
      assert (s + [c])[1..] == s[1..] + [c];
      RunLengthExtends(s[1..], c);
    } else if s == [] {
      assert (s + [c])[0] == c;
    }
  }

  /** The length of the run of non-space characters `s` starts with. */
  function RunLength(s: string): (n: nat)
    ensures n <= |s| && NoSpace(s[..n])
    ensures n < |s| ==> IsSpace(s[n])
  {
    if s == [] || IsSpace(s[0]) then 0 else 1 + RunLength(s[1..])
  }

  /** The maximal runs of non-space characters, in order. */
  function Tokens(s: string): (ws: seq<string>)
    ensures forall i :: 0 <= i < |ws| ==> IsWord(ws[i])
    decreases |s|
  {
    if s == [] then []
    else if IsSpace(s[0]) then Tokens(s[1..])
    else
      var n := RunLength(s);
      [s[..n]] + Tokens(s[n..])
  }

  /** `text.trim().split(/\s+/)`: the words of `text`, or `[""]` when it
      is blank. */
  function SplitWords(text: string): (ws: seq<string>)
    ensures |ws| >= 1
    ensures Trim(text) == [] ==> ws == [""]
    ensures Trim(text) != [] ==> ws == Tokens(text) && forall i :: 0 <= i < |ws| ==> IsWord(ws[i])
  {
    var t := Trim(text);
    if t == [] then [""]
    else
      NonEmptyHasToken(t);
      TrimKeepsTokens(text);
      Tokens(t)
  }

  lemma NonEmptyHasToken(t: string)
    requires t != [] && !IsSpace(t[0])
    ensures Tokens(t) != []
  {
  }

  /** `ws.join(' ')`. */
  function Join(ws: seq<string>): (r: string)
    ensures ws == [] ==> r == ""
  {
    if ws == [] then ""
    else if |ws| == 1 then ws[0]
    else ws[0] + " " + Join(ws[1..])
  }

  /** Splitting words joined with single spaces gives the words back. */
  lemma {:induction false} TokensJoin(ws: seq<string>)
    requires forall i :: 0 <= i < |ws| ==> IsWord(ws[i])
    ensures Tokens(Join(ws)) == ws
    decreases |ws|
  {
    if ws == [] {
    } else {
      var w := ws[0];
      var s := Join(ws);
      RunOfWord(w, if |ws| == 1 then "" else " " + Join(ws[1..]));
      if |ws| == 1 {
        assert s == w + "";
        assert s[|w|..] == [];
      } else {
        TokensJoin(ws[1..]);
        assert s == w + (" " + Join(ws[1..]));
        assert s[|w|..] == " " + Join(ws[1..]);
        assert (" " + Join(ws[1..]))[1..] == Join(ws[1..]);
      }
    }
  }

  /** A word followed by nothing or by white space is one run. */
  lemma {:induction false} RunOfWord(w: string, rest: string)
    requires IsWord(w)
    requires rest == [] || IsSpace(rest[0])
    ensures RunLength(w + rest) == |w|
    ensures Tokens(w + rest) == [w] + Tokens(rest)
    decreases |w|
  {
    if |w| > 1 {
      RunOfWord(w[1..], rest);
      assert (w + rest)[1..] == w[1..] + rest;
    } else {
      assert (w + rest)[1..] == rest;
    }
    var s := w + rest;
    assert s[..|w|] == w;
    assert s[|w|..] == rest;
  }
}
