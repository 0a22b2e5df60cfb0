/** The tokeniser of the Sina quotes client: it undoes joining. */
module Tokenize {

  /** Whether a character is one of the delimiters. */
  predicate IsDelimiter(c: char, delim: string)
  {
    c in delim
  }

  /** Each of several delimiters counts, and nothing else does. */
  lemma EachDelimiterCounts(c: char, d: char, more: string)
    ensures IsDelimiter(c, [d] + more) <==> c == d || IsDelimiter(c, more)
    ensures !IsDelimiter(c, "")
  {
  }

  /** The delimiter characters of a string, in order. */
  function Delimiters(s: string, delim: string): (ds: string)
    decreases |s|
  {
    if s == "" then ""
    else
      var n := |s| - 1;
      Delimiters(s[..n], delim) + if IsDelimiter(s[n], delim) then [s[n]] else ""
  }

  /** Tokens with delimiters between them. */
  function Interleave(tokens: seq<string>, ds: string): (s: string)
    requires |tokens| == |ds| + 1
    decreases |ds|
  {
    if ds == "" then tokens[0]
    else
      var n := |ds| - 1;
      Interleave(tokens[..n + 1], ds[..n]) + [ds[n]] + tokens[n + 1]
  }

  predicate FreeOf(s: string, delim: string)
  {
    forall c <- s :: !IsDelimiter(c, delim)
  }

  /** What tokenize computes: one more token than there are delimiters, no token containing one,
      and putting the delimiters back gives the string. */
  predicate IsSplit(tokens: seq<string>, s: string, delim: string)
  {
    && |tokens| == |Delimiters(s, delim)| + 1
    && (forall t <- tokens :: FreeOf(t, delim))
    && Interleave(tokens, Delimiters(s, delim)) == s
  }

  lemma {:induction false} DelimitersConcat(a: string, b: string, delim: string)
    ensures Delimiters(a + b, delim) == Delimiters(a, delim) + Delimiters(b, delim)
    decreases |b|
  {
    if b == "" {
      assert a + b == a;
    } else {
      var n := |b| - 1;
      DelimitersConcat(a, b[..n], delim);
      assert (a + b)[..|a + b| - 1] == a + b[..n];
      assert (a + b)[|a + b| - 1] == b[n];
    }
  }

  lemma {:induction false} NoDelimiters(s: string, delim: string)
    requires FreeOf(s, delim)
    ensures Delimiters(s, delim) == ""
    decreases |s|
  {
    if s != "" {
      assert forall c <- s[..|s| - 1] :: c in s;
      NoDelimiters(s[..|s| - 1], delim);
      assert s[|s| - 1] in s;
    }
  }

  /** One more delimiter and token at the end. */
  lemma SplitMore(tokens: seq<string>, s: string, c: char, token: string, delim: string)
    requires IsSplit(tokens, s, delim) && IsDelimiter(c, delim) && FreeOf(token, delim)
    ensures IsSplit(tokens + [token], s + [c] + token, delim)
  {
    DelimitersConcat(s, [c], delim);
    DelimitersConcat(s + [c], token, delim);
    NoDelimiters(token, delim);
    assert Delimiters([c], delim) == [c] by { assert [c][..0] == ""; }
    var ds := Delimiters(s, delim);
    assert Delimiters(s + [c] + token, delim) == ds + [c];
    assert (tokens + [token])[..|ds| + 1] == tokens && (ds + [c])[..|ds|] == ds;
  }

  lemma SplitOne(token: string, delim: string)
    requires FreeOf(token, delim)
    ensures IsSplit([token], token, delim)
  {
    NoDelimiters(token, delim);
  }

  /** A split is unique: there is only one list of tokens with these properties. */
  lemma {:induction false} SplitUnique(a: seq<string>, b: seq<string>, ds: string, delim: string)
    requires |a| == |ds| + 1 && |b| == |ds| + 1 && Interleave(a, ds) == Interleave(b, ds)
    requires (forall t <- a :: FreeOf(t, delim)) && (forall t <- b :: FreeOf(t, delim))
    requires forall d <- ds :: IsDelimiter(d, delim)
    ensures a == b
    decreases |ds|
  {
    if ds == "" {
      assert a == [a[0]] && b == [b[0]];
    } else {
      var n := |ds| - 1;
      var x, y := Interleave(a[..n + 1], ds[..n]), Interleave(b[..n + 1], ds[..n]);
      assert a[n + 1] in a && b[n + 1] in b && ds[n] in ds;
      LastTokenUnique(x, y, ds[n], a[n + 1], b[n + 1], delim);
      assert forall t <- a[..n + 1] :: t in a;
      assert forall t <- b[..n + 1] :: t in b;
      assert forall d <- ds[..n] :: d in ds;
      SplitUnique(a[..n + 1], b[..n + 1], ds[..n], delim);
      assert a == a[..n + 1] + [a[n + 1]] && b == b[..n + 1] + [b[n + 1]];
    }
  }

  lemma TailFree(x: string, d: char, s: string, i: int, delim: string)
    requires |x| < i < |x| + 1 + |s| && FreeOf(s, delim)
    ensures !IsDelimiter((x + [d] + s)[i], delim)
  {
    assert (x + [d] + s)[i] == s[i - |x| - 1];
    assert s[i - |x| - 1] in s;
  }

  /** The last delimiter cannot stand further right than where the last token begins. */
  lemma NotLater(x: string, d: char, s: string, y: string, t: string, delim: string)
    requires x + [d] + s == y + [d] + t && IsDelimiter(d, delim) && FreeOf(s, delim)
    ensures |y| <= |x|
  {
    assert (y + [d] + t)[|y|] == d;
    if |x| < |y| {
      TailFree(x, d, s, |y|, delim);
      assert false;
    }
  }

  lemma LastTokenUnique(x: string, y: string, d: char, s: string, t: string, delim: string)
    requires x + [d] + s == y + [d] + t && IsDelimiter(d, delim) && FreeOf(s, delim) && FreeOf(t, delim)
    ensures x == y && s == t
  {
    NotLater(x, d, s, y, t, delim);
    NotLater(y, d, t, x, s, delim);
    var all := x + [d] + s;
    assert all[..|x|] == x && (y + [d] + t)[..|x|] == y;
    assert all[|x| + 1..] == s && (y + [d] + t)[|x| + 1..] == t;
  }

  lemma FreeEmpty(delim: string)
    ensures FreeOf("", delim)
  {
  }

  lemma FreeMore(s: string, c: char, delim: string)
    requires FreeOf(s, delim) && !IsDelimiter(c, delim)
    ensures FreeOf(s + [c], delim)
  {
  }

  lemma FreeLast(s: string, pre: nat, delim: string)
    requires pre < |s| && FreeOf(s[pre..], delim)
    ensures !IsDelimiter(s[|s| - 1], delim)
  {
    assert s[|s| - 1] in s[pre..];
  }

  lemma OneTokenTooMany(tokens: seq<string>, s: string, delim: string)
    requires IsSplit(tokens, s, delim)
    ensures !IsSplit(tokens + [""], s, delim)
  {
  }

  /** The character at a position; behind the last one stands the terminator. */
  function CharAt(s: string, i: nat): (c: char)
    requires i <= |s|
  {
    if i < |s| then s[i] else '\0'
  }

  /** The one case in which the tokeniser adds a token that is not there: the terminator itself
      is one of the delimiters, and the string does not end in a delimiter. */
  predicate ReadsTerminator(s: string, delim: string)
  {
    IsDelimiter('\0', delim) && (s == "" || !IsDelimiter(s[|s| - 1], delim))
  }

  /** Tokenising leaves out nothing, the empty string and a trailing delimiter included.  The
      loop runs at least once. */
  method Tokens(s: string, delim: string) returns (tokens: seq<string>)
    ensures IsSplit(tokens, s, delim) <==> !ReadsTerminator(s, delim)
    ensures ReadsTerminator(s, delim) ==>
      tokens != [] && IsSplit(tokens[..|tokens| - 1], s, delim) && tokens[|tokens| - 1] == ""
  {
    hide IsSplit, FreeOf, IsDelimiter;
    tokens := [];
    var pre, pos, more := 0, 0, true;
    while more
      invariant 0 <= pos <= |s| + 1
      invariant tokens == [] ==> pos == 0 && more
      invariant tokens != [] ==> pos > 0 && IsSplit(tokens, s[..pos - 1], delim) && (more <==> pos < |s|)
      invariant tokens != [] && pos <= |s| ==> IsDelimiter(s[pos - 1], delim)
      invariant tokens != [] && pos > |s| > 0 ==> !IsDelimiter(s[|s| - 1], delim)
      decreases |s| + 1 - pos
    {
      pre := pos;
      FreeEmpty(delim);
      assert s[pre..pos] == "";
      while pos < |s| && !IsDelimiter(s[pos], delim)
        invariant pre <= pos <= |s|
        invariant FreeOf(s[pre..pos], delim)
      {
        assert s[pre..pos + 1] == s[pre..pos] + [s[pos]];
        FreeMore(s[pre..pos], s[pos], delim);
        pos := pos + 1;
      }
      if pre < pos == |s| {
        assert s[pre..pos] == s[pre..];
        FreeLast(s, pre, delim);
      }
      if tokens != [] {
        SplitMore(tokens, s[..pre - 1], s[pre - 1], s[pre..pos], delim);
        assert s[..pre - 1] + [s[pre - 1]] + s[pre..pos] == s[..pos];
      } else {
        SplitOne(s[pre..pos], delim);
        assert s[pre..pos] == s[..pos];
        assert tokens + [s[pre..pos]] == [s[pre..pos]];
      }
      tokens := tokens + [s[pre..pos]];
      pos := pos + 1;
      more := pos < |s|;
    }
    assert s[..|s|] == s;
    if IsDelimiter(CharAt(s, pos - 1), delim) {
      if pos <= |s| {
        FreeEmpty(delim);
        SplitMore(tokens, s[..pos - 1], s[pos - 1], "", delim);
        assert s[..pos - 1] + [s[pos - 1]] + "" == s;
      } else {
        assert (tokens + [""])[..|tokens|] == tokens;
        OneTokenTooMany(tokens, s, delim);
      }
      tokens := tokens + [""];
    }
  }

  /** A string has one split only. */
  lemma SplitsAgree(a: seq<string>, b: seq<string>, s: string, delim: string)
    requires IsSplit(a, s, delim) && IsSplit(b, s, delim)
    ensures a == b
  {
    DelimitersAre(s, delim);
    SplitUnique(a, b, Delimiters(s, delim), delim);
  }

  /** Two delimiters. */
  method TwoDelimiters() returns (tokens: seq<string>)
    ensures tokens == ["a", "b", "", "c"]
  {
    hide IsSplit;
    FreeChars();
    SplitOne("a", ",;");
    SplitMore(["a"], "a", ',', "b", ",;");
    SplitMore(["a"] + ["b"], "a" + [','] + "b", ';', "", ",;");
    SplitMore(["a"] + ["b"] + [""], "a" + [','] + "b" + [';'] + "", ',', "c", ",;");
    assert "a" + [','] + "b" + [';'] + "" + [','] + "c" == "a,b;,c";
    assert ["a"] + ["b"] + [""] + ["c"] == ["a", "b", "", "c"];
    tokens := Tokens("a,b;,c", ",;");
    SplitsAgree(tokens, ["a", "b", "", "c"], "a,b;,c", ",;");
  }

  lemma FreeChars()
    ensures FreeOf("a", ",;") && FreeOf("b", ",;") && FreeOf("c", ",;") && FreeOf("", ",;")
    ensures IsDelimiter(',', ",;") && IsDelimiter(';', ",;")
    ensures !ReadsTerminator("a,b;,c", ",;")
  {
  }

  /** The tokeniser on the empty string, with the terminator for a delimiter: one token too many. */
  method TerminatorAsDelimiter() returns (tokens: seq<string>)
    ensures ReadsTerminator("", "\0")
    ensures tokens == ["", ""] && !IsSplit(tokens, "", "\0") && IsSplit([""], "", "\0")
  {
    SplitOne("", "\0");
    tokens := Tokens("", "\0");
    NoDelimiters("", "\0");
    assert |tokens[..|tokens| - 1]| == 1;
    assert tokens[0] == tokens[..|tokens| - 1][0] == "";
  }

  // ---- Joining -----------------------------------------------------------------------------

  /** Strings joined with a separator; nothing for no strings. */
  function Join(words: seq<string>, sep: char): (s: string)
    decreases |words|
  {
    if words == [] then ""
    else if |words| == 1 then words[0]
    else Join(words[..|words| - 1], sep) + [sep] + words[|words| - 1]
  }

  lemma {:induction false} JoinIsSplit(words: seq<string>, sep: char)
    requires words != [] && forall w <- words :: FreeOf(w, [sep])
    ensures IsSplit(words, Join(words, sep), [sep])
    decreases |words|
  {
    var n := |words| - 1;
    assert words[n] in words;
    if n == 0 {
      SplitOne(words[0], [sep]);
      assert words == [words[0]];
    } else {
      assert forall w <- words[..n] :: w in words;
      JoinIsSplit(words[..n], sep);
      SplitMore(words[..n], Join(words[..n], sep), sep, words[n], [sep]);
      assert words == words[..n] + [words[n]];
    }
  }

  lemma {:induction false} DelimitersAre(s: string, delim: string)
    ensures forall d <- Delimiters(s, delim) :: IsDelimiter(d, delim)
    decreases |s|
  {
    if s != "" {
      DelimitersAre(s[..|s| - 1], delim);
    }
  }

  /** Splitting a joined page of comma-free codes gives back exactly that page. */
  lemma SplitUndoesJoin(words: seq<string>, sep: char, tokens: seq<string>)
    requires words != [] && forall w <- words :: FreeOf(w, [sep])
    requires IsSplit(tokens, Join(words, sep), [sep])
    ensures tokens == words
  {
    JoinIsSplit(words, sep);
    DelimitersAre(Join(words, sep), [sep]);
    SplitUnique(tokens, words, Delimiters(Join(words, sep), [sep]), [sep]);
  }
}
