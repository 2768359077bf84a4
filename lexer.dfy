/** The lexer of lis.py: `split_word` cuts a word at parentheses and
    `tokenize` runs it over every whitespace-separated word of every line. */
module Lexer {

  predicate IsParen(c: char) { c == '(' || c == ')' }

  /** The characters Python 2's str.split() separates words on. */
  predicate IsSpace(c: char)
  {
    c == ' ' || c == '\t' || c == '\n' || c == '\r' || c as int == 11 || c as int == 12
  }

  predicate ParenFree(s: string) { forall k :: 0 <= k < |s| ==> !IsParen(s[k]) }

  predicate SpaceFree(s: string) { forall k :: 0 <= k < |s| ==> !IsSpace(s[k]) }

  function Concat(ss: seq<string>): string
  {
    if ss == [] then [] else ss[0] + Concat(ss[1..])
  }

  /** The characters of s that are not whitespace, in order. */
  function NonSpace(s: string): string
  {
    if s == [] then [] else (if IsSpace(s[0]) then [] else [s[0]]) + NonSpace(s[1..])
  }

  /** A token: a lone parenthesis, or a non-empty run without parentheses. */
  predicate IsToken(t: string) { t == "(" || t == ")" || (t != "" && ParenFree(t)) }

  /** A word cut into tokens: every piece is a token and no two runs of
      ordinary characters are adjacent (each run is as long as it can be). */
  predicate WellSplit(toks: seq<string>)
  {
    && (forall k :: 0 <= k < |toks| ==> IsToken(toks[k]))
    && (forall k :: 0 <= k < |toks| - 1 ==> !(ParenFree(toks[k]) && ParenFree(toks[k + 1])))
  }

  /** The pending run, emitted only when non-empty. */
  function Flush(current: string): seq<string>
  {
    if current == "" then [] else [current]
  }

  /** `split_word` from the point where `current` holds the pending run. */
  function SplitFrom(w: string, current: string): seq<string>
    decreases |w|
  {
    if w == "" then Flush(current)
    else if IsParen(w[0]) then Flush(current) + [[w[0]]] + SplitFrom(w[1..], "")
    else SplitFrom(w[1..], current + [w[0]])
  }

  function Split(w: string): seq<string> { SplitFrom(w, "") }

  /** `line.split()`: the maximal runs of non-whitespace characters. */
  function WordsFrom(line: string, current: string): seq<string>
    decreases |line|
  {
    if line == "" then Flush(current)
    else if IsSpace(line[0]) then Flush(current) + WordsFrom(line[1..], "")
    else WordsFrom(line[1..], current + [line[0]])
  }

  function Words(line: string): seq<string> { WordsFrom(line, "") }

  function WordTokens(words: seq<string>): seq<string>
  {
    if words == [] then [] else Split(words[0]) + WordTokens(words[1..])
  }

  /** The tokens of the lines, in order. */
  function Tokens(lines: seq<string>): seq<string>
  {
    if lines == [] then [] else WordTokens(Words(lines[0])) + Tokens(lines[1..])
  }

  lemma {:induction false} ConcatAppend(a: seq<string>, b: seq<string>)
    ensures Concat(a + b) == Concat(a) + Concat(b)
  {
    if a == [] {
      assert a + b == b;
    } else {
      assert (a + b)[0] == a[0] && (a + b)[1..] == a[1..] + b;
      ConcatAppend(a[1..], b);
      calc {
        Concat(a + b);
        a[0] + Concat(a[1..] + b);
        a[0] + (Concat(a[1..]) + Concat(b));
      }
    }
  }

  lemma WellSplitJoin(a: seq<string>, p: string, b: seq<string>)
    requires WellSplit(a) && WellSplit(b) && (p == "(" || p == ")")
    ensures WellSplit(a + [p] + b)
  {
    var t := a + [p] + b;
    assert !ParenFree(p) by { assert IsParen(p[0]); }
    forall k | 0 <= k < |t| - 1
      ensures !(ParenFree(t[k]) && ParenFree(t[k + 1]))
    {
      if k < |a| - 1 {
        assert t[k] == a[k] && t[k + 1] == a[k + 1];
      } else if k == |a| - 1 {
        assert t[k + 1] == p;
      } else if k == |a| {
        assert t[k] == p;
      } else {
        assert t[k] == b[k - |a| - 1] && t[k + 1] == b[k - |a|];
      }
    }
  }

  lemma ConcatAround(front: seq<string>, c: char, rest: seq<string>)
    ensures Concat(front + [[c]] + rest) == Concat(front) + [c] + Concat(rest)
  {
    ConcatAppend(front + [[c]], rest);
    ConcatAppend(front, [[c]]);
    assert Concat([[c]]) == [c];
  }

  lemma {:induction false} SplitFromConcat(w: string, current: string)
    ensures Concat(SplitFrom(w, current)) == current + w
    decreases |w|
  {
    if w == "" {
      assert Concat(Flush(current)) == current;
    } else if IsParen(w[0]) {
      SplitFromConcat(w[1..], "");
      ParenConcat(w, current);
    } else {
      assert SplitFrom(w, current) == SplitFrom(w[1..], current + [w[0]]);
      SplitFromConcat(w[1..], current + [w[0]]);
      assert current + [w[0]] + w[1..] == current + w;
    }
  }

  /** The step of `SplitFromConcat` at a parenthesis. */
  lemma ParenConcat(w: string, current: string)
    requires w != "" && IsParen(w[0])
    requires Concat(SplitFrom(w[1..], "")) == "" + w[1..]
    ensures Concat(SplitFrom(w, current)) == current + w
  {
    var front, rest := Flush(current), SplitFrom(w[1..], "");
    assert Concat(rest) == w[1..] by {
      assert "" + w[1..] == w[1..];
    }
    assert Concat(front) == current;
    calc {
      Concat(SplitFrom(w, current));
      Concat(front + [[w[0]]] + rest);
      { ConcatAround(front, w[0], rest); }
      current + [w[0]] + w[1..];
      { assert w == [w[0]] + w[1..]; }
      current + w;
    }
  }

  lemma {:induction false} SplitFromWellSplit(w: string, current: string)
    requires ParenFree(current)
    ensures WellSplit(SplitFrom(w, current))
    decreases |w|
  {
    if w == "" {
      assert WellSplit(Flush(current));
    } else if IsParen(w[0]) {
      SplitFromWellSplit(w[1..], "");
      assert WellSplit(Flush(current));
      WellSplitJoin(Flush(current), [w[0]], SplitFrom(w[1..], ""));
    } else {
      assert ParenFree(current + [w[0]]);
      SplitFromWellSplit(w[1..], current + [w[0]]);
    }
  }

  /** Within one word: the tokens concatenate back to the word, none is
      empty, each is a lone parenthesis or holds no parenthesis, and runs
      are maximal. */
  lemma SplitFacts(w: string)
    ensures Concat(Split(w)) == w
    ensures WellSplit(Split(w))
  {
    SplitFromConcat(w, "");
    SplitFromWellSplit(w, "");
  }

  lemma {:induction false} WordsFromConcat(line: string, current: string)
    ensures Concat(WordsFrom(line, current)) == current + NonSpace(line)
    decreases |line|
  {
    if line == "" {
    } else if IsSpace(line[0]) {
      var rest := WordsFrom(line[1..], "");
      WordsFromConcat(line[1..], "");
      assert WordsFrom(line, current) == Flush(current) + rest;
      calc {
        Concat(Flush(current) + rest);
        { ConcatAppend(Flush(current), rest); }
        Concat(Flush(current)) + Concat(rest);
        { assert Concat(Flush(current)) == current; }
        current + ("" + NonSpace(line[1..]));
        { assert "" + NonSpace(line[1..]) == NonSpace(line[1..]) == NonSpace(line); }
        current + NonSpace(line);
      }
    } else {
      WordsFromConcat(line[1..], current + [line[0]]);
      calc {
        Concat(WordsFrom(line, current));
        Concat(WordsFrom(line[1..], current + [line[0]]));
        current + [line[0]] + NonSpace(line[1..]);
        { assert NonSpace(line) == [line[0]] + NonSpace(line[1..]); }
        current + NonSpace(line);
      }
    }
  }

  lemma {:induction false} WordsFromShape(line: string, current: string)
    requires SpaceFree(current)
    ensures forall k :: 0 <= k < |WordsFrom(line, current)| ==>
              WordsFrom(line, current)[k] != "" && SpaceFree(WordsFrom(line, current)[k])
    decreases |line|
  {
    if line == "" {
    } else if IsSpace(line[0]) {
      WordsFromShape(line[1..], "");
      assert WordsFrom(line, current) == Flush(current) + WordsFrom(line[1..], "");
    } else {
      assert SpaceFree(current + [line[0]]);
      WordsFromShape(line[1..], current + [line[0]]);
    }
  }

  /** `line.split()` keeps every non-whitespace character, in order, and
      yields only non-empty words without whitespace. */
  lemma WordsFacts(line: string)
    ensures Concat(Words(line)) == NonSpace(line)
    ensures forall k :: 0 <= k < |Words(line)| ==> Words(line)[k] != "" && SpaceFree(Words(line)[k])
  {
    WordsFromConcat(line, "");
    WordsFromShape(line, "");
  }

  lemma {:induction false} WordTokensFacts(words: seq<string>)
    ensures Concat(WordTokens(words)) == Concat(words)
    ensures forall k :: 0 <= k < |WordTokens(words)| ==> IsToken(WordTokens(words)[k])
  {
    if words != [] {
      SplitFacts(words[0]);
      WordTokensFacts(words[1..]);
      ConcatAppend(Split(words[0]), WordTokens(words[1..]));
      var t := WordTokens(words);
      forall k | 0 <= k < |t| ensures IsToken(t[k]) {
        if k >= |Split(words[0])| {
          assert t[k] == WordTokens(words[1..])[k - |Split(words[0])|];
        }
      }
    }
  }

  /** The token stream keeps exactly the non-whitespace characters of the
      input, in order, and every token is a lone parenthesis or a non-empty
      run without parentheses. */
  lemma {:induction false} TokensFacts(lines: seq<string>)
    ensures Concat(Tokens(lines)) == NonSpace(Concat(lines))
    ensures forall k :: 0 <= k < |Tokens(lines)| ==> IsToken(Tokens(lines)[k])
  {
    if lines != [] {
      var head, tail := WordTokens(Words(lines[0])), Tokens(lines[1..]);
      TokensFacts(lines[1..]);
      WordTokensFacts(Words(lines[0]));
      assert Tokens(lines) == head + tail;
      calc {
        Concat(head + tail);
        { ConcatAppend(head, tail); }
        Concat(head) + Concat(tail);
        { WordsFacts(lines[0]); }
        NonSpace(lines[0]) + NonSpace(Concat(lines[1..]));
        { NonSpaceAppend(lines[0], Concat(lines[1..])); }
        NonSpace(lines[0] + Concat(lines[1..]));
      }
      var t := Tokens(lines);
      forall k | 0 <= k < |t| ensures IsToken(t[k]) {
        if k >= |head| {
          assert t[k] == Tokens(lines[1..])[k - |head|];
        }
      }
    }
  }

  lemma {:induction false} NonSpaceAppend(a: string, b: string)
    ensures NonSpace(a + b) == NonSpace(a) + NonSpace(b)
  {
    if a == "" {
      assert a + b == b;
    } else {
      assert (a + b)[0] == a[0] && (a + b)[1..] == a[1..] + b;
      NonSpaceAppend(a[1..], b);
    }
  }

  /** Words written one after another with a single blank between them. */
  function JoinWords(ws: seq<string>): string
  {
    if ws == [] then "" else if |ws| == 1 then ws[0] else ws[0] + " " + JoinWords(ws[1..])
  }

  lemma {:induction false} WordsFromRun(w: string, rest: string, current: string)
    requires SpaceFree(w)
    ensures WordsFrom(w + rest, current) == WordsFrom(rest, current + w)
    decreases |w|
  {
    if w == "" {
      assert w + rest == rest && current + w == current;
    } else {
      assert (w + rest)[0] == w[0] && (w + rest)[1..] == w[1..] + rest;
      WordsFromRun(w[1..], rest, current + [w[0]]);
      assert current + [w[0]] + w[1..] == current + w;
    }
  }

  /** `line.split()` gives back exactly the words a line was written from,
      one blank between each two: no word is cut in two or joined with its
      neighbour. */
  lemma {:induction false} WordsOfJoin(ws: seq<string>)
    requires forall k :: 0 <= k < |ws| ==> ws[k] != "" && SpaceFree(ws[k])
    ensures Words(JoinWords(ws)) == ws
    decreases |ws|
  {
    if |ws| == 1 {
      WordsFromRun(ws[0], "", "");
      assert ws[0] + "" == ws[0] && "" + ws[0] == ws[0];
    } else if |ws| > 1 {
      var rest := JoinWords(ws[1..]);
      WordsFromRun(ws[0], " " + rest, "");
      assert ws[0] + " " + rest == ws[0] + (" " + rest);
      assert (" " + rest)[0] == ' ' && (" " + rest)[1..] == rest;
      WordsOfJoin(ws[1..]);
      assert "" + ws[0] == ws[0];
      assert WordsFrom(" " + rest, ws[0]) == [ws[0]] + WordsFrom(rest, "");
      assert [ws[0]] + ws[1..] == ws;
    }
  }

  lemma {:induction false} WordsFromBlank(a: string, c: char, b: string, current: string)
    requires IsSpace(c)
    ensures WordsFrom(a + [c] + b, current) == WordsFrom(a, current) + Words(b)
    decreases |a|
  {
    var line := a + [c] + b;
    if a == "" {
      assert line == [c] + b && line[1..] == b;
      assert WordsFrom(a, current) == Flush(current);
    } else {
      assert line[0] == a[0] && line[1..] == a[1..] + [c] + b;
      if IsSpace(a[0]) {
        WordsFromBlank(a[1..], c, b, "");
        calc {
          WordsFrom(line, current);
          Flush(current) + WordsFrom(a[1..] + [c] + b, "");
          Flush(current) + (WordsFrom(a[1..], "") + Words(b));
          (Flush(current) + WordsFrom(a[1..], "")) + Words(b);
          WordsFrom(a, current) + Words(b);
        }
      } else {
        WordsFromBlank(a[1..], c, b, current + [a[0]]);
        assert WordsFrom(line, current) == WordsFrom(a[1..] + [c] + b, current + [a[0]]);
        assert WordsFrom(a, current) == WordsFrom(a[1..], current + [a[0]]);
      }
    }
  }

  /** `line.split()` cuts at every blank, wherever it stands: the words of a
      line with a blank in it are the words before the blank followed by the
      words after it. With `WordsFromRun` (a blank-free run is never cut)
      this fixes the words of every line, leading, trailing and repeated
      blanks included. */
  lemma WordsSplitAtBlank(a: string, c: char, b: string)
    requires IsSpace(c)
    ensures Words(a + [c] + b) == Words(a) + Words(b)
  {
    WordsFromBlank(a, c, b, "");
  }

  lemma {:induction false} SplitFromRun(w: string, rest: string, current: string)
    requires ParenFree(w)
    ensures SplitFrom(w + rest, current) == SplitFrom(rest, current + w)
    decreases |w|
  {
    if w == "" {
      assert w + rest == rest && current + w == current;
    } else {
      assert (w + rest)[0] == w[0] && (w + rest)[1..] == w[1..] + rest;
      SplitFromRun(w[1..], rest, current + [w[0]]);
      assert current + [w[0]] + w[1..] == current + w;
    }
  }

  /** A word that is already one token is not cut. */
  lemma SplitOfToken(t: string)
    requires IsToken(t)
    ensures Split(t) == [t]
  {
    if t == "(" || t == ")" {
      assert t[1..] == "" && [t[0]] == t;
      assert SplitFrom(t, "") == [] + [t] + SplitFrom("", "");
    } else {
      SplitFromRun(t, "", "");
      assert t + "" == t && "" + t == t;
    }
  }

  lemma {:induction false} WordTokensOfTokens(ts: seq<string>)
    requires forall k :: 0 <= k < |ts| ==> IsToken(ts[k])
    ensures WordTokens(ts) == ts
  {
    if ts != [] {
      SplitOfToken(ts[0]);
      WordTokensOfTokens(ts[1..]);
      assert [ts[0]] + ts[1..] == ts;
    }
  }

  /** Tokens written on a line with a blank between each two are read back
      as exactly those tokens: no token is split further or merged. */
  lemma TokensOfJoin(ts: seq<string>)
    requires forall k :: 0 <= k < |ts| ==> IsToken(ts[k]) && SpaceFree(ts[k])
    ensures Tokens([JoinWords(ts)]) == ts
  {
    WordsOfJoin(ts);
    WordTokensOfTokens(ts);
    assert [JoinWords(ts)][1..] == [];
    assert ts + [] == ts;
  }

  /** `split_word`: one pass over the word, accumulating the pending run. */
  method SplitWord(word: string) returns (toks: seq<string>)
    ensures toks == Split(word)
  {
    toks := [];
    var current := "";
    for i := 0 to |word|
      invariant toks + SplitFrom(word[i..], current) == Split(word)
    {
      var c := word[i];
      assert word[i..][1..] == word[i + 1..];
      if c == '(' || c == ')' {
        if current != "" {
          toks := toks + [current];
        }
        toks := toks + [[c]];
        current := "";
      } else {
        current := current + [c];
      }
    }
    if current != "" {
      toks := toks + [current];
    }
  }

  /** The tokens of one line: the inner two loops of `tokenize`. */
  method TokenizeLine(line: string) returns (toks: seq<string>)
    ensures toks == WordTokens(Words(line))
  {
    toks := [];
    var words := Words(line);
    for j := 0 to |words|
      invariant toks + WordTokens(words[j..]) == WordTokens(words)
    {
      assert words[j..][1..] == words[j + 1..];
      var pieces := SplitWord(words[j]);
      ghost var before, later := toks, WordTokens(words[j + 1..]);
      assert WordTokens(words[j..]) == pieces + later;
      for k := 0 to |pieces|
        invariant toks == before + pieces[..k]
      {
        assert pieces[..k + 1] == pieces[..k] + [pieces[k]];
        toks := toks + [pieces[k]];
      }
      assert pieces[..|pieces|] == pieces;
      assert toks + later == before + (pieces + later);
    }
  }

  /** `tokenize`: every token of every word of every line, in order. */
  method Tokenize(lines: seq<string>) returns (toks: seq<string>)
    ensures toks == Tokens(lines)
  {
    toks := [];
    for i := 0 to |lines|
      invariant toks + Tokens(lines[i..]) == Tokens(lines)
    {
      assert lines[i..][1..] == lines[i + 1..];
      var lineToks := TokenizeLine(lines[i]);
      toks := toks + lineToks;
    }
  }
}
