/** The recursive-descent parser of lis.py (`parse_tokens`): one pass over a
    shared token stream, each nesting level collecting its elements in `out`. */
module Parser {
  import opened Syntax

  /** The elements collected and the part of the stream not yet read, or the
      `Unexpected ")"` failure. */
  datatype Parse = Parsed(forms: seq<Exp>, rest: seq<string>) | UnexpectedClose

  /** One call of `parse_tokens` on the stream `toks`, with `out` already
      collected at this level. The stream left over is never longer than the
      one given (`ParseLeavesSuffix`: it is a suffix of it). */
  function ParseLevel(toks: seq<string>, out: seq<Exp>): (r: Parse)
    ensures r.Parsed? ==> |r.rest| <= |toks|
    decreases |toks|
  {
    if toks == [] then Parsed(out, [])
    else if toks[0] == "(" then
      match ParseLevel(toks[1..], [])
      case UnexpectedClose => UnexpectedClose
      case Parsed(sub, rest) =>
        ParseLevel(rest, out + [Compound(sub)])
    else if out == [] && toks[0] == ")" then UnexpectedClose
    else if toks[0] == ")" then Parsed(out, toks[1..])
    else ParseLevel(toks[1..], out + [Atom(toks[0])])
  }

  /** Tokens are read once, front to back: what a level leaves unread is
      the tail of the stream it was given. */
  lemma {:induction false} ParseLeavesSuffix(toks: seq<string>, out: seq<Exp>)
    ensures ParseLevel(toks, out).Parsed? ==>
              ParseLevel(toks, out).rest == toks[|toks| - |ParseLevel(toks, out).rest|..]
    decreases |toks|
  {
    if toks != [] {
      if toks[0] == "(" {
        ParseLeavesSuffix(toks[1..], []);
        match ParseLevel(toks[1..], [])
        case UnexpectedClose =>
        case Parsed(sub, rest) =>
          ParseLeavesSuffix(rest, out + [Compound(sub)]);
          var r := ParseLevel(rest, out + [Compound(sub)]);
          assert ParseLevel(toks, out) == r;
          if r.Parsed? {
            assert rest == toks[|toks| - |rest|..];
            assert r.rest == rest[|rest| - |r.rest|..];
          }
      } else if toks[0] != ")" {
        ParseLeavesSuffix(toks[1..], out + [Atom(toks[0])]);
        assert ParseLevel(toks, out) == ParseLevel(toks[1..], out + [Atom(toks[0])]);
      }
    }
  }

  /** The program read by the file-mode entry point: one top-level call. */
  function ParseProgram(toks: seq<string>): Parse
  {
    ParseLevel(toks, [])
  }

  /** `parse_tokens` over the stream `toks` whose next unread token is at
      `pos`; `next` is the position of the stream when the call returns. */
  method ParseTokens(toks: seq<string>, pos: nat) returns (ok: bool, out: seq<Exp>, next: nat)
    requires pos <= |toks|
    ensures ok <==> ParseLevel(toks[pos..], []).Parsed?
    ensures ok ==> pos <= next <= |toks|
    ensures ok ==> ParseLevel(toks[pos..], []) == Parsed(out, toks[next..])
    decreases |toks| - pos
  {
    out := [];
    var i := pos;
    while i < |toks|
      invariant pos <= i <= |toks|
      invariant ParseLevel(toks[i..], out) == ParseLevel(toks[pos..], [])
      decreases |toks| - i
    {
      var t := toks[i];
      assert toks[i..][1..] == toks[i + 1..];
      i := i + 1;
      if t == "(" {
        var subOk, sub, j := ParseTokens(toks, i);
        if !subOk {
          return false, [], i;
        }
        out, i := out + [Compound(sub)], j;
      } else if out == [] && t == ")" {
        return false, [], i;
      } else if t == ")" {
        return true, out, i;
      } else {
        out := out + [Atom(t)];
      }
    }
    return true, out, i;
  }

  /** An expression the printer writes and the parser reads back: no empty
      compound (`()` cannot be read) and no symbol that would be read as
      something else. */
  predicate Printable(e: Exp)
  {
    match e
    case Compound(items) => items != [] && forall k :: 0 <= k < |items| ==> Printable(items[k])
    case Symbol(s) => PlainSymbol(s)
    case _ => true
  }

  predicate AllPrintable(es: seq<Exp>) { forall k :: 0 <= k < |es| ==> Printable(es[k]) }

  /** The tokens an expression is written as. */
  function Unparse(e: Exp): seq<string>
  {
    match e
    case Compound(items) => ["("] + UnparseAll(items) + [")"]
    case _ => [AtomText(e)]
  }

  function UnparseAll(es: seq<Exp>): seq<string>
  {
    if es == [] then [] else Unparse(es[0]) + UnparseAll(es[1..])
  }

  lemma {:induction false} ParseOne(e: Exp, tail: seq<string>, out: seq<Exp>)
    requires Printable(e)
    ensures ParseLevel(Unparse(e) + tail, out) == ParseLevel(tail, out + [e])
    decreases e, 1
  {
    match e
    case Compound(items) =>
      var toks := Unparse(e) + tail;
      assert toks[0] == "(";
      assert toks[1..] == UnparseAll(items) + ([")"] + tail);
      ParseAll(items, [")"] + tail, []);
      assert ParseLevel(UnparseAll(items) + ([")"] + tail), []) == Parsed(items, tail);
    case _ =>
      AtomTextRoundTrip(e);
      assert (Unparse(e) + tail)[1..] == tail;
  }

  lemma {:induction false} ParseAll(es: seq<Exp>, tail: seq<string>, out: seq<Exp>)
    requires AllPrintable(es)
    ensures ParseLevel(UnparseAll(es) + tail, out) == ParseLevel(tail, out + es)
    decreases es, 0
  {
    if es == [] {
      assert UnparseAll(es) + tail == tail;
      assert out + es == out;
    } else {
      assert UnparseAll(es) + tail == Unparse(es[0]) + (UnparseAll(es[1..]) + tail);
      ParseOne(es[0], UnparseAll(es[1..]) + tail, out);
      ParseAll(es[1..], tail, out + [es[0]]);
      assert out + [es[0]] + es[1..] == out + es;
    }
  }

  /** Round trip: the tokens of a sequence of printable forms parse back to
      exactly those forms, with the whole stream consumed. */
  lemma ParseProgramRoundTrip(forms: seq<Exp>)
    requires AllPrintable(forms)
    ensures ParseProgram(UnparseAll(forms)) == Parsed(forms, [])
  {
    ParseAll(forms, [], []);
    assert UnparseAll(forms) + [] == UnparseAll(forms);
    assert [] + forms == forms;
  }

  /** A `)` that is the first token read at a level is an error, so a
      program cannot start with `)`. */
  lemma LeadingCloseFails(rest: seq<string>)
    ensures ParseProgram([")"] + rest) == UnexpectedClose
  {
  }

  /** `()` is an error wherever it appears after printable forms. */
  lemma EmptyFormFails(before: seq<Exp>, rest: seq<string>, out: seq<Exp>)
    requires AllPrintable(before)
    ensures ParseLevel(UnparseAll(before) + ["(", ")"] + rest, out) == UnexpectedClose
  {
    ParseAll(before, ["(", ")"] + rest, out);
    assert UnparseAll(before) + ["(", ")"] + rest == UnparseAll(before) + (["(", ")"] + rest);
    assert (["(", ")"] + rest)[1..] == [")"] + rest;
  }

  /** A `)` at top level after at least one form ends the program there: the
      rest of the stream is never read. */
  lemma TopLevelCloseStops(forms: seq<Exp>, junk: seq<string>)
    requires forms != [] && AllPrintable(forms)
    ensures ParseProgram(UnparseAll(forms) + [")"] + junk) == Parsed(forms, junk)
  {
    var close := [")"] + junk;
    ParseAll(forms, close, []);
    assert UnparseAll(forms) + [")"] + junk == UnparseAll(forms) + close;
    assert [] + forms == forms;
    CloseEndsLevel(forms, junk);
  }

  lemma CloseEndsLevel(forms: seq<Exp>, junk: seq<string>)
    requires forms != []
    ensures ParseLevel([")"] + junk, forms) == Parsed(forms, junk)
  {
    assert ([")"] + junk)[1..] == junk;
  }

  /** A stream that runs out inside an open form yields the partial form,
      without error. */
  lemma UnclosedFormIsPartial(items: seq<Exp>)
    requires AllPrintable(items)
    ensures ParseProgram(["("] + UnparseAll(items)) == Parsed([Compound(items)], [])
  {
    var body := UnparseAll(items);
    ParseAll(items, [], []);
    assert body + [] == body;
    assert [] + items == items;
    OpenAtEnd(body, items);
  }

  lemma OpenAtEnd(body: seq<string>, items: seq<Exp>)
    requires ParseLevel(body, []) == Parsed(items, [])
    ensures ParseLevel(["("] + body, []) == Parsed([Compound(items)], [])
  {
    assert (["("] + body)[1..] == body;
    assert [] + [Compound(items)] == [Compound(items)];
  }
}
