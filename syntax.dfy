/** Expression trees and the classification of a token into an atom (lis.py, `atom`). */
module Syntax {
  import Lexer

  datatype Option<T> = None | Some(value: T)

  /** A parsed expression: an atom, or a parenthesised sequence of expressions. */
  datatype Exp =
    | Number(n: int)
    | Boolean(b: bool)
    | Symbol(name: string)
    | Compound(items: seq<Exp>)

  predicate IsDigit(c: char) { '0' <= c <= '9' }

  predicate AllDigits(s: string) { forall k :: 0 <= k < |s| ==> IsDigit(s[k]) }

  /** The value of a run of decimal digits, most significant first. */
  function DigitsValue(s: string): nat
    requires AllDigits(s)
  {
    if s == [] then 0
    else 10 * DigitsValue(s[..|s| - 1]) + (s[|s| - 1] as int - '0' as int)
  }

  /** What Python's int() accepts of a token (which never holds whitespace):
      an optional sign followed by at least one decimal digit. */
  function ParseInt(s: string): Option<int>
  {
    if |s| > 0 && (s[0] == '+' || s[0] == '-') then
      if |s| > 1 && AllDigits(s[1..]) then
        var m: int := DigitsValue(s[1..]);
        Some(if s[0] == '-' then -m else m)
      else None
    else if |s| > 0 && AllDigits(s) then Some(DigitsValue(s))
    else None
  }

  /** Classifies a non-parenthesis token: an integer literal, then `#t` / `#f`,
      and anything else is a symbol. */
  function Atom(token: string): (e: Exp)
    ensures !e.Compound?
    ensures e.Number? <==> ParseInt(token).Some?
    ensures e.Number? ==> ParseInt(token) == Some(e.n)
    ensures e == Boolean(true) <==> token == "#t"
    ensures e == Boolean(false) <==> token == "#f"
    ensures e.Symbol? <==> ParseInt(token).None? && token != "#t" && token != "#f"
    ensures e.Symbol? ==> e.name == token
  {
    match ParseInt(token)
    case Some(n) => Number(n)
    case None =>
      if token == "#t" then Boolean(true)
      else if token == "#f" then Boolean(false)
      else Symbol(token)
  }

  function DigitChar(d: nat): char
    requires d < 10
  {
    ('0' as int + d) as char
  }

  /** Decimal digits of a natural number, without leading zeros. */
  function NatDigits(n: nat): (s: string)
    decreases n
  {
    if n < 10 then [DigitChar(n)] else NatDigits(n / 10) + [DigitChar(n % 10)]
  }

  /** Decimal text of an integer, as Python's str() writes it. */
  function IntText(n: int): string
  {
    if n < 0 then "-" + NatDigits(-n) else NatDigits(n)
  }

  lemma {:induction false} NatDigitsValue(n: nat)
    ensures |NatDigits(n)| > 0 && AllDigits(NatDigits(n))
    ensures DigitsValue(NatDigits(n)) == n
    decreases n
  {
    var s := NatDigits(n);
    if n >= 10 {
      NatDigitsValue(n / 10);
      assert s[..|s| - 1] == NatDigits(n / 10);
    }
  }

  /** The integer literal written for n is read back as n. */
  lemma IntTextRoundTrip(n: int)
    ensures ParseInt(IntText(n)) == Some(n)
  {
    var t := IntText(n);
    if n < 0 {
      NatDigitsValue(-n);
      assert t[0] == '-' && t[1..] == NatDigits(-n);
    } else {
      NatDigitsValue(n);
      assert IsDigit(t[0]);
    }
  }

  function Zeros(z: nat): string
  {
    seq(z, k => '0')
  }

  lemma {:induction false} ZerosValue(z: nat)
    ensures AllDigits(Zeros(z)) && DigitsValue(Zeros(z)) == 0
    decreases z
  {
    if z > 0 {
      ZerosValue(z - 1);
      assert Zeros(z)[..z - 1] == Zeros(z - 1);
    }
  }

  /** Leading zeros do not change the value of a run of digits. */
  lemma {:induction false} LeadingZerosValue(z: nat, s: string)
    requires AllDigits(s)
    ensures AllDigits(Zeros(z) + s) && DigitsValue(Zeros(z) + s) == DigitsValue(s)
    decreases |s|
  {
    ZerosValue(z);
    var t := Zeros(z) + s;
    if s == [] {
      assert t == Zeros(z);
    } else {
      LeadingZerosValue(z, s[..|s| - 1]);
      assert t[..|t| - 1] == Zeros(z) + s[..|s| - 1];
      assert t[|t| - 1] == s[|s| - 1];
    }
  }

  lemma SignedValue(c: char, d: string)
    requires c == '+' || c == '-'
    requires |d| > 0 && AllDigits(d)
    ensures ParseInt([c] + d) == Some(if c == '-' then -(DigitsValue(d) as int) else DigitsValue(d))
  {
    assert ([c] + d)[0] == c && ([c] + d)[1..] == d;
  }

  /** Python's int() reads any run of decimal digits, with or without a
      leading `+` or `-`, so leading zeros (see `LeadingZerosValue`), `+5`
      and `-0` are numbers too. */
  lemma IntVariants(d: string)
    requires |d| > 0 && AllDigits(d)
    ensures Atom(d) == Number(DigitsValue(d))
    ensures Atom("+" + d) == Number(DigitsValue(d))
    ensures Atom("-" + d) == Number(-(DigitsValue(d) as int))
  {
    UnsignedValue(d);
    AtomOfInt(d, DigitsValue(d));
    SignedAtom('+', d);
    SignedAtom('-', d);
    assert "+" + d == ['+'] + d && "-" + d == ['-'] + d;
  }

  lemma SignedAtom(c: char, d: string)
    requires c == '+' || c == '-'
    requires |d| > 0 && AllDigits(d)
    ensures Atom([c] + d) == Number(if c == '-' then -(DigitsValue(d) as int) else DigitsValue(d))
  {
    SignedValue(c, d);
    AtomOfInt([c] + d, if c == '-' then -(DigitsValue(d) as int) else DigitsValue(d));
  }

  lemma UnsignedValue(d: string)
    requires |d| > 0 && AllDigits(d)
    ensures ParseInt(d) == Some(DigitsValue(d))
  {
    assert IsDigit(d[0]);
  }

  lemma AtomOfInt(token: string, n: int)
    requires ParseInt(token) == Some(n)
    ensures Atom(token) == Number(n)
  {
  }

  /** An atom is written back as the token it was read from. */
  function AtomText(e: Exp): string
    requires !e.Compound?
  {
    match e
    case Number(n) => IntText(n)
    case Boolean(b) => if b then "#t" else "#f"
    case Symbol(s) => s
  }

  /** A symbol that the tokenizer and the classifier give back unchanged. */
  predicate PlainSymbol(s: string)
  {
    s != "" && Lexer.ParenFree(s) && ParseInt(s).None? && s != "#t" && s != "#f"
  }

  lemma AtomTextRoundTrip(e: Exp)
    requires !e.Compound?
    requires e.Symbol? ==> PlainSymbol(e.name)
    ensures Atom(AtomText(e)) == e
    ensures AtomText(e) != "(" && AtomText(e) != ")"
  {
    match e
    case Number(n) =>
      IntTextRoundTrip(n);
      NatDigitsValue(if n < 0 then -n else n);
      assert IsDigit(AtomText(e)[|AtomText(e)| - 1]);
    case Boolean(b) =>
    case Symbol(s) =>
      assert !Lexer.ParenFree("(") && !Lexer.ParenFree(")") by { assert Lexer.IsParen("("[0]) && Lexer.IsParen(")"[0]); }
  }
}
