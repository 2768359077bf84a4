/** What the operator branches of `eval_in_env` promise: the folds of `+`
    and `*`, the two-operand `-`, the fixed arity of comparisons, and the
    list primitives. */
module OperatorFacts {
  import opened Syntax
  import opened Semantics

  /** Each of `args`, evaluated in `env` with output `out`, gives the matching
      value and changes neither the environment nor the output. */
  ghost predicate PureValues(args: seq<Exp>, vals: seq<Value>, env: Env, out: seq<Value>, f: nat)
  {
    |args| == |vals| &&
    forall k :: 0 <= k < |args| ==> Eval(args[k], env, out, f) == Outcome(Ok(vals[k]), env, out)
  }

  function Numerals(ns: seq<int>): seq<Exp>
  {
    seq(|ns|, k requires 0 <= k < |ns| => Number(ns[k]))
  }

  function Ints(ns: seq<int>): seq<Value>
  {
    seq(|ns|, k requires 0 <= k < |ns| => Int(ns[k]))
  }

  function Sum(ns: seq<int>): int
  {
    if ns == [] then 0 else ns[0] + Sum(ns[1..])
  }

  function Product(ns: seq<int>): int
  {
    if ns == [] then 1 else ns[0] * Product(ns[1..])
  }

  /** Integer literals evaluate to themselves, in any environment. */
  lemma NumeralsArePure(ns: seq<int>, env: Env, out: seq<Value>, f: nat)
    requires f >= 1
    ensures PureValues(Numerals(ns), Ints(ns), env, out, f)
  {
  }

  /** Each of `vals` is a number or a boolean standing for the matching
      integer of `ns`. */
  predicate NumericValues(vals: seq<Value>, ns: seq<int>)
  {
    |vals| == |ns| && forall k :: 0 <= k < |vals| ==> Numeric(vals[k]) == Some(ns[k])
  }

  lemma IntsAreNumeric(ns: seq<int>)
    ensures NumericValues(Ints(ns), ns)
  {
  }

  lemma {:induction false} SumFromPure(args: seq<Exp>, vals: seq<Value>, ns: seq<int>, i: nat, total: int, env: Env, out: seq<Value>, f: nat)
    requires i <= |args| && PureValues(args, vals, env, out, f) && NumericValues(vals, ns)
    ensures EvalSum(args, i, total, env, out, f) == Outcome(Ok(Int(total + Sum(ns[i..]))), env, out)
    decreases |args| - i
  {
    if i < |args| {
      assert Eval(args[i], env, out, f) == Outcome(Ok(vals[i]), env, out);
      SumFromPure(args, vals, ns, i + 1, total + ns[i], env, out, f);
      assert ns[i..][1..] == ns[i + 1..];
    }
  }

  lemma {:induction false} ProductFromPure(args: seq<Exp>, vals: seq<Value>, ns: seq<int>, i: nat, total: int, env: Env, out: seq<Value>, f: nat)
    requires i <= |args| && PureValues(args, vals, env, out, f) && NumericValues(vals, ns)
    ensures EvalProduct(args, i, total, env, out, f) == Outcome(Ok(Int(total * Product(ns[i..]))), env, out)
    decreases |args| - i
  {
    if i < |args| {
      assert Eval(args[i], env, out, f) == Outcome(Ok(vals[i]), env, out);
      ProductFromPure(args, vals, ns, i + 1, total * ns[i], env, out, f);
      assert ns[i..][1..] == ns[i + 1..];
      assert total * ns[i] * Product(ns[i + 1..]) == total * (ns[i] * Product(ns[i + 1..]));
    }
  }

  /** `+` folds over all its operands, numbers or booleans, starting from 0:
      `(+)` is 0. */
  lemma SumOfOperands(args: seq<Exp>, vals: seq<Value>, ns: seq<int>, env: Env, out: seq<Value>, fuel: nat)
    requires fuel >= 1 && PureValues(args, vals, env, out, fuel - 1) && NumericValues(vals, ns)
    ensures Eval(Compound([Symbol("+")] + args), env, out, fuel) == Outcome(Ok(Int(Sum(ns))), env, out)
  {
    assert ([Symbol("+")] + args)[1..] == args;
    SumFromPure(args, vals, ns, 0, 0, env, out, fuel - 1);
  }

  /** `*` folds over all its operands, numbers or booleans, starting from 1:
      `(*)` is 1. */
  lemma ProductOfOperands(args: seq<Exp>, vals: seq<Value>, ns: seq<int>, env: Env, out: seq<Value>, fuel: nat)
    requires fuel >= 1 && PureValues(args, vals, env, out, fuel - 1) && NumericValues(vals, ns)
    ensures Eval(Compound([Symbol("*")] + args), env, out, fuel) == Outcome(Ok(Int(Product(ns))), env, out)
  {
    assert ([Symbol("*")] + args)[1..] == args;
    ProductFromPure(args, vals, ns, 0, 1, env, out, fuel - 1);
  }

  lemma {:induction false} SumAppend(a: seq<int>, b: seq<int>)
    ensures Sum(a + b) == Sum(a) + Sum(b)
  {
    if a == [] {
      assert a + b == b;
    } else {
      assert (a + b)[1..] == a[1..] + b;
      SumAppend(a[1..], b);
    }
  }

  lemma RemoveMatching(a: seq<int>, b: seq<int>, k: nat)
    requires a != [] && k < |b| && b[k] == a[0] && multiset(a) == multiset(b)
    ensures multiset(a[1..]) == multiset(b[..k] + b[k + 1..])
  {
    assert a == [a[0]] + a[1..];
    assert b == b[..k] + [b[k]] + b[k + 1..];
    assert multiset(a[1..]) == multiset(a) - multiset{a[0]};
    assert multiset(b[..k] + b[k + 1..]) == multiset(b) - multiset{b[k]};
  }

  lemma {:induction false} SumPermutation(a: seq<int>, b: seq<int>)
    requires multiset(a) == multiset(b)
    ensures Sum(a) == Sum(b)
    decreases |a|
  {
    if a != [] {
      assert a[0] in multiset(b);
      var k :| 0 <= k < |b| && b[k] == a[0];
      var rest := b[..k] + b[k + 1..];
      RemoveMatching(a, b, k);
      SumPermutation(a[1..], rest);
      SumAppend(b[..k], [b[k]] + b[k + 1..]);
      SumAppend(b[..k], b[k + 1..]);
      assert ([b[k]] + b[k + 1..])[1..] == b[k + 1..];
      assert b[..k] + ([b[k]] + b[k + 1..]) == b;
    } else {
      assert |b| == |multiset(b)|;
    }
  }

  /** The result of `+` over integer literals does not depend on the order
      in which they are written. */
  lemma SumIgnoresOrder(ns: seq<int>, ms: seq<int>, env: Env, out: seq<Value>, fuel: nat)
    requires fuel >= 2 && multiset(ns) == multiset(ms)
    ensures Eval(Compound([Symbol("+")] + Numerals(ns)), env, out, fuel)
         == Eval(Compound([Symbol("+")] + Numerals(ms)), env, out, fuel)
  {
    NumeralsArePure(ns, env, out, fuel - 1);
    NumeralsArePure(ms, env, out, fuel - 1);
    IntsAreNumeric(ns);
    IntsAreNumeric(ms);
    SumOfOperands(Numerals(ns), Ints(ns), ns, env, out, fuel);
    SumOfOperands(Numerals(ms), Ints(ms), ms, env, out, fuel);
    SumPermutation(ns, ms);
  }

  lemma {:induction false} ProductAppend(a: seq<int>, b: seq<int>)
    ensures Product(a + b) == Product(a) * Product(b)
  {
    if a == [] {
      assert a + b == b;
    } else {
      assert (a + b)[1..] == a[1..] + b;
      ProductAppend(a[1..], b);
      assert a[0] * (Product(a[1..]) * Product(b)) == (a[0] * Product(a[1..])) * Product(b);
    }
  }

  lemma MulSwap(x: int, p: int, q: int)
    ensures x * (p * q) == p * (x * q)
  {
  }

  lemma {:induction false} ProductPermutation(a: seq<int>, b: seq<int>)
    requires multiset(a) == multiset(b)
    ensures Product(a) == Product(b)
    decreases |a|
  {
    if a != [] {
      assert a[0] in multiset(b);
      var k :| 0 <= k < |b| && b[k] == a[0];
      var front, back := b[..k], b[k + 1..];
      RemoveMatching(a, b, k);
      ProductPermutation(a[1..], front + back);
      ProductAppend(front, [b[k]] + back);
      ProductAppend(front, back);
      assert ([b[k]] + back)[1..] == back;
      assert front + ([b[k]] + back) == b;
      var p, q := Product(front), Product(back);
      calc {
        Product(a);
        a[0] * Product(a[1..]);
        b[k] * (p * q);
        { MulSwap(b[k], p, q); }
        p * (b[k] * q);
        p * Product([b[k]] + back);
        Product(b);
      }
    } else {
      assert |b| == |multiset(b)|;
    }
  }

  /** The result of `*` over integer literals does not depend on the order
      in which they are written. */
  lemma ProductIgnoresOrder(ns: seq<int>, ms: seq<int>, env: Env, out: seq<Value>, fuel: nat)
    requires fuel >= 2 && multiset(ns) == multiset(ms)
    ensures Eval(Compound([Symbol("*")] + Numerals(ns)), env, out, fuel)
         == Eval(Compound([Symbol("*")] + Numerals(ms)), env, out, fuel)
  {
    NumeralsArePure(ns, env, out, fuel - 1);
    NumeralsArePure(ms, env, out, fuel - 1);
    IntsAreNumeric(ns);
    IntsAreNumeric(ms);
    ProductOfOperands(Numerals(ns), Ints(ns), ns, env, out, fuel);
    ProductOfOperands(Numerals(ms), Ints(ms), ms, env, out, fuel);
    ProductPermutation(ns, ms);
  }

  lemma PureJoin(a1: seq<Exp>, v1: seq<Value>, a2: seq<Exp>, v2: seq<Value>, env: Env, out: seq<Value>, f: nat)
    requires PureValues(a1, v1, env, out, f) && PureValues(a2, v2, env, out, f)
    ensures PureValues(a1 + a2, v1 + v2, env, out, f)
  {
    forall k | 0 <= k < |a1 + a2|
      ensures Eval((a1 + a2)[k], env, out, f) == Outcome(Ok((v1 + v2)[k]), env, out)
    {
      if k < |a1| {
        assert (a1 + a2)[k] == a1[k] && (v1 + v2)[k] == v1[k];
      } else {
        assert (a1 + a2)[k] == a2[k - |a1|] && (v1 + v2)[k] == v2[k - |a1|];
      }
    }
  }

  /** `+` folds with `Sum`, `*` with `Product`. */
  function Fold(op: string, ns: seq<int>): int
  {
    if op == "+" then Sum(ns) else Product(ns)
  }

  lemma FoldOfPure(op: string, args: seq<Exp>, xs: seq<int>, env: Env, out: seq<Value>, fuel: nat)
    requires op == "+" || op == "*"
    requires fuel >= 1 && PureValues(args, Ints(xs), env, out, fuel - 1)
    ensures Eval(Compound([Symbol(op)] + args), env, out, fuel) == Outcome(Ok(Int(Fold(op, xs))), env, out)
  {
    IntsAreNumeric(xs);
    if op == "+" {
      SumOfOperands(args, Ints(xs), xs, env, out, fuel);
    } else {
      ProductOfOperands(args, Ints(xs), xs, env, out, fuel);
    }
  }

  lemma FoldOfNumerals(op: string, ns: seq<int>, env: Env, out: seq<Value>, fuel: nat)
    requires op == "+" || op == "*"
    requires fuel >= 2
    ensures Eval(Compound([Symbol(op)] + Numerals(ns)), env, out, fuel) == Outcome(Ok(Int(Fold(op, ns))), env, out)
  {
    NumeralsArePure(ns, env, out, fuel - 1);
    FoldOfPure(op, Numerals(ns), ns, env, out, fuel);
  }

  /** A nested `+`/`*` over `ns` placed before the literals `ms`. */
  lemma FoldOfNestedFirst(op: string, ns: seq<int>, ms: seq<int>, env: Env, out: seq<Value>, fuel: nat)
    requires op == "+" || op == "*"
    requires fuel >= 3
    ensures Eval(Compound([Symbol(op), Compound([Symbol(op)] + Numerals(ns))] + Numerals(ms)), env, out, fuel)
         == Outcome(Ok(Int(Fold(op, [Fold(op, ns)] + ms))), env, out)
  {
    var inner := Compound([Symbol(op)] + Numerals(ns));
    var s := Fold(op, ns);
    FoldOfNumerals(op, ns, env, out, fuel - 1);
    assert PureValues([inner], [Int(s)], env, out, fuel - 1);
    NumeralsArePure(ms, env, out, fuel - 1);
    PureJoin([inner], [Int(s)], Numerals(ms), Ints(ms), env, out, fuel - 1);
    assert Ints([s] + ms) == [Int(s)] + Ints(ms);
    assert [Symbol(op), inner] + Numerals(ms) == [Symbol(op)] + ([inner] + Numerals(ms));
    FoldOfPure(op, [inner] + Numerals(ms), [s] + ms, env, out, fuel);
  }

  /** A nested `+`/`*` over `ns` placed after the literals `ms`. */
  lemma FoldOfNestedLast(op: string, ns: seq<int>, ms: seq<int>, env: Env, out: seq<Value>, fuel: nat)
    requires op == "+" || op == "*"
    requires fuel >= 3
    ensures Eval(Compound([Symbol(op)] + Numerals(ms) + [Compound([Symbol(op)] + Numerals(ns))]), env, out, fuel)
         == Outcome(Ok(Int(Fold(op, ms + [Fold(op, ns)]))), env, out)
  {
    var inner := Compound([Symbol(op)] + Numerals(ns));
    var s := Fold(op, ns);
    FoldOfNumerals(op, ns, env, out, fuel - 1);
    assert PureValues([inner], [Int(s)], env, out, fuel - 1);
    NumeralsArePure(ms, env, out, fuel - 1);
    PureJoin(Numerals(ms), Ints(ms), [inner], [Int(s)], env, out, fuel - 1);
    assert Ints(ms + [s]) == Ints(ms) + [Int(s)];
    assert [Symbol(op)] + Numerals(ms) + [inner] == [Symbol(op)] + (Numerals(ms) + [inner]);
    FoldOfPure(op, Numerals(ms) + [inner], ms + [s], env, out, fuel);
  }

  /** The result of `+` over integer literals does not depend on how they
      are grouped: a nested `+` over the first or the last of them gives
      what one `+` over all of them gives. */
  lemma SumIgnoresGrouping(ns: seq<int>, ms: seq<int>, env: Env, out: seq<Value>, fuel: nat)
    requires fuel >= 3
    ensures Eval(Compound([Symbol("+"), Compound([Symbol("+")] + Numerals(ns))] + Numerals(ms)), env, out, fuel)
         == Eval(Compound([Symbol("+")] + Numerals(ns + ms)), env, out, fuel)
    ensures Eval(Compound([Symbol("+")] + Numerals(ms) + [Compound([Symbol("+")] + Numerals(ns))]), env, out, fuel)
         == Eval(Compound([Symbol("+")] + Numerals(ms + ns)), env, out, fuel)
  {
    FoldOfNestedFirst("+", ns, ms, env, out, fuel);
    FoldOfNestedLast("+", ns, ms, env, out, fuel);
    FoldOfNumerals("+", ns + ms, env, out, fuel);
    FoldOfNumerals("+", ms + ns, env, out, fuel);
    SumAppend(ns, ms);
    SumAppend(ms, ns);
    SumAppend(ms, [Sum(ns)]);
    assert ([Sum(ns)] + ms)[1..] == ms;
  }

  /** The result of `*` over integer literals does not depend on how they
      are grouped. */
  lemma ProductIgnoresGrouping(ns: seq<int>, ms: seq<int>, env: Env, out: seq<Value>, fuel: nat)
    requires fuel >= 3
    ensures Eval(Compound([Symbol("*"), Compound([Symbol("*")] + Numerals(ns))] + Numerals(ms)), env, out, fuel)
         == Eval(Compound([Symbol("*")] + Numerals(ns + ms)), env, out, fuel)
    ensures Eval(Compound([Symbol("*")] + Numerals(ms) + [Compound([Symbol("*")] + Numerals(ns))]), env, out, fuel)
         == Eval(Compound([Symbol("*")] + Numerals(ms + ns)), env, out, fuel)
  {
    FoldOfNestedFirst("*", ns, ms, env, out, fuel);
    FoldOfNestedLast("*", ns, ms, env, out, fuel);
    FoldOfNumerals("*", ns + ms, env, out, fuel);
    FoldOfNumerals("*", ms + ns, env, out, fuel);
    ProductAppend(ns, ms);
    ProductAppend(ms, ns);
    ProductAppend(ms, [Product(ns)]);
    assert ([Product(ns)] + ms)[1..] == ms;
    assert [Product(ns)][1..] == [];
  }

  /** `-` and `/` read only their first two operands: any further ones are
      neither evaluated nor checked. */
  lemma ArithIgnoresExtraOperands(op: string, a: Exp, b: Exp, extra: seq<Exp>, env: Env, out: seq<Value>, fuel: nat)
    requires op == "-" || op == "/"
    ensures Eval(Compound([Symbol(op), a, b] + extra), env, out, fuel)
         == Eval(Compound([Symbol(op), a, b]), env, out, fuel)
  {
    if fuel > 0 {
      var long, short := [Symbol(op), a, b] + extra, [Symbol(op), a, b];
      assert long[1..][0] == a && long[1..][1] == b;
      assert short[1..] == [a, b];
      assert Keyword(long) == op && Keyword(short) == op;
      assert EvalForm(long, env, out, fuel - 1) == EvalArith(op, long[1..], env, out, fuel - 1);
      assert EvalForm(short, env, out, fuel - 1) == EvalArith(op, [a, b], env, out, fuel - 1);
    }
  }

  /** `-` with two integer operands subtracts. */
  lemma MinusOperands(a: Exp, b: Exp, x: int, y: int, env: Env, out: seq<Value>, fuel: nat)
    requires fuel >= 1
    requires Eval(a, env, out, fuel - 1) == Outcome(Ok(Int(x)), env, out)
    requires Eval(b, env, out, fuel - 1) == Outcome(Ok(Int(y)), env, out)
    ensures Eval(Compound([Symbol("-"), a, b]), env, out, fuel) == Outcome(Ok(Int(x - y)), env, out)
  {
    ArithOfTwo("-", a, b, Int(x), Int(y), env, out, fuel);
    MinusOfInts(x, y);
  }

  lemma MinusOfInts(x: int, y: int)
    ensures Arith("-", Int(x), Int(y)) == Ok(Int(x - y))
  {
  }

  /** `-` and `/` with one operand fail after evaluating it; with none they
      fail at once. */
  lemma ArithTooFewOperands(op: string, a: Exp, x: Value, env: Env, out: seq<Value>, fuel: nat)
    requires op == "-" || op == "/"
    requires fuel >= 1
    requires Eval(a, env, out, fuel - 1) == Outcome(Ok(x), env, out)
    ensures Eval(Compound([Symbol(op), a]), env, out, fuel) == Outcome(Fail(BadIndex), env, out)
    ensures Eval(Compound([Symbol(op)]), env, out, fuel) == Outcome(Fail(BadIndex), env, out)
  {
    assert [Symbol(op), a][1..] == [a];
    assert EvalForm([Symbol(op), a], env, out, fuel - 1) == EvalArith(op, [a], env, out, fuel - 1);
    assert EvalForm([Symbol(op)], env, out, fuel - 1) == EvalArith(op, [], env, out, fuel - 1);
  }

  lemma ArithOfTwo(op: string, a: Exp, b: Exp, x: Value, y: Value, env: Env, out: seq<Value>, fuel: nat)
    requires op == "-" || op == "/"
    requires fuel >= 1
    requires Eval(a, env, out, fuel - 1) == Outcome(Ok(x), env, out)
    requires Eval(b, env, out, fuel - 1) == Outcome(Ok(y), env, out)
    ensures Eval(Compound([Symbol(op), a, b]), env, out, fuel) == Outcome(Arith(op, x, y), env, out)
  {
    assert [Symbol(op), a, b][1..] == [a, b];
    assert EvalForm([Symbol(op), a, b], env, out, fuel - 1) == EvalArith(op, [a, b], env, out, fuel - 1);
  }

  /** `/` rounds toward minus infinity and fails on a zero divisor. */
  lemma DivideOperands(a: Exp, b: Exp, x: int, y: int, env: Env, out: seq<Value>, fuel: nat)
    requires fuel >= 1
    requires Eval(a, env, out, fuel - 1) == Outcome(Ok(Int(x)), env, out)
    requires Eval(b, env, out, fuel - 1) == Outcome(Ok(Int(y)), env, out)
    ensures y == 0 ==> Eval(Compound([Symbol("/"), a, b]), env, out, fuel) == Outcome(Fail(DivisionByZero), env, out)
    ensures y != 0 ==> Eval(Compound([Symbol("/"), a, b]), env, out, fuel) == Outcome(Ok(Int(FloorDiv(x, y))), env, out)
  {
    ArithOfTwo("/", a, b, Int(x), Int(y), env, out, fuel);
  }

  /** `=`, `<` and `>` take exactly two operands: any other number fails
      before anything is evaluated. */
  lemma ComparisonArity(op: string, args: seq<Exp>, env: Env, out: seq<Value>, fuel: nat)
    requires op == "=" || op == "<" || op == ">"
    requires fuel >= 1 && |args| != 2
    ensures Eval(Compound([Symbol(op)] + args), env, out, fuel) == Outcome(Fail(BadUnpack), env, out)
  {
    var items := [Symbol(op)] + args;
    assert Keyword(items) == op;
    assert EvalForm(items, env, out, fuel - 1) == EvalCompare(op, items, env, out, fuel - 1);
  }

  /** With two operands, `=` is Python equality of the values, and `<`, `>`
      compare numbers (booleans count as 0 and 1) and fail on anything else. */
  lemma ComparisonValues(op: string, a: Exp, b: Exp, x: Value, y: Value, env: Env, out: seq<Value>, fuel: nat)
    requires op == "=" || op == "<" || op == ">"
    requires fuel >= 1
    requires Eval(a, env, out, fuel - 1) == Outcome(Ok(x), env, out)
    requires Eval(b, env, out, fuel - 1) == Outcome(Ok(y), env, out)
    ensures op == "=" ==> Eval(Compound([Symbol(op), a, b]), env, out, fuel) == Outcome(Ok(Bool(PyEq(x, y))), env, out)
    ensures op != "=" && (Numeric(x).None? || Numeric(y).None?) ==>
              Eval(Compound([Symbol(op), a, b]), env, out, fuel) == Outcome(Fail(TypeMismatch), env, out)
    ensures op == "<" && Numeric(x).Some? && Numeric(y).Some? ==>
              Eval(Compound([Symbol(op), a, b]), env, out, fuel) == Outcome(Ok(Bool(Numeric(x).value < Numeric(y).value)), env, out)
    ensures op == ">" && Numeric(x).Some? && Numeric(y).Some? ==>
              Eval(Compound([Symbol(op), a, b]), env, out, fuel) == Outcome(Ok(Bool(Numeric(x).value > Numeric(y).value)), env, out)
  {
    var items := [Symbol(op), a, b];
    assert Keyword(items) == op;
    assert EvalForm(items, env, out, fuel - 1) == EvalCompare(op, items, env, out, fuel - 1);
  }

  /** Python equality is reflexive, so equal values are always `=`. */
  lemma {:induction false} PyEqReflexive(x: Value)
    ensures PyEq(x, x)
  {
    match x
    case List(s) =>
      forall k | 0 <= k < |s| ensures PyEq(s[k], s[k]) {
        PyEqReflexive(s[k]);
      }
    case _ =>
  }

  /** Python equality is symmetric. */
  lemma {:induction false} PyEqSymmetric(x: Value, y: Value)
    requires PyEq(x, y)
    ensures PyEq(y, x)
  {
    match x
    case List(s) =>
      forall k | 0 <= k < |s| ensures PyEq(y.items[k], s[k]) {
        PyEqSymmetric(s[k], y.items[k]);
      }
    case _ =>
  }

  /** Booleans are numbers: `#t` equals 1 and `#f` equals 0, and equality
      of integers is plain equality. */
  lemma BooleansAreNumbers(i: int, j: int, b: bool)
    ensures PyEq(Int(i), Bool(b)) <==> i == (if b then 1 else 0)
    ensures PyEq(Int(i), Int(j)) <==> i == j
    ensures PyEq(Bool(b), Bool(!b)) == false
  {
  }

  /** Only the empty list equals the empty list, so `null?` may compare
      with structural equality. */
  lemma PyEqEmptyList(v: Value)
    ensures PyEq(v, List([])) <==> v == List([])
  {
  }

  /** Booleans take part in arithmetic as 0 and 1: `(+ 1 #t)` is 2 and
      `(* #f 5)` is 0. */
  lemma ArithmeticOnBooleans(env: Env, out: seq<Value>, fuel: nat)
    requires fuel >= 2
    ensures Eval(Compound([Symbol("+"), Number(1), Boolean(true)]), env, out, fuel) == Outcome(Ok(Int(2)), env, out)
    ensures Eval(Compound([Symbol("*"), Boolean(false), Number(5)]), env, out, fuel) == Outcome(Ok(Int(0)), env, out)
  {
    var one, yes, no, five := Number(1), Boolean(true), Boolean(false), Number(5);
    assert PureValues([one, yes], [Int(1), Bool(true)], env, out, fuel - 1);
    assert NumericValues([Int(1), Bool(true)], [1, 1]);
    SumOfOperands([one, yes], [Int(1), Bool(true)], [1, 1], env, out, fuel);
    assert [Symbol("+")] + [one, yes] == [Symbol("+"), one, yes];
    assert Sum([1, 1]) == 2 by {
      assert [1, 1][1..] == [1] && [1][1..] == [];
    }
    assert PureValues([no, five], [Bool(false), Int(5)], env, out, fuel - 1);
    assert NumericValues([Bool(false), Int(5)], [0, 5]);
    ProductOfOperands([no, five], [Bool(false), Int(5)], [0, 5], env, out, fuel);
    assert [Symbol("*")] + [no, five] == [Symbol("*"), no, five];
  }

  lemma {:induction false} EachFromPure(args: seq<Exp>, vals: seq<Value>, i: nat, acc: seq<Value>, env: Env, out: seq<Value>, f: nat)
    requires i <= |args| && PureValues(args, vals, env, out, f)
    ensures EvalEach(args, i, acc, env, out, f) == Outcome(Ok(List(acc + vals[i..])), env, out)
    decreases |args| - i
  {
    if i == |args| {
      assert acc + vals[i..] == acc;
    } else {
      EachFromPure(args, vals, i + 1, acc + [vals[i]], env, out, f);
      assert acc + [vals[i]] + vals[i + 1..] == acc + vals[i..];
    }
  }

  /** `list` evaluates every operand, in order, into a new list. */
  lemma ListOfOperands(args: seq<Exp>, vals: seq<Value>, env: Env, out: seq<Value>, fuel: nat)
    requires fuel >= 1 && PureValues(args, vals, env, out, fuel - 1)
    ensures Eval(Compound([Symbol("list")] + args), env, out, fuel) == Outcome(Ok(List(vals)), env, out)
  {
    assert ([Symbol("list")] + args)[1..] == args;
    EachFromPure(args, vals, 0, [], env, out, fuel - 1);
    assert [] + vals[0..] == vals;
  }

  /** `cons` prepends the head onto the list, and `car`/`cdr` take it apart
      again: the head first, then the rest of the list. */
  lemma CarCdrOfCons(a: Exp, l: Exp, v: Value, s: seq<Value>, env: Env, out: seq<Value>, fuel: nat)
    requires fuel >= 2
    requires Eval(a, env, out, fuel - 2) == Outcome(Ok(v), env, out)
    requires Eval(l, env, out, fuel - 2) == Outcome(Ok(List(s)), env, out)
    ensures Eval(Compound([Symbol("cons"), a, l]), env, out, fuel - 1) == Outcome(Ok(List([v] + s)), env, out)
    ensures Eval(Compound([Symbol("car"), Compound([Symbol("cons"), a, l])]), env, out, fuel) == Outcome(Ok(v), env, out)
    ensures Eval(Compound([Symbol("cdr"), Compound([Symbol("cons"), a, l])]), env, out, fuel) == Outcome(Ok(List(s)), env, out)
  {
    var c := Compound([Symbol("cons"), a, l]);
    assert Eval(c, env, out, fuel - 1) == Outcome(Ok(List([v] + s)), env, out) by {
      assert EvalForm(c.items, env, out, fuel - 2) == EvalCons(c.items, env, out, fuel - 2);
    }
    CarOfList(c, [v] + s, env, out, fuel);
    CdrOfList(c, [v] + s, env, out, fuel);
    assert ([v] + s)[1..] == s;
  }

  /** `car` of an empty list fails; `cdr` of an empty list is the empty list. */
  lemma CarCdrOfEmpty(l: Exp, env: Env, out: seq<Value>, fuel: nat)
    requires fuel >= 1
    requires Eval(l, env, out, fuel - 1) == Outcome(Ok(List([])), env, out)
    ensures Eval(Compound([Symbol("car"), l]), env, out, fuel) == Outcome(Fail(BadIndex), env, out)
    ensures Eval(Compound([Symbol("cdr"), l]), env, out, fuel) == Outcome(Ok(List([])), env, out)
  {
    CarOfList(l, [], env, out, fuel);
    CdrOfList(l, [], env, out, fuel);
  }

  lemma CarOfList(l: Exp, s: seq<Value>, env: Env, out: seq<Value>, fuel: nat)
    requires fuel >= 1
    requires Eval(l, env, out, fuel - 1) == Outcome(Ok(List(s)), env, out)
    ensures Eval(Compound([Symbol("car"), l]), env, out, fuel)
         == Outcome(if s == [] then Fail(BadIndex) else Ok(s[0]), env, out)
  {
    assert EvalForm([Symbol("car"), l], env, out, fuel - 1) == EvalCarCdr("car", [Symbol("car"), l], env, out, fuel - 1);
  }

  lemma CdrOfList(l: Exp, s: seq<Value>, env: Env, out: seq<Value>, fuel: nat)
    requires fuel >= 1
    requires Eval(l, env, out, fuel - 1) == Outcome(Ok(List(s)), env, out)
    ensures Eval(Compound([Symbol("cdr"), l]), env, out, fuel)
         == Outcome(Ok(List(if s == [] then [] else s[1..])), env, out)
  {
    assert EvalForm([Symbol("cdr"), l], env, out, fuel - 1) == EvalCarCdr("cdr", [Symbol("cdr"), l], env, out, fuel - 1);
  }

  /** `cons` onto something that is not a list fails. */
  lemma ConsOntoNonList(a: Exp, l: Exp, v: Value, w: Value, env: Env, out: seq<Value>, fuel: nat)
    requires fuel >= 1 && !w.List?
    requires Eval(a, env, out, fuel - 1) == Outcome(Ok(v), env, out)
    requires Eval(l, env, out, fuel - 1) == Outcome(Ok(w), env, out)
    ensures Eval(Compound([Symbol("cons"), a, l]), env, out, fuel) == Outcome(Fail(TypeMismatch), env, out)
  {
    assert EvalForm([Symbol("cons"), a, l], env, out, fuel - 1) == EvalCons([Symbol("cons"), a, l], env, out, fuel - 1);
  }

  /** `null?` is equality with the empty list. */
  lemma NullPIsEmptyTest(a: Exp, v: Value, env: Env, out: seq<Value>, fuel: nat)
    requires fuel >= 1
    requires Eval(a, env, out, fuel - 1) == Outcome(Ok(v), env, out)
    ensures Eval(Compound([Symbol("null?"), a]), env, out, fuel) == Outcome(Ok(Bool(v == List([]))), env, out)
  {
    assert EvalForm([Symbol("null?"), a], env, out, fuel - 1) == EvalNullP([Symbol("null?"), a], env, out, fuel - 1);
  }
}
