/** What the special forms, application and `eval_loop` of lis.py promise:
    `null` cannot be rebound, `and`/`or` stop at the first decisive operand,
    `if` evaluates one branch, `let` evaluates every value in the caller's
    environment, `define` extends the caller's environment in place, a call
    runs in a fresh environment, and the top-level loop threads one
    environment through the program. */
module FormFacts {
  import opened Syntax
  import opened Semantics
  import opened OperatorFacts

  /** The words `eval_in_env` dispatches on before it falls back to
      application. */
  predicate IsKeyword(s: string)
  {
    s in {"+", "*", "-", "/", "=", "<", ">", "and", "or", "if", "let", "define",
          "lambda", "display", "cons", "car", "cdr", "list", "null?"}
  }

  /** `null` is the empty list in every environment, even one that binds the
      name; any other symbol is its most recent binding. */
  lemma SymbolEvaluation(s: string, v: Value, env: Env, out: seq<Value>, fuel: nat)
    requires fuel >= 1
    ensures Eval(Symbol("null"), [Binding(Symbol("null"), v)] + env, out, fuel).result == Ok(List([]))
    ensures s != "null" ==> Eval(Symbol(s), [Binding(Symbol(s), v)] + env, out, fuel).result == Ok(v)
    ensures s != "null" && Lookup(s, env).Fail? ==> Eval(Symbol(s), env, out, fuel).result == Fail(UnknownVariable(s))
  {
  }

  lemma {:induction false} AndShift(args: seq<Exp>, more: seq<Exp>, j: nat, env: Env, out: seq<Value>, f: nat)
    requires j <= |more|
    ensures EvalAnd(args + more, |args| + j, env, out, f) == EvalAnd(more, j, env, out, f)
    decreases |more| - j
  {
    if j < |more| {
      assert (args + more)[|args| + j] == more[j];
      var L, M := EvalAnd(args + more, |args| + j, env, out, f), EvalAnd(more, j, env, out, f);
      var r := Eval(more[j], env, out, f);
      if r.result.Fail? {
        assert L == r && M == r;
      } else if Truthy(r.result.value) {
        AndShift(args, more, j + 1, r.env, r.out, f);
        assert L == EvalAnd(args + more, |args| + j + 1, r.env, r.out, f);
        assert M == EvalAnd(more, j + 1, r.env, r.out, f);
      } else {
        assert L == M;
      }
    }
  }

  lemma {:induction false} AndSplit(args: seq<Exp>, more: seq<Exp>, i: nat, env: Env, out: seq<Value>, f: nat)
    requires i <= |args|
    ensures EvalAnd(args + more, i, env, out, f)
         == (var r := EvalAnd(args, i, env, out, f);
             if r.result == Ok(Bool(true)) then EvalAnd(more, 0, r.env, r.out, f) else r)
    decreases |args| - i
  {
    if i == |args| {
      AndShift(args, more, 0, env, out, f);
    } else {
      assert (args + more)[i] == args[i];
      var L, M := EvalAnd(args + more, i, env, out, f), EvalAnd(args, i, env, out, f);
      var r := Eval(args[i], env, out, f);
      if r.result.Fail? {
        assert L == r && M == r;
      } else if Truthy(r.result.value) {
        AndSplit(args, more, i + 1, r.env, r.out, f);
        assert L == EvalAnd(args + more, i + 1, r.env, r.out, f);
        assert M == EvalAnd(args, i + 1, r.env, r.out, f);
      } else {
        assert L == M && M == Outcome(Ok(Bool(false)), r.env, r.out);
      }
    }
  }

  lemma {:induction false} OrShift(args: seq<Exp>, more: seq<Exp>, j: nat, env: Env, out: seq<Value>, f: nat)
    requires j <= |more|
    ensures EvalOr(args + more, |args| + j, env, out, f) == EvalOr(more, j, env, out, f)
    decreases |more| - j
  {
    if j < |more| {
      assert (args + more)[|args| + j] == more[j];
      var L, M := EvalOr(args + more, |args| + j, env, out, f), EvalOr(more, j, env, out, f);
      var r := Eval(more[j], env, out, f);
      if r.result.Fail? {
        assert L == r && M == r;
      } else if !Truthy(r.result.value) {
        OrShift(args, more, j + 1, r.env, r.out, f);
        assert L == EvalOr(args + more, |args| + j + 1, r.env, r.out, f);
        assert M == EvalOr(more, j + 1, r.env, r.out, f);
      } else {
        assert L == M;
      }
    }
  }

  lemma {:induction false} OrSplit(args: seq<Exp>, more: seq<Exp>, i: nat, env: Env, out: seq<Value>, f: nat)
    requires i <= |args|
    ensures EvalOr(args + more, i, env, out, f)
         == (var r := EvalOr(args, i, env, out, f);
             if r.result == Ok(Bool(false)) then EvalOr(more, 0, r.env, r.out, f) else r)
    decreases |args| - i
  {
    if i == |args| {
      OrShift(args, more, 0, env, out, f);
    } else {
      assert (args + more)[i] == args[i];
      var L, M := EvalOr(args + more, i, env, out, f), EvalOr(args, i, env, out, f);
      var r := Eval(args[i], env, out, f);
      if r.result.Fail? {
        assert L == r && M == r;
      } else if !Truthy(r.result.value) {
        OrSplit(args, more, i + 1, r.env, r.out, f);
        assert L == EvalOr(args + more, i + 1, r.env, r.out, f);
        assert M == EvalOr(args, i + 1, r.env, r.out, f);
      } else {
        assert L == M && M == Outcome(Ok(Bool(true)), r.env, r.out);
      }
    }
  }

  /** `and` works left to right: the operands after a prefix run, from the
      state the prefix leaves, only when the prefix gives `#t`; otherwise
      they are never evaluated and the prefix's outcome is the whole
      outcome. `(and)` is `#t`. */
  lemma AndOfConcat(args: seq<Exp>, more: seq<Exp>, env: Env, out: seq<Value>, fuel: nat)
    requires fuel >= 1
    ensures Eval(Compound([Symbol("and")] + args + more), env, out, fuel)
         == (var r := Eval(Compound([Symbol("and")] + args), env, out, fuel);
             if r.result == Ok(Bool(true)) then Eval(Compound([Symbol("and")] + more), r.env, r.out, fuel) else r)
    ensures Eval(Compound([Symbol("and")]), env, out, fuel) == Outcome(Ok(Bool(true)), env, out)
  {
    var whole, left, right := [Symbol("and")] + args + more, [Symbol("and")] + args, [Symbol("and")] + more;
    assert whole[1..] == args + more && left[1..] == args && right[1..] == more;
    AndSplit(args, more, 0, env, out, fuel - 1);
    assert EvalForm(whole, env, out, fuel - 1) == EvalAnd(args + more, 0, env, out, fuel - 1);
    assert EvalForm(left, env, out, fuel - 1) == EvalAnd(args, 0, env, out, fuel - 1);
    assert EvalForm([Symbol("and")], env, out, fuel - 1) == EvalAnd([], 0, env, out, fuel - 1);
    var r := Eval(Compound(left), env, out, fuel);
    if r.result == Ok(Bool(true)) {
      assert EvalForm(right, r.env, r.out, fuel - 1) == EvalAnd(more, 0, r.env, r.out, fuel - 1);
    }
  }

  /** `or` works left to right: the operands after a prefix run, from the
      state the prefix leaves, only when the prefix gives `#f`; otherwise
      they are never evaluated and the prefix's outcome is the whole
      outcome. `(or)` is `#f`. */
  lemma OrOfConcat(args: seq<Exp>, more: seq<Exp>, env: Env, out: seq<Value>, fuel: nat)
    requires fuel >= 1
    ensures Eval(Compound([Symbol("or")] + args + more), env, out, fuel)
         == (var r := Eval(Compound([Symbol("or")] + args), env, out, fuel);
             if r.result == Ok(Bool(false)) then Eval(Compound([Symbol("or")] + more), r.env, r.out, fuel) else r)
    ensures Eval(Compound([Symbol("or")]), env, out, fuel) == Outcome(Ok(Bool(false)), env, out)
  {
    var whole, left, right := [Symbol("or")] + args + more, [Symbol("or")] + args, [Symbol("or")] + more;
    assert whole[1..] == args + more && left[1..] == args && right[1..] == more;
    OrSplit(args, more, 0, env, out, fuel - 1);
    assert EvalForm(whole, env, out, fuel - 1) == EvalOr(args + more, 0, env, out, fuel - 1);
    assert EvalForm(left, env, out, fuel - 1) == EvalOr(args, 0, env, out, fuel - 1);
    assert EvalForm([Symbol("or")], env, out, fuel - 1) == EvalOr([], 0, env, out, fuel - 1);
    var r := Eval(Compound(left), env, out, fuel);
    if r.result == Ok(Bool(false)) {
      assert EvalForm(right, r.env, r.out, fuel - 1) == EvalOr(more, 0, r.env, r.out, fuel - 1);
    }
  }

  lemma {:induction false} AndOrFromGiveBooleans(args: seq<Exp>, i: nat, env: Env, out: seq<Value>, f: nat)
    requires i <= |args|
    ensures EvalAnd(args, i, env, out, f).result.Ok? ==> EvalAnd(args, i, env, out, f).result.value.Bool?
    ensures EvalOr(args, i, env, out, f).result.Ok? ==> EvalOr(args, i, env, out, f).result.value.Bool?
    decreases |args| - i
  {
    if i < |args| {
      var r := Eval(args[i], env, out, f);
      if r.result.Ok? {
        AndOrFromGiveBooleans(args, i + 1, r.env, r.out, f);
      }
    }
  }

  /** `and` and `or` give `#t` or `#f`, never the value of an operand. */
  lemma AndOrGiveBooleans(op: string, args: seq<Exp>, env: Env, out: seq<Value>, fuel: nat)
    requires op == "and" || op == "or"
    ensures var r := Eval(Compound([Symbol(op)] + args), env, out, fuel);
            r.result.Ok? ==> r.result.value.Bool?
  {
    if fuel >= 1 {
      assert ([Symbol(op)] + args)[1..] == args;
      AndOrFromGiveBooleans(args, 0, env, out, fuel - 1);
    }
  }

  /** With one operand, `and` and `or` give `#t` exactly when that operand's
      value is truthy, keeping whatever evaluating it did to the environment
      and the output. */
  lemma AndOrOfOne(op: string, p: Exp, v: Value, env: Env, env1: Env, out: seq<Value>, out1: seq<Value>, fuel: nat)
    requires op == "and" || op == "or"
    requires fuel >= 1 && Eval(p, env, out, fuel - 1) == Outcome(Ok(v), env1, out1)
    ensures Eval(Compound([Symbol(op), p]), env, out, fuel) == Outcome(Ok(Bool(Truthy(v))), env1, out1)
  {
    var items := [Symbol(op), p];
    assert items[1..] == [p] && [p][0] == p && Keyword(items) == op;
    assert Eval(Compound(items), env, out, fuel) == EvalForm(items, env, out, fuel - 1);
    if op == "and" {
      assert EvalAnd([p], 1, env1, out1, fuel - 1) == Outcome(Ok(Bool(true)), env1, out1);
      assert EvalForm(items, env, out, fuel - 1) == EvalAnd([p], 0, env, out, fuel - 1);
    } else {
      assert EvalOr([p], 1, env1, out1, fuel - 1) == Outcome(Ok(Bool(false)), env1, out1);
      assert EvalForm(items, env, out, fuel - 1) == EvalOr([p], 0, env, out, fuel - 1);
    }
  }

  lemma {:induction false} AndFromPure(args: seq<Exp>, vals: seq<Value>, i: nat, env: Env, out: seq<Value>, f: nat)
    requires i <= |args| && PureValues(args, vals, env, out, f)
    ensures EvalAnd(args, i, env, out, f) == Outcome(Ok(Bool(forall k :: i <= k < |vals| ==> Truthy(vals[k]))), env, out)
    decreases |args| - i
  {
    if i < |args| {
      assert Eval(args[i], env, out, f) == Outcome(Ok(vals[i]), env, out);
      if Truthy(vals[i]) {
        assert EvalAnd(args, i, env, out, f) == EvalAnd(args, i + 1, env, out, f);
        AndFromPure(args, vals, i + 1, env, out, f);
      } else {
        assert EvalAnd(args, i, env, out, f) == Outcome(Ok(Bool(false)), env, out);
      }
    }
  }

  lemma {:induction false} OrFromPure(args: seq<Exp>, vals: seq<Value>, i: nat, env: Env, out: seq<Value>, f: nat)
    requires i <= |args| && PureValues(args, vals, env, out, f)
    ensures EvalOr(args, i, env, out, f) == Outcome(Ok(Bool(exists k :: i <= k < |vals| && Truthy(vals[k]))), env, out)
    decreases |args| - i
  {
    if i < |args| {
      assert Eval(args[i], env, out, f) == Outcome(Ok(vals[i]), env, out);
      if Truthy(vals[i]) {
        assert EvalOr(args, i, env, out, f) == Outcome(Ok(Bool(true)), env, out);
      } else {
        assert EvalOr(args, i, env, out, f) == EvalOr(args, i + 1, env, out, f);
        OrFromPure(args, vals, i + 1, env, out, f);
        assert (exists k :: i <= k < |vals| && Truthy(vals[k])) == (exists k :: i + 1 <= k < |vals| && Truthy(vals[k]));
      }
    }
  }

  /** Over operands that change nothing, `and` is `#t` exactly when every
      operand is truthy. */
  lemma AndOfPure(args: seq<Exp>, vals: seq<Value>, env: Env, out: seq<Value>, fuel: nat)
    requires fuel >= 1 && PureValues(args, vals, env, out, fuel - 1)
    ensures Eval(Compound([Symbol("and")] + args), env, out, fuel)
         == Outcome(Ok(Bool(forall k :: 0 <= k < |vals| ==> Truthy(vals[k]))), env, out)
  {
    var items := [Symbol("and")] + args;
    assert items[1..] == args;
    AndFromPure(args, vals, 0, env, out, fuel - 1);
    assert EvalForm(items, env, out, fuel - 1) == EvalAnd(args, 0, env, out, fuel - 1);
  }

  /** Over operands that change nothing, `or` is `#t` exactly when some
      operand is truthy. */
  lemma OrOfPure(args: seq<Exp>, vals: seq<Value>, env: Env, out: seq<Value>, fuel: nat)
    requires fuel >= 1 && PureValues(args, vals, env, out, fuel - 1)
    ensures Eval(Compound([Symbol("or")] + args), env, out, fuel)
         == Outcome(Ok(Bool(exists k :: 0 <= k < |vals| && Truthy(vals[k]))), env, out)
  {
    var items := [Symbol("or")] + args;
    assert items[1..] == args;
    OrFromPure(args, vals, 0, env, out, fuel - 1);
    assert EvalForm(items, env, out, fuel - 1) == EvalOr(args, 0, env, out, fuel - 1);
  }

  /** `if` evaluates its test, then exactly one branch, in the environment
      and with the output the test left: the other branch may be anything. */
  lemma IfEvaluatesOneBranch(p: Exp, a: Exp, b: Exp, c: Exp, env: Env, out: seq<Value>, fuel: nat)
    requires fuel >= 1 && Eval(p, env, out, fuel - 1).result.Ok?
    ensures var r := Eval(p, env, out, fuel - 1);
            Truthy(r.result.value) ==>
              Eval(Compound([Symbol("if"), p, a, b]), env, out, fuel) == Eval(a, r.env, r.out, fuel - 1) &&
              Eval(Compound([Symbol("if"), p, a, b]), env, out, fuel) == Eval(Compound([Symbol("if"), p, a, c]), env, out, fuel)
    ensures var r := Eval(p, env, out, fuel - 1);
            !Truthy(r.result.value) ==>
              Eval(Compound([Symbol("if"), p, a, b]), env, out, fuel) == Eval(b, r.env, r.out, fuel - 1) &&
              Eval(Compound([Symbol("if"), p, a, b]), env, out, fuel) == Eval(Compound([Symbol("if"), p, c, b]), env, out, fuel)
  {
    assert EvalForm([Symbol("if"), p, a, b], env, out, fuel - 1) == EvalIf([Symbol("if"), p, a, b], env, out, fuel - 1);
    assert EvalForm([Symbol("if"), p, a, c], env, out, fuel - 1) == EvalIf([Symbol("if"), p, a, c], env, out, fuel - 1);
    assert EvalForm([Symbol("if"), p, c, b], env, out, fuel - 1) == EvalIf([Symbol("if"), p, c, b], env, out, fuel - 1);
  }

  /** `if` without exactly a test and two branches fails before evaluating
      anything. */
  lemma IfArity(args: seq<Exp>, env: Env, out: seq<Value>, fuel: nat)
    requires fuel >= 1 && |args| != 3
    ensures Eval(Compound([Symbol("if")] + args), env, out, fuel) == Outcome(Fail(BadUnpack), env, out)
  {
    var items := [Symbol("if")] + args;
    assert EvalForm(items, env, out, fuel - 1) == EvalIf(items, env, out, fuel - 1);
  }

  /** The pairs of a `let`, written `((name value) ...)`. */
  function Pairs(names: seq<Exp>, vexps: seq<Exp>): seq<Exp>
    requires |names| == |vexps|
  {
    seq(|names|, k requires 0 <= k < |names| => Compound([names[k], vexps[k]]))
  }

  /** `base` with each name bound to its value in turn, every new binding in
      front of the previous ones: the last pair is found first. */
  function Bound(names: seq<Exp>, vals: seq<Value>, base: Env): Env
    requires |names| == |vals|
  {
    if names == [] then base
    else [Binding(names[|names| - 1], vals[|vals| - 1])] + Bound(names[..|names| - 1], vals[..|vals| - 1], base)
  }

  lemma {:induction false} LetFromPure(names: seq<Exp>, vexps: seq<Exp>, vals: seq<Value>, i: nat,
                                       body: Exp, env: Env, out: seq<Value>, f: nat)
    requires |names| == |vexps| && 1 <= i <= |names|
    requires PureValues(vexps, vals, env, out, f)
    ensures LetFrom(Pairs(names, vexps), i, Bound(names[..i], vals[..i], env), body, env, out, f)
         == (var r := Eval(body, Bound(names, vals, env), out, f); Outcome(r.result, env, r.out))
    decreases |names| - i
  {
    var pairs := Pairs(names, vexps);
    if i == |names| {
      assert names[..i] == names && vals[..i] == vals;
    } else {
      assert PairParts(pairs[i]) == Ok((names[i], vexps[i]));
      assert Eval(vexps[i], env, out, f) == Outcome(Ok(vals[i]), env, out);
      assert names[..i + 1][..i] == names[..i] && vals[..i + 1][..i] == vals[..i];
      assert Bound(names[..i + 1], vals[..i + 1], env) == [Binding(names[i], vals[i])] + Bound(names[..i], vals[..i], env);
      LetFromPure(names, vexps, vals, i + 1, body, env, out, f);
    }
  }

  /** `let` evaluates every value in the caller's environment (a pair does
      not see the names bound before it), runs the body with the names bound
      in order (a later pair shadows an earlier one of the same name), and
      leaves the caller's environment as it was. */
  lemma LetBindsInCallerEnv(names: seq<Exp>, vexps: seq<Exp>, vals: seq<Value>, body: Exp,
                            env: Env, out: seq<Value>, fuel: nat)
    requires fuel >= 1 && |names| == |vexps| && names != []
    requires PureValues(vexps, vals, env, out, fuel - 1)
    ensures var r := Eval(body, Bound(names, vals, env), out, fuel - 1);
            Eval(Compound([Symbol("let"), Compound(Pairs(names, vexps)), body]), env, out, fuel) == Outcome(r.result, env, r.out)
  {
    var pairs := Pairs(names, vexps);
    var items := [Symbol("let"), Compound(pairs), body];
    assert EvalForm(items, env, out, fuel - 1) == EvalLet(items, env, out, fuel - 1);
    assert EvalLet(items, env, out, fuel - 1) == LetFrom(pairs, 0, [], body, env, out, fuel - 1);
    assert PairParts(pairs[0]) == Ok((names[0], vexps[0]));
    assert Eval(vexps[0], env, out, fuel - 1) == Outcome(Ok(vals[0]), env, out);
    assert names[..1][..0] == [] && vals[..1][..0] == [];
    assert Bound(names[..1], vals[..1], env) == [Binding(names[0], vals[0])] + env;
    LetFromPure(names, vexps, vals, 1, body, env, out, fuel - 1);
  }

  /** A `let` with no pairs runs its body in the caller's environment itself,
      so a `define` in the body is still there afterwards. */
  lemma EmptyLetSharesCallerEnv(body: Exp, env: Env, out: seq<Value>, fuel: nat)
    requires fuel >= 1
    ensures Eval(Compound([Symbol("let"), Compound([]), body]), env, out, fuel) == Eval(body, env, out, fuel - 1)
  {
    var items := [Symbol("let"), Compound([]), body];
    assert EvalForm(items, env, out, fuel - 1) == EvalLet(items, env, out, fuel - 1);
    assert Iterate(Compound([])) == Ok([]);
    assert EvalLet(items, env, out, fuel - 1) == LetFrom([], 0, [], body, env, out, fuel - 1);
  }

  /** `(let ((x 1)) (let ((y x) (x 2)) y))` is 1: the inner `x` is read
      before the inner pair for `x` is bound. */
  lemma LetExample(env: Env, out: seq<Value>, fuel: nat)
    requires fuel >= 3
    ensures Eval(Compound([Symbol("let"), Compound([Compound([Symbol("x"), Number(1)])]),
                   Compound([Symbol("let"), Compound([Compound([Symbol("y"), Symbol("x")]), Compound([Symbol("x"), Number(2)])]),
                     Symbol("y")])]), env, out, fuel)
         == Outcome(Ok(Int(1)), env, out)
  {
    var x, y := Symbol("x"), Symbol("y");
    var inner := Compound([Symbol("let"), Compound([Compound([y, x]), Compound([x, Number(2)])]), y]);
    var env1 := [Binding(x, Int(1))] + env;
    assert Pairs([x], [Number(1)]) == [Compound([x, Number(1)])];
    assert Bound([x], [Int(1)], env) == env1 by {
      assert [x][..0] == [] && [Int(1)][..0] == [];
    }
    NumeralsArePure([1], env, out, fuel - 1);
    assert Numerals([1]) == [Number(1)] && Ints([1]) == [Int(1)];
    LetBindsInCallerEnv([x], [Number(1)], [Int(1)], inner, env, out, fuel);
    InnerLetExample(env1, out, fuel - 1);
  }

  /** The inner `let` of `LetExample`, run where `x` is 1. */
  lemma InnerLetExample(env1: Env, out: seq<Value>, fuel: nat)
    requires fuel >= 2 && env1 != [] && env1[0] == Binding(Symbol("x"), Int(1))
    ensures Eval(Compound([Symbol("let"), Compound([Compound([Symbol("y"), Symbol("x")]), Compound([Symbol("x"), Number(2)])]),
                   Symbol("y")]), env1, out, fuel)
         == Outcome(Ok(Int(1)), env1, out)
  {
    var x, y := Symbol("x"), Symbol("y");
    var env2 := [Binding(x, Int(2)), Binding(y, Int(1))] + env1;
    assert Pairs([y, x], [x, Number(2)]) == [Compound([y, x]), Compound([x, Number(2)])];
    assert Bound([y, x], [Int(1), Int(2)], env1) == env2 by {
      assert [y, x][..1] == [y] && [Int(1), Int(2)][..1] == [Int(1)];
      assert [y][..0] == [] && [Int(1)][..0] == [];
      assert Bound([y], [Int(1)], env1) == [Binding(y, Int(1))] + env1;
    }
    assert Lookup("x", env1) == Ok(Int(1));
    assert PureValues([x, Number(2)], [Int(1), Int(2)], env1, out, fuel - 1);
    LetBindsInCallerEnv([y, x], [x, Number(2)], [Int(1), Int(2)], y, env1, out, fuel);
    assert env2[1..][0] == Binding(y, Int(1));
    assert Lookup("y", env2[1..]) == Ok(Int(1));
    assert Lookup("y", env2) == Ok(Int(1));
    assert Eval(y, env2, out, fuel - 1) == Outcome(Ok(Int(1)), env2, out);
  }

  /** `define` binds the name to the value in front of the caller's
      environment, where every later lookup in that environment finds it
      first; its own result is nothing. */
  lemma DefineExtendsCallerEnv(name: string, e: Exp, v: Value, env: Env, env1: Env, out: seq<Value>, out1: seq<Value>, fuel: nat)
    requires fuel >= 1 && Eval(e, env, out, fuel - 1) == Outcome(Ok(v), env1, out1)
    ensures Eval(Compound([Symbol("define"), Symbol(name), e]), env, out, fuel)
         == Outcome(Ok(Nothing), [Binding(Symbol(name), v)] + env1, out1)
    ensures name != "null" ==> Eval(Symbol(name), [Binding(Symbol(name), v)] + env1, out1, fuel).result == Ok(v)
  {
    var items := [Symbol("define"), Symbol(name), e];
    assert EvalForm(items, env, out, fuel - 1) == EvalDefine(items, env, out, fuel - 1);
  }

  /** `display` appends its first operand's value to the output and ignores
      any further operands. */
  lemma DisplayAppendsOutput(e: Exp, extra: seq<Exp>, v: Value, env: Env, env1: Env, out: seq<Value>, out1: seq<Value>, fuel: nat)
    requires fuel >= 1 && Eval(e, env, out, fuel - 1) == Outcome(Ok(v), env1, out1)
    ensures Eval(Compound([Symbol("display"), e] + extra), env, out, fuel) == Outcome(Ok(Nothing), env1, out1 + [v])
  {
    var items := [Symbol("display"), e] + extra;
    assert items[1] == e;
    assert EvalForm(items, env, out, fuel - 1) == EvalDisplay(items, env, out, fuel - 1);
  }

  /** A call whose head is a name bound to a closure: the arguments are
      evaluated in the caller's environment, and the body runs with the
      name bound to the closure itself, then the parameters zipped with the
      arguments, then the captured environment. Whatever the body defines,
      the caller's environment is left as it was. */
  lemma CallByName(name: string, args: seq<Exp>, vals: seq<Value>, fn: seq<Exp>, cap: Env,
                   params: seq<Exp>, env: Env, out: seq<Value>, fuel: nat)
    requires fuel >= 2 && name != "null" && !IsKeyword(name)
    requires Lookup(name, env) == Ok(Closure(fn, cap))
    requires |fn| == 3 && Iterate(fn[1]) == Ok(params)
    requires PureValues(args, vals, env, out, fuel - 1)
    ensures var r := Eval(fn[2], [Binding(Symbol(name), Closure(fn, cap))] + Zip(params, vals) + cap, out, fuel - 1);
            Eval(Compound([Symbol(name)] + args), env, out, fuel) == Outcome(r.result, env, r.out)
  {
    var items := [Symbol(name)] + args;
    var clo := Closure(fn, cap);
    assert items[0] == Symbol(name) && items[1..] == args && Keyword(items) == name;
    assert Eval(Symbol(name), env, out, fuel - 1) == Outcome(Ok(clo), env, out);
    CallOfClosure(items, fn, cap, params, vals, env, out, fuel);
    assert CallEnv(Symbol(name), clo, params, vals) == [Binding(Symbol(name), clo)] + Zip(params, vals) + cap;
  }

  /** A form whose head is not a keyword and evaluates to a closure, with
      arguments that change nothing, runs the closure's body. */
  lemma CallOfClosure(items: seq<Exp>, fn: seq<Exp>, cap: Env, params: seq<Exp>, vals: seq<Value>,
                      env: Env, out: seq<Value>, fuel: nat)
    requires fuel >= 1 && items != [] && !IsKeyword(Keyword(items))
    requires Eval(items[0], env, out, fuel - 1) == Outcome(Ok(Closure(fn, cap)), env, out)
    requires |fn| == 3 && Iterate(fn[1]) == Ok(params)
    requires PureValues(items[1..], vals, env, out, fuel - 1)
    ensures var r := Eval(fn[2], CallEnv(items[0], Closure(fn, cap), params, vals), out, fuel - 1);
            Eval(Compound(items), env, out, fuel) == Outcome(r.result, env, r.out)
  {
    FormIsApply(items, env, out, fuel - 1);
    ApplyClosure(items, fn, cap, params, vals, env, out, fuel - 1);
  }

  /** A form whose head is not a keyword is an application. */
  lemma FormIsApply(items: seq<Exp>, env: Env, out: seq<Value>, f: nat)
    requires items != [] && !IsKeyword(Keyword(items))
    ensures EvalForm(items, env, out, f) == EvalApply(items, env, out, f)
  {
  }

  /** Application of a head that evaluates to a closure, with arguments
      that change nothing. */
  lemma ApplyClosure(items: seq<Exp>, fn: seq<Exp>, cap: Env, params: seq<Exp>, vals: seq<Value>,
                     env: Env, out: seq<Value>, f: nat)
    requires items != [] && Eval(items[0], env, out, f) == Outcome(Ok(Closure(fn, cap)), env, out)
    requires |fn| == 3 && Iterate(fn[1]) == Ok(params)
    requires PureValues(items[1..], vals, env, out, f)
    ensures var r := Eval(fn[2], CallEnv(items[0], Closure(fn, cap), params, vals), out, f);
            EvalApply(items, env, out, f) == Outcome(r.result, env, r.out)
  {
    EachFromPure(items[1..], vals, 0, [], env, out, f);
    assert [] + vals[0..] == vals;
  }

  /** In the body of a call by name, the name is the closure itself, even
      when a parameter has the same name; the parameters come next, and
      surplus arguments or parameters are dropped. */
  lemma CallEnvShadowing(name: string, closure: Value, params: seq<Exp>, vals: seq<Value>)
    requires closure.Closure?
    ensures Lookup(name, CallEnv(Symbol(name), closure, params, vals)) == Ok(closure)
    ensures |CallEnv(Symbol(name), closure, params, vals)| ==
            1 + (if |params| < |vals| then |params| else |vals|) + |closure.captured|
  {
    assert CallEnv(Symbol(name), closure, params, vals)[0] == Binding(Symbol(name), closure);
  }

  /** A value that is not a closure cannot be applied; the head and the
      arguments are evaluated first. */
  lemma ApplyNonClosure(name: string, args: seq<Exp>, vals: seq<Value>, env: Env, out: seq<Value>, fuel: nat)
    requires fuel >= 2 && name != "null" && !IsKeyword(name)
    requires Lookup(name, env).Ok? && !Lookup(name, env).value.Closure?
    requires PureValues(args, vals, env, out, fuel - 1)
    ensures Eval(Compound([Symbol(name)] + args), env, out, fuel) == Outcome(Fail(NotCallable), env, out)
  {
    var items := [Symbol(name)] + args;
    assert Keyword(items) == name && items[0] == Symbol(name) && items[1..] == args;
    assert Eval(Symbol(name), env, out, fuel - 1) == Outcome(Lookup(name, env), env, out);
    CallOfNonClosure(items, Lookup(name, env).value, vals, env, out, fuel);
  }

  lemma CallOfNonClosure(items: seq<Exp>, c: Value, vals: seq<Value>, env: Env, out: seq<Value>, fuel: nat)
    requires fuel >= 1 && items != [] && !IsKeyword(Keyword(items))
    requires Eval(items[0], env, out, fuel - 1) == Outcome(Ok(c), env, out) && !c.Closure?
    requires PureValues(items[1..], vals, env, out, fuel - 1)
    ensures Eval(Compound(items), env, out, fuel) == Outcome(Fail(NotCallable), env, out)
  {
    FormIsApply(items, env, out, fuel - 1);
    EachFromPure(items[1..], vals, 0, [], env, out, fuel - 1);
  }

  /** A `lambda` evaluates to a closure holding the whole form and a
      snapshot of the environment; a later `define` changes the environment
      but not that snapshot, so the closure does not see its own name. */
  lemma LambdaCapturesSnapshot(f: string, lam: seq<Exp>, y: string, n: int, env: Env, out: seq<Value>, fuel: nat)
    requires fuel >= 2 && |lam| >= 1 && lam[0] == Symbol("lambda")
    ensures RunFrom([Compound([Symbol("define"), Symbol(f), Compound(lam)]), Compound([Symbol("define"), Symbol(y), Number(n)])], 0, env, out, fuel)
         == Outcome(Ok(Nothing), [Binding(Symbol(y), Int(n)), Binding(Symbol(f), Closure(lam, env))] + env, out)
  {
    assert Keyword(lam) == "lambda";
    assert EvalForm(lam, env, out, fuel - 2) == Outcome(Ok(Closure(lam, env)), env, out);
    DefineExtendsCallerEnv(f, Compound(lam), Closure(lam, env), env, env, out, out, fuel);
    var env1 := [Binding(Symbol(f), Closure(lam, env))] + env;
    DefineExtendsCallerEnv(y, Number(n), Int(n), env1, env1, out, out, fuel);
    var program := [Compound([Symbol("define"), Symbol(f), Compound(lam)]), Compound([Symbol("define"), Symbol(y), Number(n)])];
    var env2 := [Binding(Symbol(y), Int(n))] + env1;
    assert RunFrom(program, 2, env2, out, fuel) == Outcome(Ok(Nothing), env2, out);
    assert RunFrom(program, 1, env1, out, fuel) == Outcome(Ok(Nothing), env2, out);
    assert [Binding(Symbol(y), Int(n)), Binding(Symbol(f), Closure(lam, env))] + env == env2;
  }

  lemma {:induction false} RunFromSplit(p: seq<Exp>, q: seq<Exp>, i: nat, env: Env, out: seq<Value>, fuel: nat)
    requires i <= |p|
    ensures RunFrom(p + q, i, env, out, fuel)
         == (var r := RunFrom(p, i, env, out, fuel);
             if r.result.Fail? then r else RunFrom(q, 0, r.env, r.out, fuel))
    decreases |p| - i
  {
    if i == |p| {
      RunFromShift(p, q, 0, env, out, fuel);
    } else {
      assert (p + q)[i] == p[i];
      var L, M := RunFrom(p + q, i, env, out, fuel), RunFrom(p, i, env, out, fuel);
      var r := Eval(p[i], env, out, fuel);
      if r.result.Fail? {
        assert L == r && M == r;
      } else {
        RunFromSplit(p, q, i + 1, r.env, r.out, fuel);
        assert L == RunFrom(p + q, i + 1, r.env, r.out, fuel);
        assert M == RunFrom(p, i + 1, r.env, r.out, fuel);
      }
    }
  }

  lemma {:induction false} RunFromShift(p: seq<Exp>, q: seq<Exp>, j: nat, env: Env, out: seq<Value>, fuel: nat)
    requires j <= |q|
    ensures RunFrom(p + q, |p| + j, env, out, fuel) == RunFrom(q, j, env, out, fuel)
    decreases |q| - j
  {
    if j < |q| {
      assert (p + q)[|p| + j] == q[j];
      var L, M := RunFrom(p + q, |p| + j, env, out, fuel), RunFrom(q, j, env, out, fuel);
      var r := Eval(q[j], env, out, fuel);
      if r.result.Fail? {
        assert L == r && M == r;
      } else {
        RunFromShift(p, q, j + 1, r.env, r.out, fuel);
        assert L == RunFrom(p + q, |p| + j + 1, r.env, r.out, fuel);
        assert M == RunFrom(q, j + 1, r.env, r.out, fuel);
      }
    }
  }

  /** `eval_loop` over two parts of a program: the second part runs in the
      environment and after the output the first part left, and not at all
      once the first part fails. */
  lemma RunConcat(p: seq<Exp>, q: seq<Exp>, fuel: nat)
    ensures Run(p + q, fuel)
         == (var r := Run(p, fuel); if r.result.Fail? then r else RunFrom(q, 0, r.env, r.out, fuel))
  {
    RunFromSplit(p, q, 0, [], [], fuel);
  }

  lemma {:induction false} RunFromSucceeds(program: seq<Exp>, i: nat, env: Env, out: seq<Value>, fuel: nat)
    requires i <= |program|
    ensures RunFrom(program, i, env, out, fuel).result.Ok? ==> RunFrom(program, i, env, out, fuel).result.value == Nothing
    decreases |program| - i
  {
    if i < |program| {
      var r := Eval(program[i], env, out, fuel);
      if r.result.Ok? {
        RunFromSucceeds(program, i + 1, r.env, r.out, fuel);
      }
    }
  }

  /** `eval_loop` discards the values of the forms: a program that does not
      fail gives nothing, and its only visible effect is its output. */
  lemma RunGivesNothing(program: seq<Exp>, fuel: nat)
    ensures Run(program, fuel).result.Ok? ==> Run(program, fuel).result.value == Nothing
  {
    RunFromSucceeds(program, 0, [], [], fuel);
  }
}
