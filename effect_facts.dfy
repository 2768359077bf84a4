/** The only effects evaluation has on the caller's state: `define` inserts
    bindings at the front of the caller's environment (`env.insert(0, ...)`)
    and `display` appends to the output. Nothing is ever removed or
    rewritten, whatever the expression and whether or not it fails. */
module EffectFacts {
  import opened Syntax
  import opened Semantics
  import FormFacts

  /** `r` leaves the environment `env` as a suffix of its own and the output
      `out` as a prefix of its own. */
  predicate Grows(env: Env, out: seq<Value>, r: Outcome)
  {
    out <= r.out && |env| <= |r.env| && r.env[|r.env| - |env|..] == env
  }

  lemma GrowsRefl(env: Env, out: seq<Value>, res: Result<Value>)
    ensures Grows(env, out, Outcome(res, env, out))
  {
  }

  lemma GrowsTrans(env: Env, out: seq<Value>, r1: Outcome, r2: Outcome)
    requires Grows(env, out, r1) && Grows(r1.env, r1.out, r2)
    ensures Grows(env, out, r2)
  {
    var a, b := |r2.env| - |r1.env|, |r1.env| - |env|;
    assert r2.env[a + b..] == r2.env[a..][b..];
  }

  lemma {:induction false} EvalGrows(e: Exp, env: Env, out: seq<Value>, fuel: nat)
    ensures Grows(env, out, Eval(e, env, out, fuel))
    decreases fuel, 0, 0
  {
    if fuel > 0 && e.Compound? && e.items != [] {
      FormGrows(e.items, env, out, fuel - 1);
    }
  }

  lemma {:induction false} FormGrows(items: seq<Exp>, env: Env, out: seq<Value>, f: nat)
    requires items != []
    ensures Grows(env, out, EvalForm(items, env, out, f))
    decreases f, 3, 0
  {
    var kw := Keyword(items);
    if kw == "+" {
      SumGrows(items[1..], 0, 0, env, out, f);
    } else if kw == "*" {
      ProductGrows(items[1..], 0, 1, env, out, f);
    } else if kw == "-" || kw == "/" {
      ArithGrows(kw, items[1..], env, out, f);
    } else if kw == "=" || kw == "<" || kw == ">" {
      CompareGrows(kw, items, env, out, f);
    } else if kw == "and" {
      AndGrows(items[1..], 0, env, out, f);
    } else if kw == "or" {
      OrGrows(items[1..], 0, env, out, f);
    } else if kw == "if" {
      IfGrows(items, env, out, f);
    } else if kw == "let" {
      LetGrows(items, env, out, f);
    } else if kw == "define" {
      DefineGrows(items, env, out, f);
    } else if kw == "lambda" {
    } else if kw == "display" {
      DisplayGrows(items, env, out, f);
    } else if kw == "cons" {
      ConsGrows(items, env, out, f);
    } else if kw == "car" || kw == "cdr" {
      CarCdrGrows(kw, items, env, out, f);
    } else if kw == "list" {
      EachGrows(items[1..], 0, [], env, out, f);
    } else if kw == "null?" {
      NullPGrows(items, env, out, f);
    } else {
      ApplyGrows(items, env, out, f);
    }
  }

  lemma {:induction false} SumGrows(args: seq<Exp>, i: nat, total: int, env: Env, out: seq<Value>, f: nat)
    requires i <= |args|
    ensures Grows(env, out, EvalSum(args, i, total, env, out, f))
    decreases f, 1, |args| - i
  {
    if i < |args| {
      var R := EvalSum(args, i, total, env, out, f);
      var r := Eval(args[i], env, out, f);
      EvalGrows(args[i], env, out, f);
      if r.result.Ok? && Numeric(r.result.value).Some? {
        var t := total + Numeric(r.result.value).value;
        assert R == EvalSum(args, i + 1, t, r.env, r.out, f);
        SumGrows(args, i + 1, t, r.env, r.out, f);
        GrowsTrans(env, out, r, R);
      } else {
        assert R.env == r.env && R.out == r.out;
      }
    }
  }

  lemma {:induction false} ProductGrows(args: seq<Exp>, i: nat, total: int, env: Env, out: seq<Value>, f: nat)
    requires i <= |args|
    ensures Grows(env, out, EvalProduct(args, i, total, env, out, f))
    decreases f, 1, |args| - i
  {
    if i < |args| {
      var R := EvalProduct(args, i, total, env, out, f);
      var r := Eval(args[i], env, out, f);
      EvalGrows(args[i], env, out, f);
      if r.result.Ok? && Numeric(r.result.value).Some? {
        ProductGrows(args, i + 1, total * Numeric(r.result.value).value, r.env, r.out, f);
        GrowsTrans(env, out, r, R);
      } else {
        assert R.env == r.env && R.out == r.out;
      }
    }
  }

  lemma {:induction false} ArithGrows(op: string, args: seq<Exp>, env: Env, out: seq<Value>, f: nat)
    ensures Grows(env, out, EvalArith(op, args, env, out, f))
    decreases f, 2, 0
  {
    if |args| > 0 {
      EvalGrows(args[0], env, out, f);
      if |args| >= 2 && Eval(args[0], env, out, f).result.Ok? {
        ArithBothGrow(op, args, env, out, f);
      }
    }
  }

  /** `-` or `/` once the first operand has succeeded. */
  lemma {:induction false} ArithBothGrow(op: string, args: seq<Exp>, env: Env, out: seq<Value>, f: nat)
    requires |args| >= 2 && Eval(args[0], env, out, f).result.Ok?
    ensures Grows(env, out, EvalArith(op, args, env, out, f))
    decreases f, 1, 0
  {
    var R := EvalArith(op, args, env, out, f);
    var a := Eval(args[0], env, out, f);
    var b := Eval(args[1], a.env, a.out, f);
    EvalGrows(args[0], env, out, f);
    EvalGrows(args[1], a.env, a.out, f);
    GrowsTrans(env, out, a, b);
    if b.result.Fail? {
      assert R == b;
    } else {
      assert R.env == b.env && R.out == b.out;
    }
  }

  lemma {:induction false} CompareGrows(op: string, items: seq<Exp>, env: Env, out: seq<Value>, f: nat)
    ensures Grows(env, out, EvalCompare(op, items, env, out, f))
    decreases f, 2, 0
  {
    if |items| == 3 {
      EvalGrows(items[1], env, out, f);
      if Eval(items[1], env, out, f).result.Ok? {
        CompareBothGrow(op, items, env, out, f);
      }
    }
  }

  /** `=`, `<` or `>` once the first operand has succeeded. */
  lemma {:induction false} CompareBothGrow(op: string, items: seq<Exp>, env: Env, out: seq<Value>, f: nat)
    requires |items| == 3 && Eval(items[1], env, out, f).result.Ok?
    ensures Grows(env, out, EvalCompare(op, items, env, out, f))
    decreases f, 1, 0
  {
    var R := EvalCompare(op, items, env, out, f);
    var a := Eval(items[1], env, out, f);
    var b := Eval(items[2], a.env, a.out, f);
    EvalGrows(items[1], env, out, f);
    EvalGrows(items[2], a.env, a.out, f);
    GrowsTrans(env, out, a, b);
    if b.result.Fail? {
      assert R == b;
    } else {
      assert R.env == b.env && R.out == b.out;
    }
  }

  lemma {:induction false} AndGrows(args: seq<Exp>, i: nat, env: Env, out: seq<Value>, f: nat)
    requires i <= |args|
    ensures Grows(env, out, EvalAnd(args, i, env, out, f))
    decreases f, 1, |args| - i
  {
    if i < |args| {
      var R := EvalAnd(args, i, env, out, f);
      var r := Eval(args[i], env, out, f);
      EvalGrows(args[i], env, out, f);
      if r.result.Fail? {
        assert R == r;
      } else if Truthy(r.result.value) {
        assert R == EvalAnd(args, i + 1, r.env, r.out, f);
        AndGrows(args, i + 1, r.env, r.out, f);
        GrowsTrans(env, out, r, R);
      } else {
        assert R == Outcome(Ok(Bool(false)), r.env, r.out);
      }
    }
  }

  lemma {:induction false} OrGrows(args: seq<Exp>, i: nat, env: Env, out: seq<Value>, f: nat)
    requires i <= |args|
    ensures Grows(env, out, EvalOr(args, i, env, out, f))
    decreases f, 1, |args| - i
  {
    if i < |args| {
      var R := EvalOr(args, i, env, out, f);
      var r := Eval(args[i], env, out, f);
      EvalGrows(args[i], env, out, f);
      if r.result.Fail? {
        assert R == r;
      } else if !Truthy(r.result.value) {
        assert R == EvalOr(args, i + 1, r.env, r.out, f);
        OrGrows(args, i + 1, r.env, r.out, f);
        GrowsTrans(env, out, r, R);
      } else {
        assert R == Outcome(Ok(Bool(true)), r.env, r.out);
      }
    }
  }

  lemma {:induction false} IfGrows(items: seq<Exp>, env: Env, out: seq<Value>, f: nat)
    ensures Grows(env, out, EvalIf(items, env, out, f))
    decreases f, 2, 0
  {
    if |items| == 4 {
      var p := Eval(items[1], env, out, f);
      EvalGrows(items[1], env, out, f);
      if p.result.Ok? {
        var branch := if Truthy(p.result.value) then items[2] else items[3];
        EvalGrows(branch, p.env, p.out, f);
        GrowsTrans(env, out, p, Eval(branch, p.env, p.out, f));
      }
    }
  }

  lemma {:induction false} LetGrows(items: seq<Exp>, env: Env, out: seq<Value>, f: nat)
    ensures Grows(env, out, EvalLet(items, env, out, f))
    decreases f, 2, 0
  {
    if |items| == 3 && Iterate(items[1]).Ok? {
      LetFromGrows(Iterate(items[1]).value, 0, [], items[2], env, out, f);
    }
  }

  lemma {:induction false} LetFromGrows(pairs: seq<Exp>, i: nat, acc: Env, body: Exp, env: Env, out: seq<Value>, f: nat)
    requires i <= |pairs|
    ensures Grows(env, out, LetFrom(pairs, i, acc, body, env, out, f))
    decreases f, 1, |pairs| - i
  {
    var R := LetFrom(pairs, i, acc, body, env, out, f);
    if i == |pairs| {
      if i == 0 {
        EvalGrows(body, env, out, f);
      } else {
        EvalGrows(body, acc, out, f);
        assert R.env == env && R.out == Eval(body, acc, out, f).out;
      }
    } else if PairParts(pairs[i]).Fail? {
      assert R == Outcome(Fail(PairParts(pairs[i]).error), env, out);
    } else {
      LetPairGrows(pairs, i, acc, body, env, out, f);
    }
  }

  /** One well-formed pair of a `let`. */
  lemma {:induction false} LetPairGrows(pairs: seq<Exp>, i: nat, acc: Env, body: Exp, env: Env, out: seq<Value>, f: nat)
    requires i < |pairs| && PairParts(pairs[i]).Ok?
    ensures Grows(env, out, LetFrom(pairs, i, acc, body, env, out, f))
    decreases f, 1, |pairs| - i, 0
  {
    var R := LetFrom(pairs, i, acc, body, env, out, f);
    var nv := PairParts(pairs[i]).value;
    var r := Eval(nv.1, env, out, f);
    EvalGrows(nv.1, env, out, f);
    LetPairStep(pairs, i, acc, body, env, out, f);
    if r.result.Ok? {
      var next := [Binding(nv.0, r.result.value)] + (if i == 0 then r.env else acc);
      LetFromGrows(pairs, i + 1, next, body, r.env, r.out, f);
      GrowsTrans(env, out, r, R);
    }
  }

  /** One well-formed pair of a `let`, unfolded: its value expression runs
      in the caller's environment, and a failure ends the `let`. */
  lemma LetPairStep(pairs: seq<Exp>, i: nat, acc: Env, body: Exp, env: Env, out: seq<Value>, f: nat)
    requires i < |pairs| && PairParts(pairs[i]).Ok?
    ensures var nv := PairParts(pairs[i]).value;
            var r := Eval(nv.1, env, out, f);
            LetFrom(pairs, i, acc, body, env, out, f)
            == if r.result.Fail? then r
               else LetFrom(pairs, i + 1, [Binding(nv.0, r.result.value)] + (if i == 0 then r.env else acc), body, r.env, r.out, f)
  {
  }

  lemma {:induction false} DefineGrows(items: seq<Exp>, env: Env, out: seq<Value>, f: nat)
    ensures Grows(env, out, EvalDefine(items, env, out, f))
    decreases f, 2, 0
  {
    if |items| == 3 {
      var r := Eval(items[2], env, out, f);
      EvalGrows(items[2], env, out, f);
      if r.result.Ok? {
        var after := [Binding(items[1], r.result.value)] + r.env;
        assert after[1..] == r.env;
        GrowsTrans(env, out, r, Outcome(Ok(Nothing), after, r.out));
      }
    }
  }

  lemma {:induction false} DisplayGrows(items: seq<Exp>, env: Env, out: seq<Value>, f: nat)
    ensures Grows(env, out, EvalDisplay(items, env, out, f))
    decreases f, 2, 0
  {
    if |items| >= 2 {
      var r := Eval(items[1], env, out, f);
      EvalGrows(items[1], env, out, f);
      if r.result.Ok? {
        GrowsTrans(env, out, r, Outcome(Ok(Nothing), r.env, r.out + [r.result.value]));
      }
    }
  }

  lemma {:induction false} ConsGrows(items: seq<Exp>, env: Env, out: seq<Value>, f: nat)
    ensures Grows(env, out, EvalCons(items, env, out, f))
    decreases f, 2, 0
  {
    if |items| == 3 {
      EvalGrows(items[1], env, out, f);
      if Eval(items[1], env, out, f).result.Ok? {
        ConsBothGrow(items, env, out, f);
      }
    }
  }

  /** `cons` once its first operand has succeeded. */
  lemma {:induction false} ConsBothGrow(items: seq<Exp>, env: Env, out: seq<Value>, f: nat)
    requires |items| == 3 && Eval(items[1], env, out, f).result.Ok?
    ensures Grows(env, out, EvalCons(items, env, out, f))
    decreases f, 1, 0
  {
    var R := EvalCons(items, env, out, f);
    var a := Eval(items[1], env, out, f);
    var l := Eval(items[2], a.env, a.out, f);
    EvalGrows(items[1], env, out, f);
    EvalGrows(items[2], a.env, a.out, f);
    GrowsTrans(env, out, a, l);
    if l.result.Fail? {
      assert R == l;
    } else {
      assert R.env == l.env && R.out == l.out;
    }
  }

  lemma {:induction false} CarCdrGrows(op: string, items: seq<Exp>, env: Env, out: seq<Value>, f: nat)
    ensures Grows(env, out, EvalCarCdr(op, items, env, out, f))
    decreases f, 2, 0
  {
    if |items| == 2 {
      EvalGrows(items[1], env, out, f);
    }
  }

  lemma {:induction false} EachGrows(args: seq<Exp>, i: nat, acc: seq<Value>, env: Env, out: seq<Value>, f: nat)
    requires i <= |args|
    ensures Grows(env, out, EvalEach(args, i, acc, env, out, f))
    decreases f, 1, |args| - i
  {
    if i < |args| {
      var r := Eval(args[i], env, out, f);
      EvalGrows(args[i], env, out, f);
      if r.result.Ok? {
        EachGrows(args, i + 1, acc + [r.result.value], r.env, r.out, f);
        GrowsTrans(env, out, r, EvalEach(args, i + 1, acc + [r.result.value], r.env, r.out, f));
      }
    }
  }

  lemma {:induction false} NullPGrows(items: seq<Exp>, env: Env, out: seq<Value>, f: nat)
    ensures Grows(env, out, EvalNullP(items, env, out, f))
    decreases f, 2, 0
  {
    if |items| >= 2 {
      EvalGrows(items[1], env, out, f);
    }
  }

  lemma {:induction false} ApplyGrows(items: seq<Exp>, env: Env, out: seq<Value>, f: nat)
    requires items != []
    ensures Grows(env, out, EvalApply(items, env, out, f))
    decreases f, 2, 0
  {
    var h := Eval(items[0], env, out, f);
    EvalGrows(items[0], env, out, f);
    if h.result.Ok? {
      var a := EvalEach(items[1..], 0, [], h.env, h.out, f);
      EachGrows(items[1..], 0, [], h.env, h.out, f);
      GrowsTrans(env, out, h, a);
      if a.result.Ok? {
        var c := h.result.value;
        if c.Closure? && |c.fn| == 3 && Iterate(c.fn[1]).Ok? {
          var callEnv := CallEnv(items[0], c, Iterate(c.fn[1]).value, a.result.value.items);
          var r := Eval(c.fn[2], callEnv, a.out, f);
          EvalGrows(c.fn[2], callEnv, a.out, f);
          GrowsTrans(env, out, a, Outcome(r.result, a.env, r.out));
        }
      }
    }
  }

  lemma {:induction false} RunFromGrows(program: seq<Exp>, i: nat, env: Env, out: seq<Value>, fuel: nat)
    requires i <= |program|
    ensures Grows(env, out, RunFrom(program, i, env, out, fuel))
    decreases |program| - i
  {
    if i < |program| {
      var r := Eval(program[i], env, out, fuel);
      EvalGrows(program[i], env, out, fuel);
      if r.result.Ok? {
        RunFromGrows(program, i + 1, r.env, r.out, fuel);
        GrowsTrans(env, out, r, RunFrom(program, i + 1, r.env, r.out, fuel));
      }
    }
  }

  /** Output written by a form is never taken back: what a failing program
      wrote before it failed is still in the output. */
  lemma OutputIsNeverRetracted(p: seq<Exp>, q: seq<Exp>, fuel: nat)
    ensures Run(p, fuel).out <= Run(p + q, fuel).out
  {
    FormFacts.RunConcat(p, q, fuel);
    var r := Run(p, fuel);
    if r.result.Ok? {
      RunFromGrows(q, 0, r.env, r.out, fuel);
    }
  }
}
