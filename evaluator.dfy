/** `eval_in_env` and `eval_loop` as the source runs them: loops that update
    running totals, environments that are mutable lists (`define` inserts at
    the front of the list it is given), and printed output. Every method is
    proved to compute what the functions of module Semantics specify. */
module Evaluator {
  import opened Syntax
  import opened Semantics

  /** A Python list of (name, value) pairs. */
  class EnvList {
    var bindings: Env

    constructor (bindings: Env)
      ensures this.bindings == bindings
    {
      this.bindings := bindings;
    }

    /** `env.insert(0, b)`. */
    method InsertFront(b: Binding)
      modifies this
      ensures bindings == [b] + old(bindings)
    {
      bindings := [b] + bindings;
    }
  }

  class Interpreter {
    /** The values printed by `display`, in order. */
    var out: seq<Value>

    constructor ()
      ensures out == []
    {
      out := [];
    }

    /** `eval_in_env(e, env)`. */
    method EvalInEnv(e: Exp, env: EnvList, fuel: nat) returns (r: Result<Value>)
      modifies this, env
      ensures Outcome(r, env.bindings, out) == Eval(e, old(env.bindings), old(out), fuel)
      decreases fuel, 0, 0
    {
      if fuel == 0 {
        return Fail(OutOfFuel);
      }
      match e
      case Symbol(s) =>
        if s == "null" {
          r := Ok(List([]));
        } else {
          r := Lookup(s, env.bindings);
        }
      case Number(n) =>
        r := Ok(Int(n));
      case Boolean(b) =>
        r := Ok(Bool(b));
      case Compound(items) =>
        if items == [] {
          r := Fail(BadIndex);
        } else {
          r := EvalFormIn(items, env, fuel - 1);
        }
    }

    method EvalFormIn(items: seq<Exp>, env: EnvList, f: nat) returns (r: Result<Value>)
      requires items != []
      modifies this, env
      ensures Outcome(r, env.bindings, out) == EvalForm(items, old(env.bindings), old(out), f)
      decreases f, 3, 0
    {
      var kw := Keyword(items);
      if kw == "+" {
        r := SumIn(items[1..], env, f);
      } else if kw == "*" {
        r := ProductIn(items[1..], env, f);
      } else if kw == "-" || kw == "/" {
        r := ArithIn(kw, items[1..], env, f);
      } else if kw == "=" || kw == "<" || kw == ">" {
        r := CompareIn(kw, items, env, f);
      } else if kw == "and" {
        r := AndIn(items[1..], env, f);
      } else if kw == "or" {
        r := OrIn(items[1..], env, f);
      } else if kw == "if" {
        r := IfIn(items, env, f);
      } else if kw == "let" {
        r := LetIn(items, env, f);
      } else if kw == "define" {
        r := DefineIn(items, env, f);
      } else if kw == "lambda" {
        r := Ok(Closure(items, env.bindings));
      } else if kw == "display" {
        r := DisplayIn(items, env, f);
      } else if kw == "cons" {
        r := ConsIn(items, env, f);
      } else if kw == "car" || kw == "cdr" {
        r := CarCdrIn(kw, items, env, f);
      } else if kw == "list" {
        r := EachIn(items[1..], env, f);
      } else if kw == "null?" {
        r := NullPIn(items, env, f);
      } else {
        r := ApplyIn(items, env, f);
      }
    }

    /** The `+` loop: `total += eval_in_env(p, env)` for every operand. */
    method SumIn(args: seq<Exp>, env: EnvList, f: nat) returns (r: Result<Value>)
      modifies this, env
      ensures Outcome(r, env.bindings, out) == EvalSum(args, 0, 0, old(env.bindings), old(out), f)
      decreases f, 1, 0
    {
      var total := 0;
      var i := 0;
      while i < |args|
        invariant 0 <= i <= |args|
        invariant EvalSum(args, i, total, env.bindings, out, f) == EvalSum(args, 0, 0, old(env.bindings), old(out), f)
      {
        var v := EvalInEnv(args[i], env, f);
        if v.Fail? {
          return v;
        }
        if Numeric(v.value).None? {
          return Fail(TypeMismatch);
        }
        total := total + Numeric(v.value).value;
        i := i + 1;
      }
      return Ok(Int(total));
    }

    /** The `*` loop: `total *= eval_in_env(p, env)` for every operand. */
    method ProductIn(args: seq<Exp>, env: EnvList, f: nat) returns (r: Result<Value>)
      modifies this, env
      ensures Outcome(r, env.bindings, out) == EvalProduct(args, 0, 1, old(env.bindings), old(out), f)
      decreases f, 1, 0
    {
      var total := 1;
      var i := 0;
      while i < |args|
        invariant 0 <= i <= |args|
        invariant EvalProduct(args, i, total, env.bindings, out, f) == EvalProduct(args, 0, 1, old(env.bindings), old(out), f)
      {
        var v := EvalInEnv(args[i], env, f);
        if v.Fail? {
          return v;
        }
        if Numeric(v.value).None? {
          return Fail(TypeMismatch);
        }
        total := total * Numeric(v.value).value;
        i := i + 1;
      }
      return Ok(Int(total));
    }

    /** `-` and `/`: the first two operands, then the host operator on their
        values (`Arith`); further operands are never looked at. */
    method ArithIn(op: string, args: seq<Exp>, env: EnvList, f: nat) returns (r: Result<Value>)
      modifies this, env
      ensures Outcome(r, env.bindings, out) == EvalArith(op, args, old(env.bindings), old(out), f)
      decreases f, 2, 0
    {
      if |args| == 0 {
        return Fail(BadIndex);
      }
      var a := EvalInEnv(args[0], env, f);
      if a.Fail? {
        return a;
      }
      if |args| < 2 {
        return Fail(BadIndex);
      }
      var b := EvalInEnv(args[1], env, f);
      if b.Fail? {
        return b;
      }
      r := Arith(op, a.value, b.value);
    }

    /** `=`, `<`, `>`: the form must have exactly two operands. */
    method CompareIn(op: string, items: seq<Exp>, env: EnvList, f: nat) returns (r: Result<Value>)
      modifies this, env
      ensures Outcome(r, env.bindings, out) == EvalCompare(op, items, old(env.bindings), old(out), f)
      decreases f, 2, 0
    {
      if |items| != 3 {
        return Fail(BadUnpack);
      }
      var a := EvalInEnv(items[1], env, f);
      if a.Fail? {
        return a;
      }
      var b := EvalInEnv(items[2], env, f);
      if b.Fail? {
        return b;
      }
      r := Compare(op, a.value, b.value);
    }

    /** The `and` loop: stops at the first operand that is not truthy. */
    method AndIn(args: seq<Exp>, env: EnvList, f: nat) returns (r: Result<Value>)
      modifies this, env
      ensures Outcome(r, env.bindings, out) == EvalAnd(args, 0, old(env.bindings), old(out), f)
      decreases f, 1, 0
    {
      var i := 0;
      while i < |args|
        invariant 0 <= i <= |args|
        invariant EvalAnd(args, i, env.bindings, out, f) == EvalAnd(args, 0, old(env.bindings), old(out), f)
      {
        var v := EvalInEnv(args[i], env, f);
        if v.Fail? {
          return v;
        }
        if !Truthy(v.value) {
          return Ok(Bool(false));
        }
        i := i + 1;
      }
      return Ok(Bool(true));
    }

    /** The `or` loop: stops at the first truthy operand. */
    method OrIn(args: seq<Exp>, env: EnvList, f: nat) returns (r: Result<Value>)
      modifies this, env
      ensures Outcome(r, env.bindings, out) == EvalOr(args, 0, old(env.bindings), old(out), f)
      decreases f, 1, 0
    {
      var i := 0;
      while i < |args|
        invariant 0 <= i <= |args|
        invariant EvalOr(args, i, env.bindings, out, f) == EvalOr(args, 0, old(env.bindings), old(out), f)
      {
        var v := EvalInEnv(args[i], env, f);
        if v.Fail? {
          return v;
        }
        if Truthy(v.value) {
          return Ok(Bool(true));
        }
        i := i + 1;
      }
      return Ok(Bool(false));
    }

    method IfIn(items: seq<Exp>, env: EnvList, f: nat) returns (r: Result<Value>)
      modifies this, env
      ensures Outcome(r, env.bindings, out) == EvalIf(items, old(env.bindings), old(out), f)
      decreases f, 2, 0
    {
      if |items| != 4 {
        return Fail(BadUnpack);
      }
      var p := EvalInEnv(items[1], env, f);
      if p.Fail? {
        return p;
      }
      if Truthy(p.value) {
        r := EvalInEnv(items[2], env, f);
      } else {
        r := EvalInEnv(items[3], env, f);
      }
    }

    /** The `let` loop. `newEnv` starts as the caller's list itself and is
        replaced by a fresh list at every binding. */
    method LetIn(items: seq<Exp>, env: EnvList, f: nat) returns (r: Result<Value>)
      modifies this, env
      ensures Outcome(r, env.bindings, out) == EvalLet(items, old(env.bindings), old(out), f)
      decreases f, 2, 0
    {
      if |items| != 3 {
        return Fail(BadUnpack);
      }
      var it := Iterate(items[1]);
      if it.Fail? {
        return Fail(it.error);
      }
      var pairs, body := it.value, items[2];
      ghost var spec := LetFrom(pairs, 0, [], body, old(env.bindings), old(out), f);
      var newEnv := env;
      var i := 0;
      while i < |pairs|
        invariant 0 <= i <= |pairs|
        invariant i == 0 ==> newEnv == env && env.bindings == old(env.bindings) && out == old(out)
        invariant i > 0 ==> fresh(newEnv) && LetFrom(pairs, i, newEnv.bindings, body, env.bindings, out, f) == spec
      {
        var p := PairParts(pairs[i]);
        if p.Fail? {
          return Fail(p.error);
        }
        var name, valueExp := p.value.0, p.value.1;
        var v := EvalInEnv(valueExp, env, f);
        if v.Fail? {
          return v;
        }
        newEnv := new EnvList([Binding(name, v.value)] + newEnv.bindings);
        i := i + 1;
      }
      r := EvalInEnv(body, newEnv, f);
    }

    /** `define`: evaluates the value, then inserts the binding at the front
        of the caller's list. */
    method DefineIn(items: seq<Exp>, env: EnvList, f: nat) returns (r: Result<Value>)
      modifies this, env
      ensures Outcome(r, env.bindings, out) == EvalDefine(items, old(env.bindings), old(out), f)
      decreases f, 2, 0
    {
      if |items| != 3 {
        return Fail(BadUnpack);
      }
      var v := EvalInEnv(items[2], env, f);
      if v.Fail? {
        return v;
      }
      env.InsertFront(Binding(items[1], v.value));
      r := Ok(Nothing);
    }

    /** `display`: the printed value is appended to the output. */
    method DisplayIn(items: seq<Exp>, env: EnvList, f: nat) returns (r: Result<Value>)
      modifies this, env
      ensures Outcome(r, env.bindings, out) == EvalDisplay(items, old(env.bindings), old(out), f)
      decreases f, 2, 0
    {
      if |items| < 2 {
        return Fail(BadIndex);
      }
      var v := EvalInEnv(items[1], env, f);
      if v.Fail? {
        return v;
      }
      out := out + [v.value];
      r := Ok(Nothing);
    }

    method ConsIn(items: seq<Exp>, env: EnvList, f: nat) returns (r: Result<Value>)
      modifies this, env
      ensures Outcome(r, env.bindings, out) == EvalCons(items, old(env.bindings), old(out), f)
      decreases f, 2, 0
    {
      if |items| != 3 {
        return Fail(BadUnpack);
      }
      var a := EvalInEnv(items[1], env, f);
      if a.Fail? {
        return a;
      }
      var l := EvalInEnv(items[2], env, f);
      if l.Fail? {
        return l;
      }
      if !l.value.List? {
        return Fail(TypeMismatch);
      }
      r := Ok(List([a.value] + l.value.items));
    }

    method CarCdrIn(op: string, items: seq<Exp>, env: EnvList, f: nat) returns (r: Result<Value>)
      modifies this, env
      ensures Outcome(r, env.bindings, out) == EvalCarCdr(op, items, old(env.bindings), old(out), f)
      decreases f, 2, 0
    {
      if |items| != 2 {
        return Fail(BadUnpack);
      }
      var v := EvalInEnv(items[1], env, f);
      if v.Fail? {
        return v;
      }
      if !v.value.List? {
        return Fail(TypeMismatch);
      }
      var s := v.value.items;
      if op == "car" {
        if s == [] {
          r := Fail(BadIndex);
        } else {
          r := Ok(s[0]);
        }
      } else {
        r := Ok(List(if s == [] then [] else s[1..]));
      }
    }

    /** `[eval_in_env(a, env) for a in args]`. */
    method EachIn(args: seq<Exp>, env: EnvList, f: nat) returns (r: Result<Value>)
      modifies this, env
      ensures Outcome(r, env.bindings, out) == EvalEach(args, 0, [], old(env.bindings), old(out), f)
      decreases f, 1, 0
    {
      var values := [];
      var i := 0;
      while i < |args|
        invariant 0 <= i <= |args|
        invariant EvalEach(args, i, values, env.bindings, out, f) == EvalEach(args, 0, [], old(env.bindings), old(out), f)
      {
        var v := EvalInEnv(args[i], env, f);
        if v.Fail? {
          return v;
        }
        values := values + [v.value];
        i := i + 1;
      }
      return Ok(List(values));
    }

    method NullPIn(items: seq<Exp>, env: EnvList, f: nat) returns (r: Result<Value>)
      modifies this, env
      ensures Outcome(r, env.bindings, out) == EvalNullP(items, old(env.bindings), old(out), f)
      decreases f, 2, 0
    {
      if |items| < 2 {
        return Fail(BadIndex);
      }
      var v := EvalInEnv(items[1], env, f);
      if v.Fail? {
        return v;
      }
      r := Ok(Bool(v.value == List([])));
    }

    /** Application: the body runs in a fresh list, so nothing it defines
        reaches the caller's environment. */
    method ApplyIn(items: seq<Exp>, env: EnvList, f: nat) returns (r: Result<Value>)
      requires items != []
      modifies this, env
      ensures Outcome(r, env.bindings, out) == EvalApply(items, old(env.bindings), old(out), f)
      decreases f, 2, 0
    {
      var c := EvalInEnv(items[0], env, f);
      if c.Fail? {
        return c;
      }
      var args := EachIn(items[1..], env, f);
      if args.Fail? {
        return args;
      }
      var closure := c.value;
      if !closure.Closure? {
        return Fail(NotCallable);
      }
      if |closure.fn| != 3 {
        return Fail(BadUnpack);
      }
      var params := Iterate(closure.fn[1]);
      if params.Fail? {
        return Fail(params.error);
      }
      var callEnv := new EnvList(CallEnv(items[0], closure, params.value, args.value.items));
      r := EvalInEnv(closure.fn[2], callEnv, f);
    }

    /** `eval_loop(program)`: one environment, starting empty, threaded
        through every top-level form; a failure ends the run. */
    method EvalLoop(program: seq<Exp>, fuel: nat) returns (r: Result<Value>)
      modifies this
      ensures r == RunFrom(program, 0, [], old(out), fuel).result
      ensures out == RunFrom(program, 0, [], old(out), fuel).out
    {
      var env := new EnvList([]);
      var i := 0;
      while i < |program|
        invariant 0 <= i <= |program|
        invariant RunFrom(program, i, env.bindings, out, fuel) == RunFrom(program, 0, [], old(out), fuel)
      {
        var v := EvalInEnv(program[i], env, fuel);
        if v.Fail? {
          return v;
        }
        i := i + 1;
      }
      return Ok(Nothing);
    }
  }
}
