/** The meaning of `eval_in_env`, `lookup` and `eval_loop` of lis.py, as
    functions. Evaluation threads the caller's environment (which `define`
    extends in place) and the output written by `display`; a fuel bound
    stands for the host's finite stack. */
module Semantics {
  import opened Syntax

  datatype Value =
    | Int(i: int)
    | Bool(b: bool)
    | List(items: seq<Value>)
      /** `['closure', lambdaExp, envCopy]`: the whole lambda form and a
          snapshot of the environment it was evaluated in. */
    | Closure(fn: seq<Exp>, captured: seq<Binding>)
      /** Python's None: what `define` and `display` give back. */
    | Nothing

  /** One (name, value) pair. The name is the unevaluated expression the
      source stored, so it may be something other than a symbol. */
  datatype Binding = Binding(name: Exp, value: Value)

  /** Most recent binding first; the first match shadows the others. */
  type Env = seq<Binding>

  /** The failures the source raises (as host exceptions), and running out of
      fuel. */
  datatype Error =
    | UnknownVariable(name: string)
    | BadUnpack       // a form destructured into the wrong number of parts
    | BadIndex        // a missing operand, `car` of an empty list, an empty form
    | TypeMismatch    // an operator applied to values of the wrong kind
    | DivisionByZero
    | NotCallable     // the head of an application is not a closure
    | OutOfFuel

  datatype Result<T> = Ok(value: T) | Fail(error: Error)

  /** What one evaluation gives: its result, the caller's environment after
      it, and the output written so far. */
  datatype Outcome = Outcome(result: Result<Value>, env: Env, out: seq<Value>)

  /** Python truthiness of a value (a closure is a non-empty list). */
  predicate Truthy(v: Value)
  {
    match v
    case Int(i) => i != 0
    case Bool(b) => b
    case List(s) => s != []
    case Closure(_, _) => true
    case Nothing => false
  }

  /** The integer a value stands for in Python arithmetic and ordering:
      `bool` is a subtype of `int`, with `True` as 1 and `False` as 0. */
  function Numeric(v: Value): (n: Option<int>)
    ensures n.Some? <==> v.Int? || v.Bool?
  {
    match v
    case Int(i) => Some(i)
    case Bool(b) => Some(if b then 1 else 0)
    case _ => None
  }

  /** Python's `==` on values: numbers and booleans compare by their
      numeric value, lists element by element, `None` only with itself.
      Closures are compared structurally. */
  predicate PyEq(x: Value, y: Value)
    decreases x
  {
    match x
    case Int(_) => Numeric(y).Some? && Numeric(y) == Numeric(x)
    case Bool(_) => Numeric(y).Some? && Numeric(y) == Numeric(x)
    case List(s) => y.List? && |s| == |y.items| && forall k :: 0 <= k < |s| ==> PyEq(s[k], y.items[k])
    case Closure(_, _) => x == y
    case Nothing => y.Nothing?
  }

  /** `k` is the position of the first binding of `name` in `env`. */
  ghost predicate FirstBinding(name: string, env: Env, k: int)
  {
    0 <= k < |env| && env[k].name == Symbol(name) &&
    forall j :: 0 <= j < k ==> env[j].name != Symbol(name)
  }

  /** `lookup`: the value of the first binding whose name matches, or the
      unknown-variable failure when none does. */
  function Lookup(name: string, env: Env): (r: Result<Value>)
    ensures r.Ok? <==> exists k :: 0 <= k < |env| && env[k].name == Symbol(name)
    ensures r.Ok? ==> exists k :: FirstBinding(name, env, k) && r.value == env[k].value
    ensures r.Fail? ==> r.error == UnknownVariable(name)
  {
    if env == [] then Fail(UnknownVariable(name))
    else if env[0].name == Symbol(name) then
      assert FirstBinding(name, env, 0);
      Ok(env[0].value)
    else
      var r := Lookup(name, env[1..]);
      assert r.Ok? ==> exists k :: FirstBinding(name, env, k) && r.value == env[k].value by {
        if r.Ok? {
          var k :| FirstBinding(name, env[1..], k) && r.value == env[1..][k].value;
          assert FirstBinding(name, env, k + 1);
        }
      }
      assert r.Ok? <==> exists k :: 0 <= k < |env| && env[k].name == Symbol(name) by {
        assert forall k :: 1 <= k < |env| ==> env[k] == env[1..][k - 1];
      }
      r
  }

  /** Python iteration over an expression: the elements of a list, the
      characters of a string (each a one-character symbol). */
  function Iterate(e: Exp): (r: Result<seq<Exp>>)
  {
    match e
    case Compound(items) => Ok(items)
    case Symbol(s) => Ok(seq(|s|, k requires 0 <= k < |s| => Symbol([s[k]])))
    case _ => Fail(TypeMismatch)
  }

  /** `p[0], p[1]` for one pair of a `let`. */
  function PairParts(p: Exp): Result<(Exp, Exp)>
  {
    match p
    case Compound(items) => if |items| >= 2 then Ok((items[0], items[1])) else Fail(BadIndex)
    case Symbol(s) => if |s| >= 2 then Ok((Symbol([s[0]]), Symbol([s[1]]))) else Fail(BadIndex)
    case _ => Fail(TypeMismatch)
  }

  /** `zip`: pairs names with values, stopping at the shorter sequence. */
  function Zip(names: seq<Exp>, values: seq<Value>): (r: Env)
    ensures |r| == if |names| < |values| then |names| else |values|
    ensures forall k :: 0 <= k < |r| ==> r[k] == Binding(names[k], values[k])
  {
    if names == [] || values == [] then []
    else [Binding(names[0], values[0])] + Zip(names[1..], values[1..])
  }

  /** Python 2's `/` on integers: the quotient rounded toward minus infinity. */
  function FloorDiv(x: int, y: int): (q: int)
    requires y != 0
    ensures y * q <= x < y * q + y || y * q + y < x <= y * q
  {
    if y > 0 then x / y else (-x) / (-y)
  }

  /** The keyword at the head of a form, or "" when the head is not a symbol. */
  function Keyword(items: seq<Exp>): string
    requires items != []
  {
    if items[0].Symbol? then items[0].name else ""
  }

  /** `eval_in_env(e, env)`. Each evaluation spends one unit of fuel. */
  function Eval(e: Exp, env: Env, out: seq<Value>, fuel: nat): Outcome
    decreases fuel, 0, 0
  {
    if fuel == 0 then Outcome(Fail(OutOfFuel), env, out)
    else
      match e
      case Symbol(s) =>
        if s == "null" then Outcome(Ok(List([])), env, out)
        else Outcome(Lookup(s, env), env, out)
      case Number(n) => Outcome(Ok(Int(n)), env, out)
      case Boolean(b) => Outcome(Ok(Bool(b)), env, out)
      case Compound(items) =>
        if items == [] then Outcome(Fail(BadIndex), env, out)
        else EvalForm(items, env, out, fuel - 1)
  }

  /** The dispatch on the head of a non-empty form. */
  function EvalForm(items: seq<Exp>, env: Env, out: seq<Value>, f: nat): Outcome
    requires items != []
    decreases f, 3, 0
  {
    var kw := Keyword(items);
    if kw == "+" then EvalSum(items[1..], 0, 0, env, out, f)
    else if kw == "*" then EvalProduct(items[1..], 0, 1, env, out, f)
    else if kw == "-" || kw == "/" then EvalArith(kw, items[1..], env, out, f)
    else if kw == "=" || kw == "<" || kw == ">" then EvalCompare(kw, items, env, out, f)
    else if kw == "and" then EvalAnd(items[1..], 0, env, out, f)
    else if kw == "or" then EvalOr(items[1..], 0, env, out, f)
    else if kw == "if" then EvalIf(items, env, out, f)
    else if kw == "let" then EvalLet(items, env, out, f)
    else if kw == "define" then EvalDefine(items, env, out, f)
    else if kw == "lambda" then Outcome(Ok(Closure(items, env)), env, out)
    else if kw == "display" then EvalDisplay(items, env, out, f)
    else if kw == "cons" then EvalCons(items, env, out, f)
    else if kw == "car" || kw == "cdr" then EvalCarCdr(kw, items, env, out, f)
    else if kw == "list" then EvalEach(items[1..], 0, [], env, out, f)
    else if kw == "null?" then EvalNullP(items, env, out, f)
    else EvalApply(items, env, out, f)
  }

  /** `+` from operand i on, `total` holding the sum so far. */
  function EvalSum(args: seq<Exp>, i: nat, total: int, env: Env, out: seq<Value>, f: nat): Outcome
    requires i <= |args|
    decreases f, 1, |args| - i
  {
    if i == |args| then Outcome(Ok(Int(total)), env, out)
    else
      var r := Eval(args[i], env, out, f);
      if r.result.Fail? then r
      else if Numeric(r.result.value).None? then Outcome(Fail(TypeMismatch), r.env, r.out)
      else EvalSum(args, i + 1, total + Numeric(r.result.value).value, r.env, r.out, f)
  }

  /** `*` from operand i on, `total` holding the product so far. */
  function EvalProduct(args: seq<Exp>, i: nat, total: int, env: Env, out: seq<Value>, f: nat): Outcome
    requires i <= |args|
    decreases f, 1, |args| - i
  {
    if i == |args| then Outcome(Ok(Int(total)), env, out)
    else
      var r := Eval(args[i], env, out, f);
      if r.result.Fail? then r
      else if Numeric(r.result.value).None? then Outcome(Fail(TypeMismatch), r.env, r.out)
      else EvalProduct(args, i + 1, total * Numeric(r.result.value).value, r.env, r.out, f)
  }

  /** `-` and `/`: `params[0]` is read and evaluated before `params[1]` is
      read; any further operands are neither read nor evaluated. */
  function EvalArith(op: string, args: seq<Exp>, env: Env, out: seq<Value>, f: nat): Outcome
    decreases f, 2, 0
  {
    if |args| == 0 then Outcome(Fail(BadIndex), env, out)
    else
      var a := Eval(args[0], env, out, f);
      if a.result.Fail? then a
      else if |args| < 2 then Outcome(Fail(BadIndex), a.env, a.out)
      else
        var b := Eval(args[1], a.env, a.out, f);
        if b.result.Fail? then b
        else Outcome(Arith(op, a.result.value, b.result.value), b.env, b.out)
  }

  /** `-` (any `op` other than "/") or `/` applied to two operand values:
      numbers and booleans only, and no division by zero. */
  function Arith(op: string, x: Value, y: Value): Result<Value>
  {
    if Numeric(x).None? || Numeric(y).None? then Fail(TypeMismatch)
    else
      var m, n := Numeric(x).value, Numeric(y).value;
      if op == "-" then Ok(Int(m - n))
      else if n == 0 then Fail(DivisionByZero)
      else Ok(Int(FloorDiv(m, n)))
  }

  /** `=`, `<`, `>`: exactly two operands. */
  function EvalCompare(op: string, items: seq<Exp>, env: Env, out: seq<Value>, f: nat): Outcome
    decreases f, 2, 0
  {
    if |items| != 3 then Outcome(Fail(BadUnpack), env, out)
    else
      var a := Eval(items[1], env, out, f);
      if a.result.Fail? then a
      else
        var b := Eval(items[2], a.env, a.out, f);
        if b.result.Fail? then b
        else Outcome(Compare(op, a.result.value, b.result.value), b.env, b.out)
  }

  /** `=`, `<` or `>` (any other `op`) applied to two operand values. */
  function Compare(op: string, x: Value, y: Value): Result<Value>
  {
    if op == "=" then Ok(Bool(PyEq(x, y)))
    else if Numeric(x).None? || Numeric(y).None? then Fail(TypeMismatch)
    else if op == "<" then Ok(Bool(Numeric(x).value < Numeric(y).value))
    else Ok(Bool(Numeric(x).value > Numeric(y).value))
  }

  /** `and` from operand i on. */
  function EvalAnd(args: seq<Exp>, i: nat, env: Env, out: seq<Value>, f: nat): Outcome
    requires i <= |args|
    decreases f, 1, |args| - i
  {
    if i == |args| then Outcome(Ok(Bool(true)), env, out)
    else
      var r := Eval(args[i], env, out, f);
      if r.result.Fail? then r
      else if !Truthy(r.result.value) then Outcome(Ok(Bool(false)), r.env, r.out)
      else EvalAnd(args, i + 1, r.env, r.out, f)
  }

  /** `or` from operand i on. */
  function EvalOr(args: seq<Exp>, i: nat, env: Env, out: seq<Value>, f: nat): Outcome
    requires i <= |args|
    decreases f, 1, |args| - i
  {
    if i == |args| then Outcome(Ok(Bool(false)), env, out)
    else
      var r := Eval(args[i], env, out, f);
      if r.result.Fail? then r
      else if Truthy(r.result.value) then Outcome(Ok(Bool(true)), r.env, r.out)
      else EvalOr(args, i + 1, r.env, r.out, f)
  }

  function EvalIf(items: seq<Exp>, env: Env, out: seq<Value>, f: nat): Outcome
    decreases f, 2, 0
  {
    if |items| != 4 then Outcome(Fail(BadUnpack), env, out)
    else
      var p := Eval(items[1], env, out, f);
      if p.result.Fail? then p
      else if Truthy(p.result.value) then Eval(items[2], p.env, p.out, f)
      else Eval(items[3], p.env, p.out, f)
  }

  function EvalLet(items: seq<Exp>, env: Env, out: seq<Value>, f: nat): Outcome
    decreases f, 2, 0
  {
    if |items| != 3 then Outcome(Fail(BadUnpack), env, out)
    else
      match Iterate(items[1])
      case Fail(err) => Outcome(Fail(err), env, out)
      case Ok(pairs) => LetFrom(pairs, 0, [], items[2], env, out, f)
  }

  /** The loop of `let` from pair i on. Until the first pair is bound,
      `new_env` is the caller's list itself, so the first binding is
      prepended to the caller's environment as the first value expression
      left it; afterwards `acc` is a separate list. Every value expression is
      evaluated in the caller's environment. With no pairs at all the body
      runs in the caller's list itself. */
  function LetFrom(pairs: seq<Exp>, i: nat, acc: Env, body: Exp, env: Env, out: seq<Value>, f: nat): Outcome
    requires i <= |pairs|
    decreases f, 1, |pairs| - i
  {
    if i == |pairs| then
      if i == 0 then Eval(body, env, out, f)
      else
        var r := Eval(body, acc, out, f);
        Outcome(r.result, env, r.out)
    else
      match PairParts(pairs[i])
      case Fail(err) => Outcome(Fail(err), env, out)
      case Ok(nv) =>
        var r := Eval(nv.1, env, out, f);
        if r.result.Fail? then r
        else
          var base := if i == 0 then r.env else acc;
          LetFrom(pairs, i + 1, [Binding(nv.0, r.result.value)] + base, body, r.env, r.out, f)
  }

  function EvalDefine(items: seq<Exp>, env: Env, out: seq<Value>, f: nat): Outcome
    decreases f, 2, 0
  {
    if |items| != 3 then Outcome(Fail(BadUnpack), env, out)
    else
      var r := Eval(items[2], env, out, f);
      if r.result.Fail? then r
      else Outcome(Ok(Nothing), [Binding(items[1], r.result.value)] + r.env, r.out)
  }

  function EvalDisplay(items: seq<Exp>, env: Env, out: seq<Value>, f: nat): Outcome
    decreases f, 2, 0
  {
    if |items| < 2 then Outcome(Fail(BadIndex), env, out)
    else
      var r := Eval(items[1], env, out, f);
      if r.result.Fail? then r
      else Outcome(Ok(Nothing), r.env, r.out + [r.result.value])
  }

  function EvalCons(items: seq<Exp>, env: Env, out: seq<Value>, f: nat): Outcome
    decreases f, 2, 0
  {
    if |items| != 3 then Outcome(Fail(BadUnpack), env, out)
    else
      var a := Eval(items[1], env, out, f);
      if a.result.Fail? then a
      else
        var l := Eval(items[2], a.env, a.out, f);
        if l.result.Fail? then l
        else if !l.result.value.List? then Outcome(Fail(TypeMismatch), l.env, l.out)
        else Outcome(Ok(List([a.result.value] + l.result.value.items)), l.env, l.out)
  }

  /** `car` is `lst[0]`; `cdr` is `lst[1:]`, which is empty for an empty list. */
  function EvalCarCdr(op: string, items: seq<Exp>, env: Env, out: seq<Value>, f: nat): Outcome
    decreases f, 2, 0
  {
    if |items| != 2 then Outcome(Fail(BadUnpack), env, out)
    else
      var r := Eval(items[1], env, out, f);
      if r.result.Fail? then r
      else if !r.result.value.List? then Outcome(Fail(TypeMismatch), r.env, r.out)
      else
        var s := r.result.value.items;
        if op == "car" then
          if s == [] then Outcome(Fail(BadIndex), r.env, r.out)
          else Outcome(Ok(s[0]), r.env, r.out)
        else Outcome(Ok(List(if s == [] then [] else s[1..])), r.env, r.out)
  }

  /** Evaluates the expressions from i on, in order, into a list
      (`list`, and the arguments of a call). */
  function EvalEach(args: seq<Exp>, i: nat, acc: seq<Value>, env: Env, out: seq<Value>, f: nat): (r: Outcome)
    requires i <= |args|
    ensures r.result.Ok? ==> r.result.value.List?
    decreases f, 1, |args| - i
  {
    if i == |args| then Outcome(Ok(List(acc)), env, out)
    else
      var r := Eval(args[i], env, out, f);
      if r.result.Fail? then r
      else EvalEach(args, i + 1, acc + [r.result.value], r.env, r.out, f)
  }

  function EvalNullP(items: seq<Exp>, env: Env, out: seq<Value>, f: nat): Outcome
    decreases f, 2, 0
  {
    if |items| < 2 then Outcome(Fail(BadIndex), env, out)
    else
      var r := Eval(items[1], env, out, f);
      if r.result.Fail? then r
      else Outcome(Ok(Bool(r.result.value == List([]))), r.env, r.out)
  }

  /** The environment a call runs its body in: a binding of the head's name
      to the closure when the head is a symbol, then the parameters zipped
      with the arguments, then the captured environment. */
  function CallEnv(head: Exp, closure: Value, params: seq<Exp>, args: seq<Value>): Env
    requires closure.Closure?
  {
    (if head.Symbol? then [Binding(head, closure)] else []) + Zip(params, args) + closure.captured
  }

  /** Application: the head, then every argument, are evaluated in the
      caller's environment before the head's value is taken apart. */
  function EvalApply(items: seq<Exp>, env: Env, out: seq<Value>, f: nat): Outcome
    requires items != []
    decreases f, 2, 0
  {
    var h := Eval(items[0], env, out, f);
    if h.result.Fail? then h
    else
      var a := EvalEach(items[1..], 0, [], h.env, h.out, f);
      if a.result.Fail? then a
      else
        var c := h.result.value;
        if !c.Closure? then Outcome(Fail(NotCallable), a.env, a.out)
        else if |c.fn| != 3 then Outcome(Fail(BadUnpack), a.env, a.out)
        else
          match Iterate(c.fn[1])
          case Fail(err) => Outcome(Fail(err), a.env, a.out)
          case Ok(params) =>
            var r := Eval(c.fn[2], CallEnv(items[0], c, params, a.result.value.items), a.out, f);
            Outcome(r.result, a.env, r.out)
  }

  /** `eval_loop` from form i on: one environment threaded through every
      top-level form; the first failure ends the program. */
  function RunFrom(program: seq<Exp>, i: nat, env: Env, out: seq<Value>, fuel: nat): Outcome
    requires i <= |program|
    decreases |program| - i
  {
    if i == |program| then Outcome(Ok(Nothing), env, out)
    else
      var r := Eval(program[i], env, out, fuel);
      if r.result.Fail? then r
      else RunFrom(program, i + 1, r.env, r.out, fuel)
  }

  /** `eval_loop(program)`: starts from the empty environment. */
  function Run(program: seq<Exp>, fuel: nat): Outcome
  {
    RunFrom(program, 0, [], [], fuel)
  }
}
