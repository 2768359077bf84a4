/** A whole program: recursion works in lis.py although a closure captures
    the environment before its own `define`, because a call by name binds
    the name to the closure in the call's environment. */
module Programs {
  import opened Syntax
  import opened Semantics
  import opened OperatorFacts
  import opened FormFacts

  function Fact(k: nat): nat
  {
    if k == 0 then 1 else k * Fact(k - 1)
  }

  /** `(if (= n 0) 1 (* n (fact (- n 1))))` */
  function FactBody(): Exp
  {
    Compound([Symbol("if"), Compound([Symbol("="), Symbol("n"), Number(0)]), Number(1),
              Compound([Symbol("*"), Symbol("n"),
                        Compound([Symbol("fact"), Compound([Symbol("-"), Symbol("n"), Number(1)])])])])
  }

  /** `(lambda (n) ...)` */
  function FactLambda(): seq<Exp>
  {
    [Symbol("lambda"), Compound([Symbol("n")]), FactBody()]
  }

  /** The environment a call `(fact k)` runs its body in. */
  function FactEnv(k: int, cap: Env): Env
  {
    [Binding(Symbol("fact"), Closure(FactLambda(), cap)), Binding(Symbol("n"), Int(k))] + cap
  }

  /** `(fact a)` where `a` evaluates to j: the body runs in `FactEnv(j, cap)`
      and the caller's state is left as it was. */
  lemma FactCall(a: Exp, j: int, m: int, e: Env, cap: Env, out: seq<Value>, fuel: nat)
    requires fuel >= 2 && Lookup("fact", e) == Ok(Closure(FactLambda(), cap))
    requires Eval(a, e, out, fuel - 1) == Outcome(Ok(Int(j)), e, out)
    requires Eval(FactBody(), FactEnv(j, cap), out, fuel - 1) == Outcome(Ok(Int(m)), FactEnv(j, cap), out)
    ensures Eval(Compound([Symbol("fact"), a]), e, out, fuel) == Outcome(Ok(Int(m)), e, out)
  {
    var clo := Closure(FactLambda(), cap);
    assert PureValues([a], [Int(j)], e, out, fuel - 1);
    assert Iterate(FactLambda()[1]) == Ok([Symbol("n")]);
    assert [Binding(Symbol("fact"), clo)] + Zip([Symbol("n")], [Int(j)]) + cap == FactEnv(j, cap);
    CallByName("fact", [a], [Int(j)], FactLambda(), cap, [Symbol("n")], e, out, fuel);
    assert [Symbol("fact")] + [a] == [Symbol("fact"), a];
  }

  /** In `FactEnv(k, cap)`, `n` is k and `(= n 0)` tests k against 0. */
  lemma FactTest(k: int, cap: Env, out: seq<Value>, fuel: nat)
    requires fuel >= 2
    ensures Eval(Symbol("n"), FactEnv(k, cap), out, fuel - 1) == Outcome(Ok(Int(k)), FactEnv(k, cap), out)
    ensures Eval(Compound([Symbol("="), Symbol("n"), Number(0)]), FactEnv(k, cap), out, fuel)
         == Outcome(Ok(Bool(k == 0)), FactEnv(k, cap), out)
  {
    var e := FactEnv(k, cap);
    assert Lookup("n", e[1..]) == Ok(Int(k));
    ComparisonValues("=", Symbol("n"), Number(0), Int(k), Int(0), e, out, fuel);
  }

  /** `(fact (- n 1))` for `n` = k: the recursive call's result. */
  lemma FactRecursion(k: int, m: int, cap: Env, out: seq<Value>, fuel: nat)
    requires fuel >= 3
    requires Eval(FactBody(), FactEnv(k - 1, cap), out, fuel - 1) == Outcome(Ok(Int(m)), FactEnv(k - 1, cap), out)
    ensures Eval(Compound([Symbol("fact"), Compound([Symbol("-"), Symbol("n"), Number(1)])]), FactEnv(k, cap), out, fuel)
         == Outcome(Ok(Int(m)), FactEnv(k, cap), out)
  {
    var e := FactEnv(k, cap);
    var n := Symbol("n");
    var dec := Compound([Symbol("-"), n, Number(1)]);
    FactTest(k, cap, out, fuel - 1);
    MinusOperands(n, Number(1), k, 1, e, out, fuel - 1);
    FactCall(dec, k - 1, m, e, cap, out, fuel);
  }

  /** `(* n (fact (- n 1)))` for `n` = k: k times whatever the recursive call
      gives. */
  lemma FactStep(k: int, m: int, cap: Env, out: seq<Value>, fuel: nat)
    requires fuel >= 5
    requires Eval(FactBody(), FactEnv(k - 1, cap), out, fuel - 3) == Outcome(Ok(Int(m)), FactEnv(k - 1, cap), out)
    ensures Eval(Compound([Symbol("*"), Symbol("n"), Compound([Symbol("fact"), Compound([Symbol("-"), Symbol("n"), Number(1)])])]),
                 FactEnv(k, cap), out, fuel - 1)
         == Outcome(Ok(Int(k * m)), FactEnv(k, cap), out)
  {
    var e := FactEnv(k, cap);
    var n := Symbol("n");
    var dec := Compound([Symbol("-"), n, Number(1)]);
    var call := Compound([Symbol("fact"), dec]);
    FactRecursion(k, m, cap, out, fuel - 2);
    assert Eval(n, e, out, fuel - 2) == Outcome(Ok(Int(k)), e, out) by {
      FactTest(k, cap, out, fuel - 1);
    }
    assert PureValues([n, call], Ints([k, m]), e, out, fuel - 2);
    IntsAreNumeric([k, m]);
    ProductOfOperands([n, call], Ints([k, m]), [k, m], e, out, fuel - 1);
    assert [Symbol("*")] + [n, call] == [Symbol("*"), n, call];
    ProductOfTwo(k, m);
  }

  lemma ProductOfTwo(k: int, m: int)
    ensures Product([k, m]) == k * m
  {
    assert [k, m][1..] == [m];
    assert [m][1..] == [];
    assert Product([m]) == m;
  }

  /** One run of the body of `fact` for `n` = k: 1 when k is 0, and
      otherwise k times what the body gives for k - 1. */
  lemma FactUnfold(k: int, m: int, cap: Env, out: seq<Value>, fuel: nat)
    requires fuel >= 5
    requires k != 0 ==> Eval(FactBody(), FactEnv(k - 1, cap), out, fuel - 3) == Outcome(Ok(Int(m)), FactEnv(k - 1, cap), out)
    ensures Eval(FactBody(), FactEnv(k, cap), out, fuel) == Outcome(Ok(Int(if k == 0 then 1 else k * m)), FactEnv(k, cap), out)
  {
    var n := Symbol("n");
    var test := Compound([Symbol("="), n, Number(0)]);
    var prod := Compound([Symbol("*"), n, Compound([Symbol("fact"), Compound([Symbol("-"), n, Number(1)])])]);
    var e := FactEnv(k, cap);
    assert FactBody() == Compound([Symbol("if"), test, Number(1), prod]);
    FactTest(k, cap, out, fuel - 1);
    IfOfBool(test, Number(1), prod, k == 0, e, out, fuel);
    if k != 0 {
      FactStep(k, m, cap, out, fuel);
    }
  }

  /** `if` on a test that gives a boolean and changes nothing. */
  lemma IfOfBool(p: Exp, a: Exp, b: Exp, t: bool, env: Env, out: seq<Value>, fuel: nat)
    requires fuel >= 1 && Eval(p, env, out, fuel - 1) == Outcome(Ok(Bool(t)), env, out)
    ensures Eval(Compound([Symbol("if"), p, a, b]), env, out, fuel)
         == if t then Eval(a, env, out, fuel - 1) else Eval(b, env, out, fuel - 1)
  {
    IfEvaluatesOneBranch(p, a, b, b, env, out, fuel);
  }

  /** The body of `fact`, run for `n` = k, computes k! and changes neither
      its environment nor the output, given fuel for k nested calls. */
  lemma {:induction false} FactBodyComputes(k: nat, cap: Env, out: seq<Value>, fuel: nat)
    requires fuel >= 3 * k + 5
    ensures Eval(FactBody(), FactEnv(k, cap), out, fuel) == Outcome(Ok(Int(Fact(k))), FactEnv(k, cap), out)
    decreases k
  {
    if k == 0 {
      FactUnfold(k, 0, cap, out, fuel);
    } else {
      FactBodyComputes(k - 1, cap, out, fuel - 3);
      FactUnfold(k, Fact(k - 1), cap, out, fuel);
    }
  }

  /** `(define fact (lambda (n) ...)) (display (fact k))` */
  function FactProgram(k: nat): seq<Exp>
  {
    [Compound([Symbol("define"), Symbol("fact"), Compound(FactLambda())]),
     Compound([Symbol("display"), Compound([Symbol("fact"), Number(k)])])]
  }

  /** The program writes k! and nothing else, and leaves `fact` bound to a
      closure whose captured environment is the empty one it was defined
      in. */
  lemma FactProgramDisplays(k: nat, fuel: nat)
    requires fuel >= 3 * k + 7
    ensures Run(FactProgram(k), fuel)
         == Outcome(Ok(Nothing), [Binding(Symbol("fact"), Closure(FactLambda(), []))], [Int(Fact(k))])
  {
    var program := FactProgram(k);
    var clo := Closure(FactLambda(), []);
    var env1 := [Binding(Symbol("fact"), clo)];
    assert Keyword(FactLambda()) == "lambda";
    assert Eval(Compound(FactLambda()), [], [], fuel - 1) == Outcome(Ok(clo), [], []);
    DefineExtendsCallerEnv("fact", Compound(FactLambda()), clo, [], [], [], [], fuel);
    assert env1 + [] == env1;

    var call := Compound([Symbol("fact"), Number(k)]);
    FactBodyComputes(k, [], [], fuel - 2);
    FactCall(Number(k), k, Fact(k), env1, [], [], fuel - 1);
    assert Eval(call, env1, [], fuel - 1) == Outcome(Ok(Int(Fact(k))), env1, []);
    DisplayAppendsOutput(call, [], Int(Fact(k)), env1, env1, [], [], fuel);
    assert [Symbol("display"), call] + [] == program[1].items;

    assert RunFrom(program, 2, env1, [Int(Fact(k))], fuel) == Outcome(Ok(Nothing), env1, [Int(Fact(k))]);
    assert RunFrom(program, 1, env1, [], fuel) == Outcome(Ok(Nothing), env1, [Int(Fact(k))]);
  }
}
