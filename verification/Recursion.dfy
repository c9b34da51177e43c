/** A recursive program from its text to its output. */
module Recursion {
  import opened Options
  import opened Tokens
  import opened Ast
  import opened Values
  import opened Environments
  import opened Rendering
  import opened Evaluation
  import opened Printing
  import opened Laws
  import Grammar
  import opened Layout
  import Json
  import JsonRoundTrip
  import opened ProgramRoundTrip
  import Receivers

  function Factorial(n: nat): nat {
    if n <= 1 then 1 else n * Factorial(n - 1)
  }

  /** `n <= 1` */
  const AT_END := Binary(LessEqualT, Variable("n"), Number(1.0))
  /** `if (n <= 1) { return 1 }` */
  const BASE := If(AT_END, [Return(Number(1.0))], [])
  /** `fact(n - 1)` */
  const SMALLER := Call(Variable("fact"), [Binary(MinusT, Variable("n"), Number(1.0))])
  /** `return n * fact(n - 1)` */
  const STEP := Return(Binary(MultiplyT, Variable("n"), SMALLER))

  function Fact(closure: nat): Code {
    Code("fact", ["n"], [BASE, STEP], closure)
  }

  /** The scopes have grown and another one may be current, nothing else has changed. */
  ghost predicate OnlyScopesGrew(s: State, t: State) {
    Sound(t) && t == s.(scopes := t.scopes, env := t.env) && s.scopes <= t.scopes
  }

  /** `fact` is bound where its body was declared. */
  ghost predicate Knows(s: State, g: nat)
    requires Sound(s)
  {
    g < |s.scopes| && Read(s.(env := g), "fact") == FunctionV(Fact(g))
  }

  /** In the current scope `n` reads as the number and `fact` as the function. */
  ghost predicate InBody(s: State, n: nat, g: nat) {
    Sound(s) && Knows(s, g) && Read(s, "n") == NumberV(n as real) && Read(s, "fact") == FunctionV(Fact(g))
  }

  lemma {:induction false} StillKnows(s: State, t: State, g: nat)
    requires Sound(s) && Sound(t) && s.scopes <= t.scopes && Knows(s, g)
    ensures Knows(t, g)
  {
    Receivers.ExtendedResolves(s.scopes, t.scopes, g, "fact");
  }

  lemma {:induction false} OneArgument(h: Host, e: Expr, s: State, fuel: nat)
    requires Sound(s) && Evaluate(h, e, s, fuel).Done?
    ensures var d := Evaluate(h, e, s, fuel); EvaluateAll(h, [e], [], s, fuel) == Done([d.result], d.state)
  {
    hide Evaluate;
    var d := Evaluate(h, e, s, fuel);
    assert [e][1..] == [] && [] + [d.result] == [d.result];
  }

  lemma {:induction false} NumberIs(h: Host, x: real, s: State, fuel: nat)
    requires Sound(s)
    ensures Evaluate(h, Number(x), s, fuel) == Done(NumberV(x), s)
  {
  }

  lemma {:induction false} VariableIs(h: Host, n: string, s: State, fuel: nat)
    requires Sound(s) && Read(s, n) != NullV
    ensures Evaluate(h, Variable(n), s, fuel) == Done(Read(s, n), s)
  {
  }

  lemma {:induction false} ConditionIs(h: Host, n: nat, s: State, g: nat, fuel: nat)
    requires InBody(s, n, g)
    ensures Evaluate(h, AT_END, s, fuel) == Done(BoolV(n <= 1), s)
  {
    hide Framed;
    VariableIs(h, "n", s, fuel);
    NumberIs(h, 1.0, s, fuel);
    assert Evaluate(h, AT_END, s, fuel) == EvaluateBinary(h, AT_END, s, fuel);
  }

  /** The `if` returns 1 for 0 and 1, and does nothing but leave a scope behind for the rest. */
  lemma {:induction false} BaseDecides(h: Host, n: nat, s: State, g: nat, fuel: nat)
    requires InBody(s, n, g)
    ensures var inner := Enter(s, map[], s.env);
            Execute(h, BASE, s, fuel) ==
            if n <= 1 then Returned(NumberV(1.0), inner) else Done(NullV, BackTo(s, inner))
  {
    hide Evaluate;
    ConditionIs(h, n, s, g, fuel);
    var inner := Enter(s, map[], s.env);
    var one := Return(Number(1.0));
    NumberIs(h, 1.0, inner, fuel);
    assert Execute(h, one, inner, fuel) == Returned(NumberV(1.0), inner);
    OneStatement(h, one, NullV, inner, fuel);
    assert ExecuteAll(h, [], NullV, inner, fuel) == Done(NullV, inner);
  }

  /** `n - 1` as the only argument. */
  lemma {:induction false} ArgumentIs(h: Host, n: nat, s: State, g: nat, fuel: nat)
    requires InBody(s, n, g) && n > 0
    ensures EvaluateAll(h, SMALLER.args, [], s, fuel) == Done([NumberV((n - 1) as real)], s)
  {
    hide Read;
    var e := Binary(MinusT, Variable("n"), Number(1.0));
    VariableIs(h, "n", s, fuel);
    NumberIs(h, 1.0, s, fuel);
    assert Evaluate(h, e, s, fuel) == EvaluateBinary(h, e, s, fuel);
    OneArgument(h, e, s, fuel);
  }

  lemma {:induction false} SmallerIs(h: Host, n: nat, s: State, g: nat, fuel: nat)
    requires InBody(s, n, g) && n > 0
    ensures Evaluate(h, SMALLER, s, fuel) == Invoke(h, FunctionV(Fact(g)), [NumberV((n - 1) as real)], s, fuel)
  {
    hide Invoke, EvaluateAll, Read;
    ArgumentIs(h, n, s, g, fuel);
    VariableIs(h, "fact", s, fuel);
    assert Evaluate(h, SMALLER, s, fuel) == EvaluateCall(h, SMALLER, s, fuel);
  }

  lemma {:induction false} StepComputes(h: Host, n: nat, s: State, g: nat, fuel: nat)
    requires InBody(s, n, g) && n > 1
    requires var c := Invoke(h, FunctionV(Fact(g)), [NumberV((n - 1) as real)], s, fuel);
             c.Done? && c.result == NumberV(Factorial(n - 1) as real) && OnlyScopesGrew(s, c.state)
    ensures var r := Execute(h, STEP, s, fuel);
            r.Returned? && r.value == NumberV(Factorial(n) as real) && OnlyScopesGrew(s, r.state)
  {
    hide Invoke, EvaluateAll, EvaluateCall, Read, TextOf, Equal, Truthy, Remainder, Knotted, Framed;
    SmallerIs(h, n, s, g, fuel);
    VariableIs(h, "n", s, fuel);
    assert Evaluate(h, STEP.result, s, fuel) == EvaluateBinary(h, STEP.result, s, fuel);
  }

  lemma {:induction false} BodyComputes(h: Host, n: nat, s: State, g: nat, fuel: nat)
    requires InBody(s, n, g) && fuel >= n
    ensures var r := ExecuteAll(h, Fact(g).body, NullV, s, fuel);
            r.Returned? && r.value == NumberV(Factorial(n) as real) && OnlyScopesGrew(s, r.state)
    decreases n, 0
  {
    hide Execute, Invoke;
    BaseDecides(h, n, s, g, fuel);
    if n > 1 {
      var t := BackTo(s, Enter(s, map[], s.env));
      StillKnows(s, t, g);
      Receivers.ExtendedResolves(s.scopes, t.scopes, s.env, "n");
      Receivers.ExtendedResolves(s.scopes, t.scopes, s.env, "fact");
      CallComputes(h, n - 1, t, g, fuel);
      StepComputes(h, n, t, g, fuel);
      assert Fact(g).body[1..] == [STEP];
      OneStatement(h, STEP, NullV, t, fuel);
    }
  }

  /** A call of `fact` in a state that knows it gives the factorial. */
  lemma {:induction false} CallComputes(h: Host, n: nat, s: State, g: nat, fuel: nat)
    requires Sound(s) && Knows(s, g) && fuel > n
    ensures var r := Invoke(h, FunctionV(Fact(g)), [NumberV(n as real)], s, fuel);
            r.Done? && r.result == NumberV(Factorial(n) as real) && OnlyScopesGrew(s, r.state)
    decreases n, 1
  {
    hide ExecuteAll;
    var vars := BindParams(Inherited(s), Fact(g).params, [NumberV(n as real)]);
    ParametersHoldArguments(Inherited(s), Fact(g).params, [NumberV(n as real)]);
    var inner := Enter(s, vars, g);
    StillKnows(s, inner, g);
    BodyComputes(h, n, inner, g, fuel - 1);
  }

  // ---------- the program ----------

  /** `def fact(n) { if (n <= 1) { return 1 } return n * fact(n - 1) } print(fact(n))` */
  function FactorialOf(n: nat): seq<Stmt> {
    [FuncDecl("fact", ["n"], [BASE, STEP]), Print(Call(Variable("fact"), [Number(n as real)]))]
  }

  lemma {:induction false} CallPrints(h: Host, n: nat, s: State, g: nat, fuel: nat)
    requires Sound(s) && Knows(s, g) && Read(s, "fact") == FunctionV(Fact(g)) && fuel > n
    ensures var r := Execute(h, Print(Call(Variable("fact"), [Number(n as real)])), s, fuel);
            r.Done? && r.state.log == s.log + [NumberText(h, Factorial(n) as real)] && r.state.errors == s.errors
  {
    hide Invoke, Read, Sound, Framed;
    var call := Call(Variable("fact"), [Number(n as real)]);
    CallComputes(h, n, s, g, fuel);
    VariableIs(h, "fact", s, fuel);
    NumberIs(h, n as real, s, fuel);
    OneArgument(h, Number(n as real), s, fuel);
    assert Evaluate(h, call, s, fuel) == EvaluateCall(h, call, s, fuel);
  }

  lemma {:induction false} ProgramComputes(h: Host, n: nat, fuel: nat)
    requires fuel > n
    ensures Sound(START)
    ensures var r := Run(h, FactorialOf(n), START, fuel);
            r.Done? && r.state.log == [NumberText(h, Factorial(n) as real)] && r.state.errors == 0
  {
    hide Execute, Evaluate;
    assert Sound(START);
    var program := FactorialOf(n);
    var s := Define(START, "fact", FunctionV(Fact(0)));
    DeclarationIs(h, n, fuel);
    CallPrints(h, n, s, 0, fuel);
    assert program[1..] == [program[1]];
    OneStatement(h, program[1], NullV, s, fuel);
  }

  lemma {:induction false} DeclarationIs(h: Host, n: nat, fuel: nat)
    ensures Sound(START)
    ensures Execute(h, FactorialOf(n)[0], START, fuel) == Done(NullV, Define(START, "fact", FunctionV(Fact(0))))
  {
  }

  lemma {:induction false} LargestFactorial()
    ensures Factorial(20) == 2432902008176640000
  {
    assert Factorial(4) == 24;
    assert Factorial(8) == 40320;
    assert Factorial(12) == 479001600;
    assert Factorial(16) == 20922789888000;
  }

  lemma {:induction false} NoSmaller(a: nat, b: nat)
    requires a >= 1
    ensures a * b >= b
  {
  }

  lemma {:induction false} FactorialGrows(n: nat, m: nat)
    requires n <= m
    ensures Factorial(n) <= Factorial(m)
    decreases m - n
  {
    if n < m {
      FactorialGrows(n, m - 1);
      NoSmaller(m, Factorial(m - 1));
    }
  }

  /** Up to 20 the factorial is printed as an integer; from 21 on it is too large for the conversion. */
  lemma {:induction false} PrintedAsInteger(h: Host, n: nat)
    requires n <= 20
    ensures NumberText(h, Factorial(n) as real) == Json.IntText(Factorial(n))
  {
    FactorialGrows(n, 20);
    LargestFactorial();
    assert (Factorial(n) as real).Floor == Factorial(n);
  }

  lemma {:induction false} NumberHasText(n: nat)
    ensures IsDecimal(n as real)
  {
    hide Json.NatText;
    var text := Json.NatText(n);
    JsonRoundTrip.NatTextReads(n);
    JsonRoundTrip.DigitsRead(text);
    assert IsNumberLexeme(text) && Grammar.NumberValue(text) == n as real;
  }

  lemma {:induction false} ShortName()
    ensures IsName("n")
  {
  }

  lemma {:induction false} LongName()
    ensures IsName("fact")
  {
  }

  lemma {:induction false} BodyIsProducible()
    ensures ProducibleStmt(BASE) && ProducibleStmt(STEP)
  {
    hide IsName, IsDecimal;
    ShortName();
    LongName();
    NumberHasText(1);
    assert SMALLER.args[1..] == [] && [Return(Number(1.0))][1..] == [];
  }

  lemma {:induction false} ProgramIsProducible(n: nat)
    ensures AllStmts(FactorialOf(n))
  {
    hide IsName, IsDecimal;
    ShortName();
    LongName();
    BodyIsProducible();
    NumberHasText(n);
    assert [BASE, STEP][1..] == [STEP] && [STEP][1..] == [];
    assert AllStmts([BASE, STEP]);
    var arg := Number(n as real);
    assert Producible(arg) && [arg][1..] == [];
    assert Producible(Call(Variable("fact"), [arg]));
    var shown := Print(Call(Variable("fact"), [arg]));
    assert FactorialOf(n)[1..] == [shown] && [shown][1..] == [];
    assert ProducibleStmt(FuncDecl("fact", ["n"], [BASE, STEP]));
    assert AllStmts([shown]);
  }

  /**
   * Whichever way the program is written down, it is read and prints the factorial, without a diagnostic.
   * Up to 20 the text is that of the integer, and every product on the way is exact as a double too.
   */
  lemma {:induction false} FactorialFromText(h: Host, n: nat, fuel: nat)
    requires fuel > n
    ensures Sound(START)
    ensures AllStmts(FactorialOf(n)) && Spells(Spaced(ShowStmts(FactorialOf(n))), FactorialOf(n))
    ensures forall lead: seq<Trivium>, ws: seq<Written> | OkGap(lead) && Spells(ws, FactorialOf(n)) ::
              var parsed := FrontEnd(Gap(lead) + Weave(ws));
              parsed.Done? &&
              var r := Run(h, parsed.node, START, fuel);
              && r.Done? && r.state.log == [NumberText(h, Factorial(n) as real)] && r.state.errors == 0
              && (n <= 20 ==> r.state.log == [Json.IntText(Factorial(n))])
  {
    hide Run, Spells, FrontEnd, ShowStmts, AllStmts, Weave;
    if n <= 20 {
      PrintedAsInteger(h, n);
    }
    ProgramIsProducible(n);
    TextRoundTrip(FactorialOf(n));
    ProgramComputes(h, n, fuel);
  }
}
