/** Two programs that differ in the order of two statements: a class declared in a constructor takes its parent away. */
module ClassInConstructor {
  import opened Options
  import opened Ast
  import opened Values
  import opened Environments
  import opened Classes
  import opened Evaluation
  import opened Laws
  import opened SuperCalls
  import opened Visits

  /** `class C { }` */
  const INNER := ClassDecl("C", "", [], [])
  /** `super()` */
  const CALL := ExprStmt(Super([]))

  /** `B()` */
  const CALL_B := ExprStmt(Call(Variable("B"), []))

  /** `class A { def A() { print "A" } }  class B extends A { def B() { .. } }  B()` */
  function Program(body: seq<Stmt>): seq<Stmt> {
    [ClassDecl("A", "", [], [FuncDecl("A", [], [Print(Str("A"))])]),
     ClassDecl("B", "A", [], [FuncDecl("B", [], body)]),
     CALL_B]
  }

  /** The state behind `class n extends p { def n() { .. } }`. */
  function WithClass(s: State, n: string, p: string, body: seq<Stmt>): (t: State)
    requires Sound(s)
    ensures Sound(t) && Framed(s, t)
  {
    var inner := OpenClass(s, n, p, []);
    var u := AddMember(inner, |s.classes|, n, Code(n, [], body, inner.env));
    CloseClass(s, n, u)
  }

  lemma {:induction false} DeclaresOne(h: Host, n: string, p: string, body: seq<Stmt>, s: State, fuel: nat)
    requires Sound(s)
    ensures Execute(h, ClassDecl(n, p, [], [FuncDecl(n, [], body)]), s, fuel) ==
            Done(ClassV(|s.classes|), WithClass(s, n, p, body))
  {
    hide OpenClass, CloseClass, AddMember, Sound, Framed;
    var members := [FuncDecl(n, [], body)];
    OtherStatements(h, ClassDecl(n, p, [], members), s, fuel);
    assert members[1..] == [];
    var inner := OpenClass(s, n, p, []);
    var u := AddMember(inner, |s.classes|, n, Code(n, [], body, inner.env));
    assert ClassBody(h, members, |s.classes|, n, inner, fuel) == ClassBody(h, [], |s.classes|, n, u, fuel);
  }

  /** `B` with its own constructor, whose parent `A` has one that prints. */
  ghost predicate Ready(s: State, body: seq<Stmt>) {
    && Sound(s) && |s.classes| == 2 && s.current == "" && s.errors == 0 && s.log == []
    && s.classes[0].parent == None && s.classes[1].parent == Some(0) && s.classes[1].name == "B"
    && "B" in s.registry && s.registry["B"] == 1
    && Constructor(s.classes[0]) == Some(Code("A", [], [Print(Str("A"))], 1))
    && Constructor(s.classes[1]) == Some(Code("B", [], body, 2))
    && |s.scopes| == 3 && s.env == 0 && s.scopes[0].parent == None
    && "B" in s.scopes[0].vars && s.scopes[0].vars["B"] == ClassV(1)
  }

  /** The class is registered, its only method is its constructor, and its name is bound where it is declared. */
  lemma {:induction false} WithClassIs(s: State, n: string, p: string, body: seq<Stmt>)
    requires Sound(s)
    ensures var (c, t) := (|s.classes|, WithClass(s, n, p, body));
            var f := FunctionV(Code(n, [], body, |s.scopes|));
            var d := NewClass(s.registry[n := c], n, p, []);
            && t.classes == s.classes + [d.(methods := map[n := f, "__constructor__" := f])]
            && t.registry == s.registry[n := c]
            && t.scopes == Bind(s.scopes + [Scope(Receiver(NullV), Some(s.env))], s.env, n, ClassV(c))
            && t == s.(scopes := t.scopes, classes := t.classes, registry := t.registry, current := "")
  {
    hide Sound, Framed;
    var inner := OpenClass(s, n, p, []);
    assert inner.classes == s.classes + [NewClass(s.registry[n := |s.classes|], n, p, [])];
  }

  lemma {:induction false} FirstThenRest(h: Host, ss: seq<Stmt>, last: Value, s: State, fuel: nat)
    requires Sound(s) && ss != [] && Execute(h, ss[0], s, fuel).Done?
    ensures var d := Execute(h, ss[0], s, fuel);
            ExecuteAll(h, ss, last, s, fuel) == ExecuteAll(h, ss[1..], d.result, d.state, fuel)
  {
    hide Execute;
  }

  /** Both classes have been declared; what is left is `B()`. */
  lemma {:induction false} ClassesDeclared(h: Host, body: seq<Stmt>, fuel: nat) returns (s: State)
    ensures Sound(START) && Ready(s, body) && Run(h, Program(body), START, fuel) == Execute(h, CALL_B, s, fuel)
  {
    hide Execute, WithClass, Sound, Framed;
    assert Sound(START) by { StartIsSound(); }
    var greet := [Print(Str("A"))];
    WithClassIs(START, "A", "", greet);
    var a := WithClass(START, "A", "", greet);
    WithClassIs(a, "B", "A", body);
    s := WithClass(a, "B", "A", body);
    DeclaresOne(h, "A", "", greet, START, fuel);
    DeclaresOne(h, "B", "A", body, a, fuel);
    var program := Program(body);
    FirstThenRest(h, program, NullV, START, fuel);
    assert program[1..] == [program[1], CALL_B] && program[1..][1..] == [CALL_B];
    FirstThenRest(h, program[1..], ClassV(0), a, fuel);
    OneStatement(h, CALL_B, ClassV(1), s, fuel);
  }

  lemma {:induction false} StartIsSound()
    ensures Sound(START)
  {
  }

  /** The state in which the body of `B` is run. */
  function InBody(s: State, body: seq<Stmt>): (t: State)
    requires Ready(s, body)
    ensures Sound(t) && t.current == "B" && Inherited(t) == Receiver(InstanceV(|s.instances|))
  {
    Enter(s.(instances := s.instances + [Instance(1, map[])], current := "B"), Receiver(InstanceV(|s.instances|)), 2)
  }

  lemma {:induction false} ExpressionIs(h: Host, e: Expr, s: State, fuel: nat)
    requires Sound(s)
    ensures Execute(h, ExprStmt(e), s, fuel) == Evaluate(h, e, s, fuel)
  {
    hide Evaluate;
  }

  lemma {:induction false} CallIs(h: Host, body: seq<Stmt>, s: State, fuel: nat)
    requires Ready(s, body)
    ensures Execute(h, CALL_B, s, fuel) == Instantiate(h, 1, [], s, fuel)
  {
    hide Instantiate, Execute, Framed, Linked, Solid, Registered;
    var e := Call(Variable("B"), []);
    ExpressionIs(h, e, s, fuel);
    assert Evaluate(h, Variable("B"), s, fuel) == Done(ClassV(1), s);
    assert Evaluate(h, e, s, fuel) == EvaluateCall(h, e, s, fuel);
    assert EvaluateCall(h, e, s, fuel) == Invoke(h, ClassV(1), [], s, fuel);
  }

  lemma {:induction false} BodyIsRun(h: Host, body: seq<Stmt>, s: State, fuel: nat)
    requires Ready(s, body)
    ensures var r := ExecuteAll(h, body, NullV, InBody(s, body), fuel);
            r.Done? ==> Instantiate(h, 1, [], s, fuel + 1) ==
                        Done(InstanceV(|s.instances|), r.state.(env := s.env, current := ""))
  {
    hide ExecuteAll, Linked, Solid, Chained, Registered;
    assert ChainEnds(s.classes, 0) && ChainEnds(s.classes, 1);
    var vars := Receiver(InstanceV(|s.instances|));
    assert BindParams(vars, [], []) == vars;
  }

  lemma {:induction false} EmptyClassIs(h: Host, s: State, fuel: nat)
    requires Sound(s)
    ensures var r := Execute(h, INNER, s, fuel); r.Done? && r.state.log == s.log && r.state.errors == s.errors
  {
    hide Sound, Framed;
    OtherStatements(h, INNER, s, fuel);
    var inner := OpenClass(s, "C", "", []);
    assert ClassBody(h, [], |s.classes|, "C", inner, fuel) == Done(NullV, inner);
  }

  lemma {:induction false} PrintIs(h: Host, t: string, s: State, fuel: nat)
    requires Sound(s)
    ensures ExecuteAll(h, [Print(Str(t))], NullV, s, fuel) == Done(StringV(t), Printed(s, t))
  {
    OneStatement(h, Print(Str(t)), NullV, s, fuel);
    assert Evaluate(h, Str(t), s, fuel) == Done(StringV(t), s);
  }

  /** The body of `B` before any class is declared: `super` runs the constructor of `A`. */
  lemma {:induction false} ParentPrints(h: Host, body: seq<Stmt>, s: State, fuel: nat)
    requires Ready(s, body)
    ensures var r := Execute(h, CALL, InBody(s, body), fuel + 1);
            r.Done? && Sound(r.state) && r.state.log == ["A"] && r.state.errors == 0
  {
    hide ExecuteAll, Framed, Linked, Solid, Registered;
    var inner := InBody(s, body);
    ExpressionIs(h, Super([]), inner, fuel + 1);
    SuperLeads(h, [], inner, fuel + 1);
    assert EvaluateSuper(h, [], 0, inner, fuel + 1) == CallParent(h, 0, [], inner, fuel + 1);
    var vars := Inherited(inner);
    PrintIs(h, "A", Enter(inner, vars, 1), fuel);
    assert Apply(h, Code("A", [], [Print(Str("A"))], 1), vars, inner, fuel + 1).Done?;
  }

  /** With the class first, `super` is refused and nothing is printed; with `super` first the parent prints. */
  lemma {:induction false} ClassTakesTheParentAway(h: Host, fuel: nat)
    ensures Sound(START)
    ensures var r := Run(h, Program([INNER, CALL]), START, fuel + 2); r.Done? && r.state.log == [] && r.state.errors == 1
    ensures var r := Run(h, Program([CALL, INNER]), START, fuel + 2); r.Done? && r.state.log == ["A"] && r.state.errors == 0
  {
    hide Run;
    ClassFirst(h, fuel);
    SuperFirst(h, fuel);
  }

  lemma {:induction false} ClassFirst(h: Host, fuel: nat)
    ensures Sound(START)
    ensures var r := Run(h, Program([INNER, CALL]), START, fuel + 2); r.Done? && r.state.log == [] && r.state.errors == 1
  {
    hide Execute, Evaluate, Instantiate, Run, Framed, Sound;
    var body := [INNER, CALL];
    var s := ClassesDeclared(h, body, fuel + 2);
    CallIs(h, body, s, fuel + 2);
    BodyIsRun(h, body, s, fuel + 1);
    var inner := InBody(s, body);
    EmptyClassIs(h, inner, fuel + 1);
    var d := Execute(h, INNER, inner, fuel + 1);
    RefusedBehindAClass(h, INNER, [], inner, fuel + 1);
    FirstThenRest(h, body, NullV, inner, fuel + 1);
    assert body[1..] == [CALL];
    OneStatement(h, CALL, d.result, d.state, fuel + 1);
    ExpressionIs(h, Super([]), d.state, fuel + 1);
  }

  lemma {:induction false} SuperFirst(h: Host, fuel: nat)
    ensures Sound(START)
    ensures var r := Run(h, Program([CALL, INNER]), START, fuel + 2); r.Done? && r.state.log == ["A"] && r.state.errors == 0
  {
    hide Execute, Evaluate, Instantiate, Run, Framed, Sound;
    var body := [CALL, INNER];
    var s := ClassesDeclared(h, body, fuel + 2);
    CallIs(h, body, s, fuel + 2);
    BodyIsRun(h, body, s, fuel + 1);
    var inner := InBody(s, body);
    ParentPrints(h, body, s, fuel);
    var d := Execute(h, CALL, inner, fuel + 1);
    FirstThenRest(h, body, NullV, inner, fuel + 1);
    assert body[1..] == [INNER];
    EmptyClassIs(h, d.state, fuel + 1);
    OneStatement(h, INNER, d.result, d.state, fuel + 1);
  }
}
