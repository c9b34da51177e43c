/**
 * The moments at which the expressions inside a piece of program come to be evaluated. The bodies of functions
 * it calls are not inside it.
 */
module Visits {
  import opened Options
  import opened Ast
  import opened Values
  import opened Environments
  import opened Classes
  import opened Evaluation

  /** An expression, and the state and the fuel it is evaluated with. */
  datatype Visit = Visit(expr: Expr, state: State, fuel: nat)

  /** The state of the visit is in the frame of `s`; where `r` has come to an end, so has the visit. */
  ghost predicate Between<T>(h: Host, s: State, v: Visit, r: Outcome<T>) {
    && Sound(v.state) && Framed(s, v.state)
    && (r.Done? || r.Returned? ==> Evaluate(h, v.expr, v.state, v.fuel).Done?)
  }

  /** The same for a moment in a class body. */
  ghost predicate Among(h: Host, s: State, v: Visit, r: Outcome<Value>, open: nat) {
    && Sound(v.state) && FramedBut(s, v.state, open)
    && (r.Done? || r.Returned? ==> Evaluate(h, v.expr, v.state, v.fuel).Done?)
  }

  // ---------- expressions ----------

  function EvaluateBoth(h: Host, a: Expr, b: Expr, s: State, fuel: nat): Outcome<Value>
    requires Sound(s)
  {
    var d :- Evaluate(h, a, s, fuel);
    Evaluate(h, b, d.state, fuel)
  }

  /** The parts of an expression, from the first to the last, come to an end. */
  ghost predicate PartsEnd(h: Host, e: Expr, s: State, fuel: nat)
    requires Sound(s)
  {
    match e
    case Number(_) => true
    case Str(_) => true
    case Bool(_) => true
    case Null => true
    case Variable(_) => true
    case List(es) => EvaluateAll(h, es, [], s, fuel).Done?
    case Dict(ps) => EvaluatePairs(h, ps, map[], s, fuel).Done?
    case Assign(_, x) => Evaluate(h, x, s, fuel).Done?
    case IndexAssign(_, _, x) =>
      var d := Evaluate(h, x, s, fuel);
      d.Done? && AssignIndex(h, e, d.result, d.state, fuel).Done?
    case DictAssign(o, _, x) => EvaluateBoth(h, o, x, s, fuel).Done?
    case Binary(_, l, x) => EvaluateBoth(h, l, x, s, fuel).Done?
    case Unary(_, x) => Evaluate(h, x, s, fuel).Done?
    case Call(c, args) =>
      var d := Evaluate(h, c, s, fuel);
      d.Done? && EvaluateAll(h, args, [], d.state, fuel).Done?
    case Dot(o, _) => Evaluate(h, o, s, fuel).Done?
    case Index(o, i) => EvaluateBoth(h, o, i, s, fuel).Done?
    case Super(args) => ParentOfCurrent(s).Some? ==> EvaluateAll(h, args, [], s, fuel).Done?
  }

  lemma {:induction false} AllPartsEnd(h: Host, e: Expr, s: State, fuel: nat)
    requires Sound(s)
    ensures Evaluate(h, e, s, fuel).Done? ==> PartsEnd(h, e, s, fuel)
  {
    hide Framed, Sound, Property, Operate, Element, AssignProperty, Assigned, Invoke, CallParent;
    hide AssignIndex, EvaluateAll, EvaluatePairs;
    match e
    case Number(_) =>
    case Str(_) =>
    case Bool(_) =>
    case Null =>
    case Variable(_) =>
    case List(_) =>
    case Dict(_) =>
    case Assign(_, _) =>
    case IndexAssign(_, _, _) => assert Evaluate(h, e, s, fuel) == EvaluateIndexAssign(h, e, s, fuel);
    case DictAssign(_, _, _) => assert Evaluate(h, e, s, fuel) == EvaluateDictAssign(h, e, s, fuel);
    case Binary(_, _, _) => assert Evaluate(h, e, s, fuel) == EvaluateBinary(h, e, s, fuel);
    case Unary(_, _) =>
    case Call(_, _) => assert Evaluate(h, e, s, fuel) == EvaluateCall(h, e, s, fuel);
    case Dot(_, _) =>
    case Index(_, _) => assert Evaluate(h, e, s, fuel) == EvaluateIndex(h, e, s, fuel);
    case Super(args) =>
      assert ParentOfCurrent(s).Some? ==>
        Evaluate(h, e, s, fuel) == EvaluateSuper(h, args, ParentOfCurrent(s).value, s, fuel);
  }

  ghost function Meets(h: Host, e: Expr, s: State, fuel: nat, v: Visit): (b: bool)
    requires Sound(s)
    ensures b ==> Between(h, s, v, Evaluate(h, e, s, fuel))
    decreases fuel, 3, e, 3
  {
    hide Framed, Sound, Evaluate, AssignIndex, EvaluateAll, EvaluatePairs, EvaluateBoth;
    Unmoved(s);
    AllPartsEnd(h, e, s, fuel);
    v == Visit(e, s, fuel) ||
    match e
    case Number(_) => false
    case Str(_) => false
    case Bool(_) => false
    case Null => false
    case Variable(_) => false
    case List(es) => MeetsAll(h, es, [], s, fuel, v)
    case Dict(ps) => MeetsPairs(h, ps, map[], s, fuel, v)
    case Assign(_, x) => Meets(h, x, s, fuel, v)
    case IndexAssign(_, _, x) =>
      || Meets(h, x, s, fuel, v)
      || (var d := Evaluate(h, x, s, fuel);
          d.Done? && (Onward(s, d.state); MeetsIndex(h, e, d.result, d.state, fuel, v)))
    case DictAssign(o, _, x) => MeetsBoth(h, e, o, x, s, fuel, v)
    case Binary(_, l, x) => MeetsBoth(h, e, l, x, s, fuel, v)
    case Unary(_, x) => Meets(h, x, s, fuel, v)
    case Call(c, args) =>
      || Meets(h, c, s, fuel, v)
      || (var d := Evaluate(h, c, s, fuel);
          d.Done? && (Onward(s, d.state); MeetsAll(h, args, [], d.state, fuel, v)))
    case Dot(o, _) => Meets(h, o, s, fuel, v)
    case Index(o, i) => MeetsBoth(h, e, o, i, s, fuel, v)
    case Super(args) => ParentOfCurrent(s).Some? && MeetsAll(h, args, [], s, fuel, v)
  }

  /** Two parts of `e`, one behind the other. */
  ghost function MeetsBoth(h: Host, e: Expr, a: Expr, b: Expr, s: State, fuel: nat, v: Visit): (m: bool)
    requires Sound(s) && a < e && b < e
    ensures m ==> Between(h, s, v, EvaluateBoth(h, a, b, s, fuel))
    decreases fuel, 3, e, 2
  {
    hide Framed, Sound, Evaluate;
    || Meets(h, a, s, fuel, v)
    || (var d := Evaluate(h, a, s, fuel);
        d.Done? && (Onward(s, d.state); Meets(h, b, d.state, fuel, v)))
  }

  ghost function MeetsAll(h: Host, es: seq<Expr>, found: seq<Value>, s: State, fuel: nat, v: Visit): (b: bool)
    requires Sound(s)
    ensures b ==> Between(h, s, v, EvaluateAll(h, es, found, s, fuel))
    decreases fuel, 3, es, 0
  {
    hide Framed, Sound, Evaluate;
    es != [] &&
    (|| Meets(h, es[0], s, fuel, v)
     || (var d := Evaluate(h, es[0], s, fuel);
         d.Done? && (Onward(s, d.state); MeetsAll(h, es[1..], found + [d.result], d.state, fuel, v))))
  }

  ghost function MeetsPairs(h: Host, ps: seq<Pair>, found: Record, s: State, fuel: nat, v: Visit): (b: bool)
    requires Sound(s)
    ensures b ==> Between(h, s, v, EvaluatePairs(h, ps, found, s, fuel))
    decreases fuel, 3, ps, 0
  {
    hide Framed, Sound, Evaluate;
    ps != [] &&
    (|| Meets(h, ps[0].value, s, fuel, v)
     || (var d := Evaluate(h, ps[0].value, s, fuel);
         d.Done? && (Onward(s, d.state); MeetsPairs(h, ps[1..], found[ps[0].key := d.result], d.state, fuel, v))))
  }

  /** Object and index are evaluated behind the index if the variable holds neither a list nor a dictionary then. */
  ghost function MeetsIndex(h: Host, e: Expr, x: Value, s: State, fuel: nat, v: Visit): (b: bool)
    requires Sound(s) && e.IndexAssign?
    ensures b ==> Between(h, s, v, AssignIndex(h, e, x, s, fuel))
    decreases fuel, 3, e, 1
  {
    hide Framed, Evaluate, AssignSlowly;
    var (o, i) := (e.obj, e.index);
    if o.Variable? && Binder(s.scopes, s.env, o.name).Some? then
      var home := Binder(s.scopes, s.env, o.name).value;
      || Meets(h, i, s, fuel, v)
      || (var d := Evaluate(h, i, s, fuel);
          && d.Done?
          && home < |d.state.scopes| && o.name in d.state.scopes[home].vars
          && (var obj := d.state.scopes[home].vars[o.name]; !obj.ListV? && !obj.ObjectV?)
          && (Onward(s, d.state); MeetsSlowly(h, e, x, d.state, fuel, v)))
    else MeetsSlowly(h, e, x, s, fuel, v)
  }

  ghost function MeetsSlowly(h: Host, e: Expr, x: Value, s: State, fuel: nat, v: Visit): (b: bool)
    requires Sound(s) && e.IndexAssign?
    ensures b ==> Between(h, s, v, AssignSlowly(h, e, x, s, fuel))
    decreases fuel, 3, e, 0
  {
    hide Framed, Sound, Evaluate, StoreCopy;
    || Meets(h, e.obj, s, fuel, v)
    || (var d := Evaluate(h, e.obj, s, fuel);
        d.Done? && (Onward(s, d.state); Meets(h, e.index, d.state, fuel, v)))
  }

  // ---------- statements ----------

  predicate IsSimple(st: Stmt) { st.ExprStmt? || st.VarDecl? || st.Return? || st.Print? }

  function Inner(st: Stmt): Expr
    requires IsSimple(st)
  {
    match st
    case ExprStmt(e) => e
    case VarDecl(_, _, e) => e
    case Return(e) => e
    case Print(e) => e
  }

  lemma {:induction false} InnerEnds(h: Host, st: Stmt, s: State, fuel: nat)
    requires Sound(s) && IsSimple(st)
    ensures var r := Execute(h, st, s, fuel); r.Done? || r.Returned? ==> Evaluate(h, Inner(st), s, fuel).Done?
  {
    hide Evaluate, Sound;
  }

  lemma {:induction false} OtherStatements(h: Host, st: Stmt, s: State, fuel: nat)
    requires Sound(s)
    ensures st.While? ==> Execute(h, st, s, fuel) == WhileLoop(h, st, s, fuel)
    ensures st.For? ==> Execute(h, st, s, fuel) == ExecuteFor(h, st, s, fuel)
    ensures st.TryCatch? ==> Execute(h, st, s, fuel) == RunBlock(h, st.tryBody, map[], s, fuel)
    ensures st.ClassDecl? ==>
      Execute(h, st, s, fuel) == DeclareClass(h, st.name, st.parentClass, st.implementsClasses, st.body, s, fuel)
  {
    hide Evaluate, WhileLoop, ExecuteFor, RunBlock, DeclareClass, Sound;
  }

  ghost function MeetsIn(h: Host, st: Stmt, s: State, fuel: nat, v: Visit): (b: bool)
    requires Sound(s)
    ensures b ==> Between(h, s, v, Execute(h, st, s, fuel))
    decreases fuel, 4, st, 3, 0
  {
    hide Framed, Sound, Evaluate, Execute, WhileLoop, ExecuteFor, RunBlock, DeclareClass;
    OtherStatements(h, st, s, fuel);
    if IsSimple(st) then
      InnerEnds(h, st, s, fuel);
      Meets(h, Inner(st), s, fuel, v)
    else if st.If? then MeetsIf(h, st, s, fuel, v)
    else if st.While? then MeetsWhile(h, st, s, fuel, v)
    else if st.For? then MeetsFor(h, st, s, fuel, v)
    else if st.Each? then MeetsEach(h, st, s, fuel, v)
    else if st.TryCatch? then MeetsBlock(h, st.tryBody, map[], s, fuel, v)
    else if st.ClassDecl? then MeetsClass(h, st.name, st.parentClass, st.implementsClasses, st.body, s, fuel, v)
    else false
  }

  ghost function MeetsIf(h: Host, st: Stmt, s: State, fuel: nat, v: Visit): (b: bool)
    requires Sound(s) && st.If?
    ensures b ==> Between(h, s, v, Execute(h, st, s, fuel))
    decreases fuel, 4, st, 2, 0
  {
    hide Framed, Sound, Truthy, Evaluate, RunBlock;
    || Meets(h, st.condition, s, fuel, v)
    || (var d := Evaluate(h, st.condition, s, fuel);
        d.Done? &&
        (Onward(s, d.state);
         var branch := if Truthy(d.result, d.state.objects) then st.body else st.elseBody;
         MeetsBlock(h, branch, map[], d.state, fuel, v)))
  }

  ghost function MeetsBody(h: Host, ss: seq<Stmt>, last: Value, s: State, fuel: nat, v: Visit): (b: bool)
    requires Sound(s)
    ensures b ==> Between(h, s, v, ExecuteAll(h, ss, last, s, fuel))
    decreases fuel, 4, ss, 0, 0
  {
    hide Framed, Sound, Evaluate, Execute;
    ss != [] &&
    (|| MeetsIn(h, ss[0], s, fuel, v)
     || (var d := Execute(h, ss[0], s, fuel);
         d.Done? && (Onward(s, d.state); MeetsBody(h, ss[1..], d.result, d.state, fuel, v))))
  }

  ghost function MeetsBlock(h: Host, ss: seq<Stmt>, vars: Record, s: State, fuel: nat, v: Visit): (b: bool)
    requires Sound(s)
    ensures b ==> Between(h, s, v, RunBlock(h, ss, vars, s, fuel))
    decreases fuel, 4, ss, 1, 0
  {
    hide Framed, Chained, Linked, Solid, Registered, Evaluate, ExecuteAll;
    MeetsBody(h, ss, NullV, Enter(s, vars, s.env), fuel, v)
  }

  ghost function MeetsWhile(h: Host, st: Stmt, s: State, fuel: nat, v: Visit): (b: bool)
    requires Sound(s) && st.While?
    ensures b ==> Between(h, s, v, WhileLoop(h, st, s, fuel))
    decreases fuel, 4, st, 1, 0
  {
    hide Framed, Sound, Evaluate, Truthy, RunBlock;
    || Meets(h, st.condition, s, fuel, v)
    || (var d := Evaluate(h, st.condition, s, fuel);
        d.Done? && Truthy(d.result, d.state.objects) && fuel > 0 &&
        (Onward(s, d.state);
         || MeetsBlock(h, st.body, map[], d.state, fuel - 1, v)
         || (var l := RunBlock(h, st.body, map[], d.state, fuel - 1);
             l.Done? && (Onward(s, l.state); MeetsWhile(h, st, l.state, fuel - 1, v)))))
  }

  ghost function MeetsFor(h: Host, st: Stmt, s: State, fuel: nat, v: Visit): (b: bool)
    requires Sound(s) && st.For?
    ensures b ==> Between(h, s, v, ExecuteFor(h, st, s, fuel))
    decreases fuel, 4, st, 1, FOR_LIMIT + 1
  {
    hide Framed, Chained, Linked, Solid, Registered, Evaluate, Execute, ForLoop;
    var inner := Enter(s, map[], s.env);
    || MeetsIn(h, st.start, inner, fuel, v)
    || (var d := Execute(h, st.start, inner, fuel);
        d.Done? && (Onward(inner, d.state); MeetsTurns(h, st, 0, d.state, fuel, v)))
  }

  ghost function MeetsTurns(h: Host, st: Stmt, n: nat, s: State, fuel: nat, v: Visit): (b: bool)
    requires Sound(s) && st.For? && n <= FOR_LIMIT
    ensures b ==> Between(h, s, v, ForLoop(h, st, n, s, fuel))
    decreases fuel, 4, st, 1, FOR_LIMIT - n
  {
    hide Framed, Sound, Evaluate, Truthy, ForTurn;
    || Meets(h, st.condition, s, fuel, v)
    || (var d := Evaluate(h, st.condition, s, fuel);
        d.Done? && Truthy(d.result, d.state.objects) && n < FOR_LIMIT &&
        (Onward(s, d.state);
         || MeetsTurn(h, st, d.state, fuel, v)
         || (var t := ForTurn(h, st, d.state, fuel);
             t.Done? && (Onward(s, t.state); MeetsTurns(h, st, n + 1, t.state, fuel, v)))))
  }

  ghost function MeetsTurn(h: Host, st: Stmt, s: State, fuel: nat, v: Visit): (b: bool)
    requires Sound(s) && st.For?
    ensures b ==> Between(h, s, v, ForTurn(h, st, s, fuel))
    decreases fuel, 4, st, 0, 0
  {
    hide Framed, Sound, Evaluate, RunBlock;
    || MeetsBlock(h, st.body, map[], s, fuel, v)
    || (var l := RunBlock(h, st.body, map[], s, fuel);
        l.Done? && (Onward(s, l.state); MeetsIn(h, st.update, l.state, fuel, v)))
  }

  ghost function MeetsEach(h: Host, st: Stmt, s: State, fuel: nat, v: Visit): (b: bool)
    requires Sound(s) && st.Each?
    ensures b ==> Between(h, s, v, Execute(h, st, s, fuel))
    decreases fuel, 4, st, 2, 0
  {
    hide Framed, Sound, Evaluate, EachLoop;
    || Meets(h, st.iterable, s, fuel, v)
    || (var d := Evaluate(h, st.iterable, s, fuel);
        && d.Done? && d.result.ListV?
        && (Onward(s, d.state); MeetsItems(h, st, d.result.items, d.state, fuel, v)))
  }

  ghost function MeetsItems(h: Host, st: Stmt, items: seq<Value>, s: State, fuel: nat, v: Visit): (b: bool)
    requires Sound(s) && st.Each?
    ensures b ==> Between(h, s, v, EachLoop(h, st, items, s, fuel))
    decreases fuel, 4, st, 1, |items|
  {
    hide Framed, Sound, Evaluate, RunBlock;
    items != [] &&
    (|| MeetsBlock(h, st.body, map[st.varName := items[0]], s, fuel, v)
     || (var l := RunBlock(h, st.body, map[st.varName := items[0]], s, fuel);
         l.Done? && (Onward(s, l.state); MeetsItems(h, st, items[1..], l.state, fuel, v))))
  }

  ghost function MeetsClass(h: Host, n: string, p: string, impls: seq<string>, b: seq<Stmt>, s: State, fuel: nat, v: Visit):
    (m: bool)
    requires Sound(s)
    ensures m ==> Between(h, s, v, DeclareClass(h, n, p, impls, b, s, fuel))
    decreases fuel, 4, b, 1, 0
  {
    hide Framed, Sound, Evaluate, Execute, ClassBody, OpenClass, CloseClass;
    MeetsMembers(h, b, |s.classes|, n, OpenClass(s, n, p, impls), fuel, v)
  }

  /** Methods are only registered; everything else in a class is met. */
  ghost function MeetsMembers(h: Host, ss: seq<Stmt>, c: nat, n: string, s: State, fuel: nat, v: Visit): (b: bool)
    requires Sound(s) && c < |s.classes|
    ensures b ==> Among(h, s, v, ClassBody(h, ss, c, n, s, fuel), c)
    decreases fuel, 4, ss, 0, 0
  {
    hide Kept, Sound, Evaluate, Execute, AddMember;
    ss != [] &&
    if ss[0].FuncDecl? then
      var t := AddMember(s, c, n, Code(ss[0].name, ss[0].params, ss[0].body, s.env));
      OnwardBut(s, t, c);
      MeetsMembers(h, ss[1..], c, n, t, fuel, v)
    else
      || MeetsIn(h, ss[0], s, fuel, v)
      || (var d := Execute(h, ss[0], s, fuel);
          d.Done? && (OnwardBut(s, d.state, c); MeetsMembers(h, ss[1..], c, n, d.state, fuel, v)))
  }
}
