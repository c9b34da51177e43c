/**
 * A fragment that always terminates: no `while`, no calls, no class that names itself. `for` is cut off,
 * `each` walks the list it was given, so no fuel is needed at all.
 */
module Termination {
  import opened Options
  import opened Ast
  import opened Tokens
  import opened Values
  import opened Environments
  import opened Classes
  import opened Rendering
  import opened Evaluation
  import Fuel

  predicate Straight(e: Expr, dicts: bool) {
    match e
    case Number(_) => true
    case Str(_) => true
    case Bool(_) => true
    case Null => true
    case Variable(_) => true
    case List(es) => AllStraight(es, dicts)
    case Dict(ps) => dicts && PairsStraight(ps, dicts)
    case Assign(_, x) => Straight(x, dicts)
    case IndexAssign(o, i, x) => Straight(o, dicts) && Straight(i, dicts) && Straight(x, dicts)
    case DictAssign(o, _, x) => Straight(o, dicts) && Straight(x, dicts)
    case Binary(_, l, r) => Straight(l, dicts) && Straight(r, dicts)
    case Unary(_, x) => Straight(x, dicts)
    case Call(_, _) => false
    case Dot(o, _) => Straight(o, dicts)
    case Index(o, i) => Straight(o, dicts) && Straight(i, dicts)
    case Super(_) => false
  }

  predicate AllStraight(es: seq<Expr>, dicts: bool) {
    es != [] ==> Straight(es[0], dicts) && AllStraight(es[1..], dicts)
  }

  predicate PairsStraight(ps: seq<Pair>, dicts: bool) {
    ps != [] ==> Straight(ps[0].value, dicts) && PairsStraight(ps[1..], dicts)
  }

  /** Function bodies are free: they are declared, not run. */
  predicate StraightStmt(st: Stmt, dicts: bool) {
    match st
    case ExprStmt(e) => Straight(e, dicts)
    case VarDecl(_, _, e) => Straight(e, dicts)
    case If(c, b, els) => Straight(c, dicts) && AllStraightStmts(b, dicts) && AllStraightStmts(els, dicts)
    case While(_, _) => false
    case For(start, c, update, b) => StraightStmt(start, dicts) && Straight(c, dicts) && StraightStmt(update, dicts) && AllStraightStmts(b, dicts)
    case Each(_, e, b) => Straight(e, dicts) && AllStraightStmts(b, dicts)
    case FuncDecl(_, _, _) => true
    case Return(e) => Straight(e, dicts)
    case Print(e) => Straight(e, dicts)
    case TryCatch(b, _, _) => AllStraightStmts(b, dicts)
    case ClassDecl(n, p, impls, b) => n != p && n !in impls && AllStraightStmts(b, dicts)
    case Bare => true
  }

  predicate AllStraightStmts(ss: seq<Stmt>, dicts: bool) {
    ss != [] ==> StraightStmt(ss[0], dicts) && AllStraightStmts(ss[1..], dicts)
  }

  /** Neither in the state nor in the program is there a dictionary. */
  predicate WithoutDicts(s: State, dicts: bool) { !dicts && s.objects == [] }

  /** Without dictionaries none appears and nothing is rendered for ever. */
  ghost predicate Plain<T>(s: State, r: Outcome<T>, dicts: bool) {
    WithoutDicts(s, dicts) ==> !r.Endless? && (r.Done? ==> r.state.objects == [])
  }

  /** Ends or renders for ever, and leaves the classes as they are. */
  ghost predicate Still<T>(s: State, r: Outcome<T>, dicts: bool) {
    !r.Timeout? && (r.Done? ==> r.state.classes == s.classes) && Plain(s, r, dicts)
  }

  /** Ends or renders for ever, and leaves no class below itself. */
  ghost predicate Keeps<T>(s: State, r: Outcome<T>, dicts: bool) {
    !r.Timeout? && (r.Done? || r.Returned? ==> Grounded(r.state.classes)) && Plain(s, r, dicts)
  }

  lemma {:induction false} TextEnds(h: Host, v: Value, s: State)
    ensures s.objects == [] ==> TextOf(h, v, s).Done?
  {
    if TextOf(h, v, s).Endless? {
      NoObjectsNoKnot(TextOf(h, v, s).shown);
    }
  }

  lemma {:induction false} OperateEnds(h: Host, op: TokenType, a: Value, b: Value, s: State)
    ensures s.objects == [] ==> Operate(h, op, a, b, s).Done?
  {
    TextEnds(h, a, s);
    TextEnds(h, b, s);
  }

  // ---------- expressions ----------

  lemma {:induction false} EvaluateEnds(h: Host, e: Expr, s: State, fuel: nat, dicts: bool)
    requires Sound(s) && Grounded(s.classes) && Straight(e, dicts)
    ensures Still(s, Evaluate(h, e, s, fuel), dicts)
    decreases e, 3
  {
    hide EvaluateAll, EvaluatePairs, Operate, Property, AssignIndex, Grounded, Knotted, Binder, Framed, OperateUnary, Chained, Linked, Solid, Registered;
    match e
    case Number(_) =>
    case Str(_) =>
    case Bool(_) =>
    case Null =>
    case Variable(_) =>
    case List(es) => AllEnd(h, es, [], s, fuel, dicts);
    case Dict(ps) => PairsEnd(h, ps, map[], s, fuel, dicts);
    case Assign(_, x) => EvaluateEnds(h, x, s, fuel, dicts);
    case IndexAssign(_, _, x) =>
      EvaluateEnds(h, x, s, fuel, dicts);
      var d := Evaluate(h, x, s, fuel);
      if d.Done? {
        IndexEnds(h, e, d.result, d.state, fuel, dicts);
      }
    case DictAssign(o, _, x) =>
      EvaluateEnds(h, o, s, fuel, dicts);
      var d := Evaluate(h, o, s, fuel);
      if d.Done? {
        EvaluateEnds(h, x, d.state, fuel, dicts);
      }
    case Binary(op, l, x) =>
      EvaluateEnds(h, l, s, fuel, dicts);
      var d := Evaluate(h, l, s, fuel);
      if d.Done? {
        EvaluateEnds(h, x, d.state, fuel, dicts);
        var f := Evaluate(h, x, d.state, fuel);
        if f.Done? {
          OperateEnds(h, op, d.result, f.result, f.state);
        }
      }
    case Unary(_, x) => EvaluateEnds(h, x, s, fuel, dicts);
    case Dot(o, p) =>
      EvaluateEnds(h, o, s, fuel, dicts);
      var d := Evaluate(h, o, s, fuel);
      if d.Done? {
        PropertyEnds(d.result, p, d.state, dicts);
      }
    case Index(o, i) =>
      EvaluateEnds(h, o, s, fuel, dicts);
      var d := Evaluate(h, o, s, fuel);
      if d.Done? {
        EvaluateEnds(h, i, d.state, fuel, dicts);
      }
  }

  lemma {:induction false} PropertyEnds(v: Value, p: string, s: State, dicts: bool)
    requires Sound(s) && Grounded(s.classes)
    ensures Still(s, Property(v, p, s), dicts)
  {
    hide GetMethod, IsStringMethod, IsListMethod, IsNumberMethod;
    if v.InstanceV? && v.at < |s.instances| && s.instances[v.at].definition < |s.classes| {
      MethodSearchEnds(s.classes, s.instances[v.at].definition, p);
    }
  }

  lemma {:induction false} AllEnd(h: Host, es: seq<Expr>, found: seq<Value>, s: State, fuel: nat, dicts: bool)
    requires Sound(s) && Grounded(s.classes) && AllStraight(es, dicts)
    ensures Still(s, EvaluateAll(h, es, found, s, fuel), dicts)
    decreases es, 0
  {
    hide Evaluate, Straight, Grounded, Framed, Chained, Linked, Solid, Registered;
    if es != [] {
      EvaluateEnds(h, es[0], s, fuel, dicts);
      var d := Evaluate(h, es[0], s, fuel);
      if d.Done? {
        AllEnd(h, es[1..], found + [d.result], d.state, fuel, dicts);
      }
    }
  }

  lemma {:induction false} PairsEnd(h: Host, ps: seq<Pair>, found: Record, s: State, fuel: nat, dicts: bool)
    requires Sound(s) && Grounded(s.classes) && PairsStraight(ps, dicts)
    ensures Still(s, EvaluatePairs(h, ps, found, s, fuel), dicts)
    decreases ps, 0
  {
    hide Evaluate, Straight, Grounded, Framed, Chained, Linked, Solid, Registered;
    if ps != [] {
      EvaluateEnds(h, ps[0].value, s, fuel, dicts);
      var d := Evaluate(h, ps[0].value, s, fuel);
      if d.Done? {
        PairsEnd(h, ps[1..], found[ps[0].key := d.result], d.state, fuel, dicts);
      }
    }
  }

  lemma {:induction false} IndexEnds(h: Host, e: Expr, v: Value, s: State, fuel: nat, dicts: bool)
    requires Sound(s) && Grounded(s.classes) && e.IndexAssign? && Straight(e, dicts)
    ensures Still(s, AssignIndex(h, e, v, s, fuel), dicts)
    decreases e, 1
  {
    hide Evaluate, AssignSlowly, Binder, Stored, Grounded, Framed, Chained, Linked, Solid, Registered;
    if e.obj.Variable? && Binder(s.scopes, s.env, e.obj.name).Some? {
      EvaluateEnds(h, e.index, s, fuel, dicts);
      var d := Evaluate(h, e.index, s, fuel);
      if d.Done? {
        TextEnds(h, d.result, d.state);
        SlowlyEnds(h, e, v, d.state, fuel, dicts);
      }
    } else {
      SlowlyEnds(h, e, v, s, fuel, dicts);
    }
  }

  lemma {:induction false} SlowlyEnds(h: Host, e: Expr, v: Value, s: State, fuel: nat, dicts: bool)
    requires Sound(s) && Grounded(s.classes) && e.IndexAssign? && Straight(e, dicts)
    ensures Still(s, AssignSlowly(h, e, v, s, fuel), dicts)
    decreases e, 0
  {
    hide Evaluate, Stored, Grounded, Framed, Chained, Linked, Solid, Registered;
    EvaluateEnds(h, e.obj, s, fuel, dicts);
    var d := Evaluate(h, e.obj, s, fuel);
    if d.Done? {
      EvaluateEnds(h, e.index, d.state, fuel, dicts);
      var f := Evaluate(h, e.index, d.state, fuel);
      if f.Done? {
        TextEnds(h, f.result, f.state);
      }
    }
  }

  // ---------- statements ----------

  lemma {:induction false} ExecuteEnds(h: Host, st: Stmt, s: State, fuel: nat, dicts: bool)
    requires Sound(s) && Grounded(s.classes) && StraightStmt(st, dicts)
    ensures Keeps(s, Execute(h, st, s, fuel), dicts)
    decreases st, 2, 0
  {
    hide Evaluate, RunBlock, ExecuteFor, EachLoop, DeclareClass, Grounded, Straight;
    match st
    case ExprStmt(e) => EvaluateEnds(h, e, s, fuel, dicts);
    case VarDecl(_, _, e) => EvaluateEnds(h, e, s, fuel, dicts);
    case If(c, b, els) =>
      EvaluateEnds(h, c, s, fuel, dicts);
      var d := Evaluate(h, c, s, fuel);
      if d.Done? {
        BlockEnds(h, if Truthy(d.result, d.state.objects) then b else els, map[], d.state, fuel, dicts);
      }
    case For(_, _, _, _) => ForEnds(h, st, s, fuel, dicts);
    case Each(_, e, _) =>
      EvaluateEnds(h, e, s, fuel, dicts);
      var d := Evaluate(h, e, s, fuel);
      if d.Done? && d.result.ListV? {
        EachEnds(h, st, d.result.items, d.state, fuel, dicts);
      }
    case FuncDecl(_, _, _) =>
    case Return(e) => EvaluateEnds(h, e, s, fuel, dicts);
    case Print(e) =>
      EvaluateEnds(h, e, s, fuel, dicts);
      var d := Evaluate(h, e, s, fuel);
      if d.Done? {
        TextEnds(h, d.result, d.state);
      }
    case TryCatch(b, _, _) => BlockEnds(h, b, map[], s, fuel, dicts);
    case ClassDecl(n, p, impls, b) => DeclareEnds(h, n, p, impls, b, s, fuel, dicts);
    case Bare =>
  }

  lemma {:induction false} BodyEnds(h: Host, ss: seq<Stmt>, last: Value, s: State, fuel: nat, dicts: bool)
    requires Sound(s) && Grounded(s.classes) && AllStraightStmts(ss, dicts)
    ensures Keeps(s, ExecuteAll(h, ss, last, s, fuel), dicts)
    decreases ss, 0, 0
  {
    hide Execute, StraightStmt, Grounded;
    if ss != [] {
      ExecuteEnds(h, ss[0], s, fuel, dicts);
      var d := Execute(h, ss[0], s, fuel);
      if d.Done? {
        BodyEnds(h, ss[1..], d.result, d.state, fuel, dicts);
      }
    }
  }

  lemma {:induction false} BlockEnds(h: Host, ss: seq<Stmt>, vars: Record, s: State, fuel: nat, dicts: bool)
    requires Sound(s) && Grounded(s.classes) && AllStraightStmts(ss, dicts)
    ensures Keeps(s, RunBlock(h, ss, vars, s, fuel), dicts)
    decreases ss, 1, 0
  {
    hide ExecuteAll, Grounded;
    BodyEnds(h, ss, NullV, Enter(s, vars, s.env), fuel, dicts);
  }

  lemma {:induction false} ForEnds(h: Host, st: Stmt, s: State, fuel: nat, dicts: bool)
    requires Sound(s) && Grounded(s.classes) && st.For? && StraightStmt(st, dicts)
    ensures Keeps(s, ExecuteFor(h, st, s, fuel), dicts)
    decreases st, 1, FOR_LIMIT + 1
  {
    hide Execute, ForLoop, Grounded;
    var inner := Enter(s, map[], s.env);
    ExecuteEnds(h, st.start, inner, fuel, dicts);
    var d := Execute(h, st.start, inner, fuel);
    if d.Done? {
      TurnsEnd(h, st, 0, d.state, fuel, dicts);
    }
  }

  lemma {:induction false} TurnsEnd(h: Host, st: Stmt, n: nat, s: State, fuel: nat, dicts: bool)
    requires Sound(s) && Grounded(s.classes) && st.For? && StraightStmt(st, dicts) && n <= FOR_LIMIT
    ensures Keeps(s, ForLoop(h, st, n, s, fuel), dicts)
    decreases st, 1, FOR_LIMIT - n
  {
    hide Evaluate, Execute, RunBlock, Truthy, Grounded, Framed, Chained, Linked, Solid, Registered;
    EvaluateEnds(h, st.condition, s, fuel, dicts);
    var d := Evaluate(h, st.condition, s, fuel);
    if d.Done? && Truthy(d.result, d.state.objects) && n < FOR_LIMIT {
      BlockEnds(h, st.body, map[], d.state, fuel, dicts);
      var l := RunBlock(h, st.body, map[], d.state, fuel);
      if l.Done? {
        ExecuteEnds(h, st.update, l.state, fuel, dicts);
        var u := Execute(h, st.update, l.state, fuel);
        if u.Done? {
          TurnsEnd(h, st, n + 1, u.state, fuel, dicts);
        }
      }
    }
  }

  lemma {:induction false} EachEnds(h: Host, st: Stmt, items: seq<Value>, s: State, fuel: nat, dicts: bool)
    requires Sound(s) && Grounded(s.classes) && st.Each? && StraightStmt(st, dicts)
    ensures Keeps(s, EachLoop(h, st, items, s, fuel), dicts)
    decreases st, 1, |items|
  {
    hide RunBlock, Grounded, Framed, Chained, Linked, Solid, Registered;
    if items != [] {
      BlockEnds(h, st.body, map[st.varName := items[0]], s, fuel, dicts);
      var l := RunBlock(h, st.body, map[st.varName := items[0]], s, fuel);
      if l.Done? {
        EachEnds(h, st, items[1..], l.state, fuel, dicts);
      }
    }
  }

  lemma {:induction false} DeclareEnds(h: Host, n: string, p: string, impls: seq<string>, b: seq<Stmt>, s: State, fuel: nat, dicts: bool)
    requires Sound(s) && Grounded(s.classes) && n != p && n !in impls && AllStraightStmts(b, dicts)
    ensures Keeps(s, DeclareClass(h, n, p, impls, b, s, fuel), dicts)
    decreases b, 1, 0
  {
    hide ClassBody, Register, Grounded, Framed, Chained, Linked, Solid, Registered;
    RegisterGrounded(s, n, p, impls);
    var t := Enter(Register(s, n, p, impls), Receiver(NullV), s.env).(current := n);
    MembersEnd(h, b, |s.classes|, n, t, fuel, dicts);
  }

  lemma {:induction false} MembersEnd(h: Host, b: seq<Stmt>, c: nat, n: string, s: State, fuel: nat, dicts: bool)
    requires Sound(s) && Grounded(s.classes) && c < |s.classes| && AllStraightStmts(b, dicts)
    ensures Keeps(s, ClassBody(h, b, c, n, s, fuel), dicts)
    decreases b, 0, 0
  {
    hide Execute, StraightStmt, Framed, Linked, Solid, Chained, Registered;
    if b != [] {
      if b[0].FuncDecl? {
        MembersEnd(h, b[1..], c, n, AddMember(s, c, n, Code(b[0].name, b[0].params, b[0].body, s.env)), fuel, dicts);
      } else {
        ExecuteEnds(h, b[0], s, fuel, dicts);
        var d := Execute(h, b[0], s, fuel);
        if d.Done? {
          Onward(s, d.state);
          MembersEnd(h, b[1..], c, n, d.state, fuel, dicts);
        }
      }
    }
  }

  lemma {:induction false} RegisterGrounded(s: State, n: string, p: string, impls: seq<string>)
    requires Sound(s) && Grounded(s.classes) && n != p && n !in impls
    ensures Grounded(Register(s, n, p, impls).classes)
  {
    ResolveAvoids(s.registry[n := |s.classes|], n, impls, |s.classes|);
  }

  // ---------- programs ----------

  /**
   * A program of the fragment, dictionaries included, ends in every sound state in which no class is below
   * itself, or it comes to render a value from which a dictionary that contains itself can be reached. Which
   * of the two does not depend on the fuel.
   */
  lemma {:induction false} FragmentEndsOrRenders(h: Host, program: seq<Stmt>, s: State, fuel: nat)
    requires Sound(s) && Grounded(s.classes) && AllStraightStmts(program, true)
    ensures var r := Run(h, program, s, fuel);
            && !r.Timeout?
            && (r.Endless? ==> Knotted(r.shown, r.objects))
            && r == Run(h, program, s, 0)
  {
    BodyEnds(h, program, NullV, s, 0, true);
    Fuel.RunIsStable(h, program, s, 0, fuel);
  }

  /** Without dictionaries it ends. */
  lemma {:induction false} FragmentEnds(h: Host, program: seq<Stmt>, s: State, fuel: nat)
    requires Sound(s) && Grounded(s.classes) && AllStraightStmts(program, false) && s.objects == []
    ensures var r := Run(h, program, s, fuel);
            !r.Timeout? && !r.Endless? && r == Run(h, program, s, 0)
  {
    BodyEnds(h, program, NullV, s, 0, false);
    Fuel.RunIsStable(h, program, s, 0, fuel);
  }
}
