/** Fuel only bounds the evaluation: a result reached with some fuel is the result with any more. */
module Fuel {
  import opened Options
  import opened Ast
  import opened Values
  import opened Environments
  import opened Classes
  import opened Evaluation

  // ---------- expressions ----------

  lemma {:induction false} EvaluateMore(h: Host, e: Expr, s: State, fuel: nat)
    requires Sound(s) && !Evaluate(h, e, s, fuel).Timeout?
    ensures Evaluate(h, e, s, fuel + 1) == Evaluate(h, e, s, fuel)
    decreases fuel, 3, e, 3
  {
    hide Operate, Property, Binder, AssignIndex, AssignProperty, EvaluateCall, EvaluateSuper, ParentOfCurrent, Element, Sound;
    match e
    case Number(_) =>
    case Str(_) =>
    case Bool(_) =>
    case Null =>
    case Variable(_) =>
    case List(es) => AllMore(h, es, [], s, fuel);
    case Dict(ps) => PairsMore(h, ps, map[], s, fuel);
    case Assign(_, x) => EvaluateMore(h, x, s, fuel);
    case IndexAssign(_, _, x) =>
      EvaluateMore(h, x, s, fuel);
      var d := Evaluate(h, x, s, fuel);
      if d.Done? {
        IndexMore(h, e, d.result, d.state, fuel);
      }
    case DictAssign(o, _, x) =>
      EvaluateMore(h, o, s, fuel);
      var d := Evaluate(h, o, s, fuel);
      if d.Done? {
        EvaluateMore(h, x, d.state, fuel);
      }
    case Binary(_, l, x) =>
      EvaluateMore(h, l, s, fuel);
      var d := Evaluate(h, l, s, fuel);
      if d.Done? {
        EvaluateMore(h, x, d.state, fuel);
      }
    case Unary(_, x) => EvaluateMore(h, x, s, fuel);
    case Call(_, _) => CallMore(h, e, s, fuel);
    case Dot(o, _) => EvaluateMore(h, o, s, fuel);
    case Index(o, i) =>
      EvaluateMore(h, o, s, fuel);
      var d := Evaluate(h, o, s, fuel);
      if d.Done? {
        EvaluateMore(h, i, d.state, fuel);
      }
    case Super(args) =>
      if ParentOfCurrent(s).Some? {
        SuperMore(h, args, ParentOfCurrent(s).value, s, fuel);
      }
  }

  lemma {:induction false} AllMore(h: Host, es: seq<Expr>, found: seq<Value>, s: State, fuel: nat)
    requires Sound(s) && !EvaluateAll(h, es, found, s, fuel).Timeout?
    ensures EvaluateAll(h, es, found, s, fuel + 1) == EvaluateAll(h, es, found, s, fuel)
    decreases fuel, 3, es, 0
  {
    hide Evaluate, Sound;
    if es != [] {
      EvaluateMore(h, es[0], s, fuel);
      var d := Evaluate(h, es[0], s, fuel);
      if d.Done? {
        AllMore(h, es[1..], found + [d.result], d.state, fuel);
      }
    }
  }

  lemma {:induction false} PairsMore(h: Host, ps: seq<Pair>, found: Record, s: State, fuel: nat)
    requires Sound(s) && !EvaluatePairs(h, ps, found, s, fuel).Timeout?
    ensures EvaluatePairs(h, ps, found, s, fuel + 1) == EvaluatePairs(h, ps, found, s, fuel)
    decreases fuel, 3, ps, 0
  {
    hide Evaluate, Sound;
    if ps != [] {
      EvaluateMore(h, ps[0].value, s, fuel);
      var d := Evaluate(h, ps[0].value, s, fuel);
      if d.Done? {
        PairsMore(h, ps[1..], found[ps[0].key := d.result], d.state, fuel);
      }
    }
  }

  lemma {:induction false} CallMore(h: Host, e: Expr, s: State, fuel: nat)
    requires Sound(s) && e.Call? && !EvaluateCall(h, e, s, fuel).Timeout?
    ensures EvaluateCall(h, e, s, fuel + 1) == EvaluateCall(h, e, s, fuel)
    decreases fuel, 3, e, 1
  {
    hide Evaluate, EvaluateAll, Invoke, Sound;
    EvaluateMore(h, e.callee, s, fuel);
    var d := Evaluate(h, e.callee, s, fuel);
    if d.Done? {
      AllMore(h, e.args, [], d.state, fuel);
      var a := EvaluateAll(h, e.args, [], d.state, fuel);
      if a.Done? {
        InvokeMore(h, d.result, a.result, a.state, fuel);
      }
    }
  }

  lemma {:induction false} SuperMore(h: Host, args: seq<Expr>, p: nat, s: State, fuel: nat)
    requires Sound(s) && p < |s.classes| && !EvaluateSuper(h, args, p, s, fuel).Timeout?
    ensures EvaluateSuper(h, args, p, s, fuel + 1) == EvaluateSuper(h, args, p, s, fuel)
    decreases fuel, 3, args, 1
  {
    hide EvaluateAll, CallParent, Sound;
    AllMore(h, args, [], s, fuel);
    var a := EvaluateAll(h, args, [], s, fuel);
    if a.Done? {
      CallParentMore(h, p, a.result, a.state, fuel);
    }
  }

  lemma {:induction false} IndexMore(h: Host, e: Expr, v: Value, s: State, fuel: nat)
    requires Sound(s) && e.IndexAssign? && !AssignIndex(h, e, v, s, fuel).Timeout?
    ensures AssignIndex(h, e, v, s, fuel + 1) == AssignIndex(h, e, v, s, fuel)
    decreases fuel, 3, e, 1
  {
    hide Evaluate, AssignSlowly, Binder, Stored;
    if e.obj.Variable? && Binder(s.scopes, s.env, e.obj.name).Some? {
      EvaluateMore(h, e.index, s, fuel);
      var d := Evaluate(h, e.index, s, fuel);
      if d.Done? && !AssignSlowly(h, e, v, d.state, fuel).Timeout? {
        SlowlyMore(h, e, v, d.state, fuel);
      }
    } else {
      SlowlyMore(h, e, v, s, fuel);
    }
  }

  lemma {:induction false} SlowlyMore(h: Host, e: Expr, v: Value, s: State, fuel: nat)
    requires Sound(s) && e.IndexAssign? && !AssignSlowly(h, e, v, s, fuel).Timeout?
    ensures AssignSlowly(h, e, v, s, fuel + 1) == AssignSlowly(h, e, v, s, fuel)
    decreases fuel, 3, e, 0
  {
    hide Evaluate, StoreCopy, Sound;
    EvaluateMore(h, e.obj, s, fuel);
    var d := Evaluate(h, e.obj, s, fuel);
    if d.Done? {
      EvaluateMore(h, e.index, d.state, fuel);
    }
  }

  // ---------- calls ----------

  lemma {:induction false} InvokeMore(h: Host, f: Value, args: seq<Value>, s: State, fuel: nat)
    requires Sound(s) && !Invoke(h, f, args, s, fuel).Timeout?
    ensures Invoke(h, f, args, s, fuel + 1) == Invoke(h, f, args, s, fuel)
    decreases fuel, 2
  {
    hide Instantiate, Apply, Inherited, BindParams;
    if f.ClassV? {
      InstantiateMore(h, f.at, args, s, fuel);
    } else if f.FunctionV? {
      var vars := BindParams(Inherited(s), f.code.params, args);
      ApplyMore(h, f.code, vars, if |args| > |f.code.params| then Complain(s) else s, fuel);
    }
  }

  lemma {:induction false} ApplyMore(h: Host, code: Code, vars: Record, s: State, fuel: nat)
    requires Sound(s) && !Apply(h, code, vars, s, fuel).Timeout?
    ensures Apply(h, code, vars, s, fuel + 1) == Apply(h, code, vars, s, fuel)
    decreases fuel, 0
  {
    hide ExecuteAll, Enter, Sound;
    if code.closure < |s.scopes| {
      BodyMore(h, code.body, NullV, Enter(s, vars, code.closure), fuel - 1);
    }
  }

  lemma {:induction false} InstantiateMore(h: Host, c: nat, args: seq<Value>, s: State, fuel: nat)
    requires Sound(s) && !Instantiate(h, c, args, s, fuel).Timeout?
    ensures Instantiate(h, c, args, s, fuel + 1) == Instantiate(h, c, args, s, fuel)
    decreases fuel, 1
  {
    hide Apply, BindParams, ChainEnds;
    if c < |s.classes| {
      var this_ := InstanceV(|s.instances|);
      var d := s.classes[c];
      var t := s.(instances := s.instances + [Instance(c, map[])]);
      match Constructor(d)
      case Some(code) =>
        ApplyMore(h, code, BindParams(Receiver(this_), code.params, args), t.(current := d.name), fuel);
      case None =>
        match if d.parent.Some? then Constructor(s.classes[d.parent.value]) else Option.None
        case None =>
        case Some(code) => ApplyMore(h, code, BindParams(Receiver(this_), code.params, args), t, fuel);
    }
  }

  lemma {:induction false} CallParentMore(h: Host, p: nat, args: seq<Value>, s: State, fuel: nat)
    requires Sound(s) && p < |s.classes| && !CallParent(h, p, args, s, fuel).Timeout?
    ensures CallParent(h, p, args, s, fuel + 1) == CallParent(h, p, args, s, fuel)
    decreases fuel, 1
  {
    hide Apply, BindParams, Inherited;
    if Constructor(s.classes[p]).Some? {
      var code := Constructor(s.classes[p]).value;
      ApplyMore(h, code, BindParams(Inherited(s), code.params, args), s, fuel);
    }
  }

  // ---------- statements ----------

  lemma {:induction false} ExecuteMore(h: Host, st: Stmt, s: State, fuel: nat)
    requires Sound(s) && !Execute(h, st, s, fuel).Timeout?
    ensures Execute(h, st, s, fuel + 1) == Execute(h, st, s, fuel)
    decreases fuel, 4, st, 2, 0
  {
    hide Evaluate, RunBlock, WhileLoop, ExecuteFor, EachLoop, DeclareClass, Define, Sound;
    match st
    case ExprStmt(e) => EvaluateMore(h, e, s, fuel);
    case VarDecl(_, _, e) => EvaluateMore(h, e, s, fuel);
    case If(c, b, els) =>
      EvaluateMore(h, c, s, fuel);
      var d := Evaluate(h, c, s, fuel);
      if d.Done? {
        BlockMore(h, if Truthy(d.result, d.state.objects) then b else els, map[], d.state, fuel);
      }
    case While(_, _) => WhileMore(h, st, s, fuel);
    case For(_, _, _, _) => ForMore(h, st, s, fuel);
    case Each(_, e, _) =>
      EvaluateMore(h, e, s, fuel);
      var d := Evaluate(h, e, s, fuel);
      if d.Done? && d.result.ListV? {
        EachMore(h, st, d.result.items, d.state, fuel);
      }
    case FuncDecl(_, _, _) =>
    case Return(e) => EvaluateMore(h, e, s, fuel);
    case Print(e) => EvaluateMore(h, e, s, fuel);
    case TryCatch(b, _, _) => BlockMore(h, b, map[], s, fuel);
    case ClassDecl(n, p, impls, b) => DeclareMore(h, n, p, impls, b, s, fuel);
    case Bare =>
  }

  lemma {:induction false} BodyMore(h: Host, ss: seq<Stmt>, last: Value, s: State, fuel: nat)
    requires Sound(s) && !ExecuteAll(h, ss, last, s, fuel).Timeout?
    ensures ExecuteAll(h, ss, last, s, fuel + 1) == ExecuteAll(h, ss, last, s, fuel)
    decreases fuel, 4, ss, 0, 0
  {
    hide Execute, Sound;
    if ss != [] {
      ExecuteMore(h, ss[0], s, fuel);
      var d := Execute(h, ss[0], s, fuel);
      if d.Done? {
        BodyMore(h, ss[1..], d.result, d.state, fuel);
      }
    }
  }

  lemma {:induction false} BlockMore(h: Host, ss: seq<Stmt>, vars: Record, s: State, fuel: nat)
    requires Sound(s) && !RunBlock(h, ss, vars, s, fuel).Timeout?
    ensures RunBlock(h, ss, vars, s, fuel + 1) == RunBlock(h, ss, vars, s, fuel)
    decreases fuel, 4, ss, 1, 0
  {
    hide ExecuteAll, Enter;
    BodyMore(h, ss, NullV, Enter(s, vars, s.env), fuel);
  }

  lemma {:induction false} WhileMore(h: Host, st: Stmt, s: State, fuel: nat)
    requires Sound(s) && st.While? && !WhileLoop(h, st, s, fuel).Timeout?
    ensures WhileLoop(h, st, s, fuel + 1) == WhileLoop(h, st, s, fuel)
    decreases fuel, 4, st, 1, 0
  {
    hide Evaluate, RunBlock, Truthy, Sound;
    EvaluateMore(h, st.condition, s, fuel);
    var d := Evaluate(h, st.condition, s, fuel);
    if d.Done? && Truthy(d.result, d.state.objects) {
      BlockMore(h, st.body, map[], d.state, fuel - 1);
      var l := RunBlock(h, st.body, map[], d.state, fuel - 1);
      if l.Done? {
        WhileMore(h, st, l.state, fuel - 1);
      }
    }
  }

  lemma {:induction false} ForMore(h: Host, st: Stmt, s: State, fuel: nat)
    requires Sound(s) && st.For? && !ExecuteFor(h, st, s, fuel).Timeout?
    ensures ExecuteFor(h, st, s, fuel + 1) == ExecuteFor(h, st, s, fuel)
    decreases fuel, 4, st, 1, FOR_LIMIT + 1
  {
    hide Execute, ForLoop, Enter;
    var inner := Enter(s, map[], s.env);
    ExecuteMore(h, st.start, inner, fuel);
    var d := Execute(h, st.start, inner, fuel);
    if d.Done? {
      TurnsMore(h, st, 0, d.state, fuel);
    }
  }

  lemma {:induction false} TurnsMore(h: Host, st: Stmt, n: nat, s: State, fuel: nat)
    requires Sound(s) && st.For? && n <= FOR_LIMIT && !ForLoop(h, st, n, s, fuel).Timeout?
    ensures ForLoop(h, st, n, s, fuel + 1) == ForLoop(h, st, n, s, fuel)
    decreases fuel, 4, st, 1, FOR_LIMIT - n
  {
    hide Evaluate, ForTurn, Truthy, Sound;
    EvaluateMore(h, st.condition, s, fuel);
    var d := Evaluate(h, st.condition, s, fuel);
    if d.Done? && Truthy(d.result, d.state.objects) && n < FOR_LIMIT {
      TurnMore(h, st, d.state, fuel);
      var t := ForTurn(h, st, d.state, fuel);
      if t.Done? {
        TurnsMore(h, st, n + 1, t.state, fuel);
      }
    }
  }

  lemma {:induction false} TurnMore(h: Host, st: Stmt, s: State, fuel: nat)
    requires Sound(s) && st.For? && !ForTurn(h, st, s, fuel).Timeout?
    ensures ForTurn(h, st, s, fuel + 1) == ForTurn(h, st, s, fuel)
    decreases fuel, 4, st, 0, 0
  {
    hide Execute, RunBlock, Sound;
    BlockMore(h, st.body, map[], s, fuel);
    var l := RunBlock(h, st.body, map[], s, fuel);
    if l.Done? {
      ExecuteMore(h, st.update, l.state, fuel);
    }
  }

  lemma {:induction false} EachMore(h: Host, st: Stmt, items: seq<Value>, s: State, fuel: nat)
    requires Sound(s) && st.Each? && !EachLoop(h, st, items, s, fuel).Timeout?
    ensures EachLoop(h, st, items, s, fuel + 1) == EachLoop(h, st, items, s, fuel)
    decreases fuel, 4, st, 1, |items|
  {
    hide RunBlock, Sound;
    if items != [] {
      BlockMore(h, st.body, map[st.varName := items[0]], s, fuel);
      var l := RunBlock(h, st.body, map[st.varName := items[0]], s, fuel);
      if l.Done? {
        EachMore(h, st, items[1..], l.state, fuel);
      }
    }
  }

  lemma {:induction false} DeclareMore(h: Host, n: string, p: string, impls: seq<string>, b: seq<Stmt>, s: State, fuel: nat)
    requires Sound(s) && !DeclareClass(h, n, p, impls, b, s, fuel).Timeout?
    ensures DeclareClass(h, n, p, impls, b, s, fuel + 1) == DeclareClass(h, n, p, impls, b, s, fuel)
    decreases fuel, 4, b, 1, 0
  {
    hide ClassBody, Enter, Define;
    var t := Enter(Register(s, n, p, impls), Receiver(NullV), s.env).(current := n);
    MembersMore(h, b, |s.classes|, n, t, fuel);
  }

  lemma {:induction false} MembersMore(h: Host, b: seq<Stmt>, c: nat, n: string, s: State, fuel: nat)
    requires Sound(s) && c < |s.classes| && !ClassBody(h, b, c, n, s, fuel).Timeout?
    ensures ClassBody(h, b, c, n, s, fuel + 1) == ClassBody(h, b, c, n, s, fuel)
    decreases fuel, 4, b, 0, 0
  {
    hide Execute;
    if b != [] {
      if b[0].FuncDecl? {
        MembersMore(h, b[1..], c, n, AddMember(s, c, n, Code(b[0].name, b[0].params, b[0].body, s.env)), fuel);
      } else {
        ExecuteMore(h, b[0], s, fuel);
        var d := Execute(h, b[0], s, fuel);
        if d.Done? {
          MembersMore(h, b[1..], c, n, d.state, fuel);
        }
      }
    }
  }

  // ---------- programs ----------

  /** A run that ends with some fuel ends the same way with any more. */
  lemma {:induction false} RunIsStable(h: Host, program: seq<Stmt>, s: State, fuel: nat, more: nat)
    requires Sound(s) && fuel <= more && !Run(h, program, s, fuel).Timeout?
    ensures Run(h, program, s, more) == Run(h, program, s, fuel)
    decreases more - fuel
  {
    if fuel < more {
      BodyMore(h, program, NullV, s, fuel);
      RunIsStable(h, program, s, fuel + 1, more);
    }
  }
}
