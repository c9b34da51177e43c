/** A `return` gets out of a statement only if there is one in it; those in the bodies of functions do not count. */
module Escapes {
  import opened Options
  import opened Ast
  import opened Values
  import opened Environments
  import opened Classes
  import opened Evaluation
  import opened Visits

  predicate MayReturn(st: Stmt) {
    match st
    case ExprStmt(_) => false
    case VarDecl(_, _, _) => false
    case If(_, b, els) => AnyReturns(b) || AnyReturns(els)
    case While(_, b) => AnyReturns(b)
    case For(start, _, update, b) => MayReturn(start) || AnyReturns(b) || MayReturn(update)
    case Each(_, _, b) => AnyReturns(b)
    case FuncDecl(_, _, _) => false
    case Return(_) => true
    case Print(_) => false
    case TryCatch(b, _, _) => AnyReturns(b)
    case ClassDecl(_, _, _, b) => AnyReturns(b)
    case Bare => false
  }

  predicate AnyReturns(ss: seq<Stmt>) {
    ss != [] && (MayReturn(ss[0]) || AnyReturns(ss[1..]))
  }

  lemma {:induction false} ReturnsFromWithin(h: Host, st: Stmt, s: State, fuel: nat)
    requires Sound(s) && Execute(h, st, s, fuel).Returned?
    ensures MayReturn(st)
    decreases fuel, 4, st, 2, 0
  {
    hide Evaluate, ExecuteAll, WhileLoop, ForLoop, EachLoop, ClassBody, OpenClass, CloseClass, Sound, Framed, Truthy;
    match st
    case ExprStmt(_) =>
    case VarDecl(_, _, _) =>
    case If(c, b, els) =>
      var d := Evaluate(h, c, s, fuel);
      BlockReturns(h, if Truthy(d.result, d.state.objects) then b else els, map[], d.state, fuel);
    case While(_, _) => WhileReturns(h, st, s, fuel);
    case For(_, _, _, _) => ForReturns(h, st, s, fuel);
    case Each(_, e, _) =>
      var d := Evaluate(h, e, s, fuel);
      EachReturns(h, st, d.result.items, d.state, fuel);
    case FuncDecl(_, _, _) =>
    case Return(_) =>
    case Print(_) =>
    case TryCatch(b, _, _) => BlockReturns(h, b, map[], s, fuel);
    case ClassDecl(n, p, impls, b) => MembersReturn(h, b, |s.classes|, n, OpenClass(s, n, p, impls), fuel);
    case Bare =>
  }

  lemma {:induction false} BodyReturns(h: Host, ss: seq<Stmt>, last: Value, s: State, fuel: nat)
    requires Sound(s) && ExecuteAll(h, ss, last, s, fuel).Returned?
    ensures AnyReturns(ss)
    decreases fuel, 4, ss, 0, 0
  {
    hide Execute, Sound, Framed;
    var d := Execute(h, ss[0], s, fuel);
    if d.Returned? {
      ReturnsFromWithin(h, ss[0], s, fuel);
    } else {
      BodyReturns(h, ss[1..], d.result, d.state, fuel);
    }
  }

  lemma {:induction false} BlockReturns(h: Host, ss: seq<Stmt>, vars: Record, s: State, fuel: nat)
    requires Sound(s) && RunBlock(h, ss, vars, s, fuel).Returned?
    ensures AnyReturns(ss)
    decreases fuel, 4, ss, 1, 0
  {
    hide ExecuteAll, Framed;
    BodyReturns(h, ss, NullV, Enter(s, vars, s.env), fuel);
  }

  lemma {:induction false} WhileReturns(h: Host, st: Stmt, s: State, fuel: nat)
    requires Sound(s) && st.While? && WhileLoop(h, st, s, fuel).Returned?
    ensures AnyReturns(st.body)
    decreases fuel, 4, st, 1, 0
  {
    hide Evaluate, RunBlock, Truthy, Sound, Framed;
    var d := Evaluate(h, st.condition, s, fuel);
    var l := RunBlock(h, st.body, map[], d.state, fuel - 1);
    if l.Returned? {
      BlockReturns(h, st.body, map[], d.state, fuel - 1);
    } else {
      WhileReturns(h, st, l.state, fuel - 1);
    }
  }

  lemma {:induction false} ForReturns(h: Host, st: Stmt, s: State, fuel: nat)
    requires Sound(s) && st.For? && ExecuteFor(h, st, s, fuel).Returned?
    ensures MayReturn(st)
    decreases fuel, 4, st, 1, FOR_LIMIT + 1
  {
    hide Execute, ForLoop, Framed;
    var inner := Enter(s, map[], s.env);
    var d := Execute(h, st.start, inner, fuel);
    if d.Returned? {
      ReturnsFromWithin(h, st.start, inner, fuel);
    } else {
      TurnsReturn(h, st, 0, d.state, fuel);
    }
  }

  lemma {:induction false} TurnsReturn(h: Host, st: Stmt, n: nat, s: State, fuel: nat)
    requires Sound(s) && st.For? && n <= FOR_LIMIT && ForLoop(h, st, n, s, fuel).Returned?
    ensures MayReturn(st)
    decreases fuel, 4, st, 1, FOR_LIMIT - n
  {
    hide Evaluate, RunBlock, Execute, Truthy, Sound, Framed;
    var d := Evaluate(h, st.condition, s, fuel);
    var t := ForTurn(h, st, d.state, fuel);
    if t.Returned? {
      var l := RunBlock(h, st.body, map[], d.state, fuel);
      if l.Returned? {
        BlockReturns(h, st.body, map[], d.state, fuel);
      } else {
        ReturnsFromWithin(h, st.update, l.state, fuel);
      }
    } else {
      TurnsReturn(h, st, n + 1, t.state, fuel);
    }
  }

  lemma {:induction false} EachReturns(h: Host, st: Stmt, items: seq<Value>, s: State, fuel: nat)
    requires Sound(s) && st.Each? && EachLoop(h, st, items, s, fuel).Returned?
    ensures AnyReturns(st.body)
    decreases fuel, 4, st, 1, |items|
  {
    hide RunBlock, Sound, Framed;
    var l := RunBlock(h, st.body, map[st.varName := items[0]], s, fuel);
    if l.Returned? {
      BlockReturns(h, st.body, map[st.varName := items[0]], s, fuel);
    } else {
      EachReturns(h, st, items[1..], l.state, fuel);
    }
  }

  lemma {:induction false} MembersReturn(h: Host, b: seq<Stmt>, c: nat, n: string, s: State, fuel: nat)
    requires Sound(s) && c < |s.classes| && ClassBody(h, b, c, n, s, fuel).Returned?
    ensures AnyReturns(b)
    decreases fuel, 4, b, 0, 0
  {
    hide Execute, AddMember, Sound, Framed;
    if b[0].FuncDecl? {
      MembersReturn(h, b[1..], c, n, AddMember(s, c, n, Code(b[0].name, b[0].params, b[0].body, s.env)), fuel);
    } else {
      var d := Execute(h, b[0], s, fuel);
      if d.Returned? {
        ReturnsFromWithin(h, b[0], s, fuel);
      } else {
        Onward(s, d.state);
        MembersReturn(h, b[1..], c, n, d.state, fuel);
      }
    }
  }

  /** A body that ends has come to each statement that has no `return` in front of it. */
  lemma {:induction false} BodyReaches(h: Host, ss: seq<Stmt>, last: Value, s: State, fuel: nat, k: nat) returns (u: State)
    requires Sound(s) && k < |ss| && !AnyReturns(ss[..k])
    requires var r := ExecuteAll(h, ss, last, s, fuel); r.Done? || r.Returned?
    ensures Sound(u) && Framed(s, u) && u.env == s.env
    ensures var d := Execute(h, ss[k], u, fuel);
            var r := ExecuteAll(h, ss, last, s, fuel);
            (d.Done? || d.Returned?) && |d.state.classes| <= |r.state.classes|
    ensures forall v :: MeetsIn(h, ss[k], u, fuel, v) ==> MeetsBody(h, ss, last, s, fuel, v)
    decreases k
  {
    hide Execute, Sound, MeetsIn;
    var d := Execute(h, ss[0], s, fuel);
    if k == 0 {
      u := s;
      Unmoved(s);
    } else {
      assert ss[..k][0] == ss[0] && ss[..k][1..] == ss[1..][..k - 1];
      if d.Returned? {
        ReturnsFromWithin(h, ss[0], s, fuel);
      }
      u := BodyReaches(h, ss[1..], d.result, d.state, fuel, k - 1);
      Onward(s, d.state);
    }
  }
}
