/** What a name means: where it resolves to, and what can change that. */
module Scoping {
  import opened Options
  import opened Tokens
  import opened Ast
  import Grammar
  import opened Values
  import opened Environments
  import opened Evaluation

  /** `k` is `at` itself or lies further out. */
  ghost predicate Encloses(scopes: seq<Scope>, k: nat, at: nat): (r: bool)
    requires Chained(scopes) && at < |scopes|
    ensures r ==> k <= at
    decreases at
  {
    k == at || (scopes[at].parent.Some? && Encloses(scopes, k, scopes[at].parent.value))
  }

  /** A name resolves to the innermost of the enclosing scopes that bind it. */
  lemma {:induction false} BinderIsInnermost(scopes: seq<Scope>, at: nat, name: string)
    requires Chained(scopes) && at < |scopes|
    ensures forall k: nat :: Binder(scopes, at, name) == Some(k) <==>
              && Encloses(scopes, k, at) && name in scopes[k].vars
              && forall j: nat :: Encloses(scopes, j, at) && k < j ==> name !in scopes[j].vars
    ensures Binder(scopes, at, name).None? <==> forall k: nat :: Encloses(scopes, k, at) ==> name !in scopes[k].vars
    decreases at
  {
    assert Encloses(scopes, at, at);
    if name !in scopes[at].vars && scopes[at].parent.Some? {
      var p := scopes[at].parent.value;
      BinderIsInnermost(scopes, p, name);
      assert forall k: nat :: Encloses(scopes, k, at) <==> k == at || Encloses(scopes, k, p);
    }
  }

  // ---------- assignments ----------

  /** The scope an assignment writes to: the one the name resolves to, else the current one. */
  function Home(s: State, n: string): nat
    requires Sound(s)
  {
    var k := Binder(s.scopes, s.env, n);
    if k.Some? then k.value else s.env
  }

  /** An assignment changes one name in one scope, the nearest that binds it, and the name then reads as assigned. */
  lemma {:induction false} AssignsNearest(s: State, n: string, v: Value)
    requires Sound(s)
    ensures var t := Assigned(s, n, v);
      && t == s.(scopes := t.scopes) && |t.scopes| == |s.scopes|
      && (forall k :: 0 <= k < |s.scopes| && k != Home(s, n) ==> t.scopes[k] == s.scopes[k])
      && t.scopes[Home(s, n)] == Scope(s.scopes[Home(s, n)].vars[n := v], s.scopes[Home(s, n)].parent)
      && ReadVariable(n, t) == Done(v, t)
  {
    var t := Assigned(s, n, v);
    SameParents(s.scopes, t.scopes, s.env, n, Home(s, n));
  }

  /** Binding a name where it is bound, or at the place asked from, makes it resolve there. */
  lemma {:induction false} SameParents(scopes: seq<Scope>, bound: seq<Scope>, at: nat, n: string, home: nat)
    requires Chained(scopes) && Chained(bound) && at < |scopes| == |bound| && home < |scopes|
    requires forall k :: 0 <= k < |scopes| ==> bound[k].parent == scopes[k].parent && (k != home ==> bound[k] == scopes[k])
    requires Binder(scopes, at, n) == Some(home) || at == home
    requires n in bound[home].vars
    ensures Binder(bound, at, n) == Some(home)
    decreases at
  {
    if at != home {
      SameParents(scopes, bound, scopes[at].parent.value, n, home);
    }
  }

  lemma {:induction false} NoneForCompound(op: TokenType, a: Value, b: Value, objects: seq<Record>)
    requires Grammar.IsCompound(op)
    ensures Combine(op, a, b, objects).None? && !Concatenates(op, a, b)
  {
    hide Truthy, Equal, Remainder;
  }

  lemma {:induction false} UnknownOperator(h: Host, op: TokenType, l: Expr, r: Expr, s: State, fuel: nat)
    requires Sound(s) && Grammar.IsCompound(op)
    ensures var d := Evaluate(h, Binary(op, l, r), s, fuel); d.Done? ==> d.result == NullV && d.state.errors > s.errors
  {
    hide Combine, Concatenates, Grammar.IsCompound;
    var e := Binary(op, l, r);
    assert Evaluate(h, e, s, fuel) == EvaluateBinary(h, e, s, fuel);
    var a := Evaluate(h, l, s, fuel);
    if a.Done? {
      var b := Evaluate(h, r, a.state, fuel);
      if b.Done? {
        NoneForCompound(op, a.result, b.result, b.state.objects);
      }
    }
  }

  lemma {:induction false} AssignmentIs(h: Host, n: string, e: Expr, s: State, fuel: nat)
    requires Sound(s)
    ensures var d := Evaluate(h, e, s, fuel);
            var r := Evaluate(h, Assign(n, e), s, fuel);
            if d.Done? then r == Done(d.result, Assigned(d.state, n, d.result)) else r == d
  {
    hide Assigned, Binder;
  }

  /**
   * The evaluator does not know the operators the parser expands `+=` and its kin to: whatever was added,
   * the variable ends up `null`, with a diagnostic.
   */
  lemma {:induction false} CompoundAssignmentLosesTheValue(h: Host, n: string, op: TokenType, e: Expr, s: State, fuel: nat)
    requires Sound(s) && Grammar.IsCompound(op)
    ensures var r := Evaluate(h, Assign(n, Binary(op, Variable(n), e)), s, fuel);
            r.Done? ==> r.result == NullV && ReadVariable(n, r.state) == Done(NullV, r.state) && r.state.errors > s.errors
  {
    hide Assigned, Binder, ReadVariable, Evaluate;
    var b := Binary(op, Variable(n), e);
    UnknownOperator(h, op, Variable(n), e, s, fuel);
    AssignmentIs(h, n, b, s, fuel);
    var d := Evaluate(h, b, s, fuel);
    if d.Done? {
      AssignsNearest(d.state, n, NullV);
    }
  }

  // ---------- blocks and calls ----------

  /** Scopes there were have kept their parents and their names. */
  ghost predicate Settled(s: State, t: State) {
    && |s.scopes| <= |t.scopes|
    && forall k :: 0 <= k < |s.scopes| ==>
         t.scopes[k].parent == s.scopes[k].parent && t.scopes[k].vars.Keys == s.scopes[k].vars.Keys
  }

  lemma {:induction false} SettledResolves(s: State, t: State, at: nat, n: string)
    requires Sound(s) && Sound(t) && Settled(s, t) && at < |s.scopes|
    ensures Binder(t.scopes, at, n) == Binder(s.scopes, at, n)
    decreases at
  {
    assert n in t.scopes[at].vars <==> n in s.scopes[at].vars by {
      assert t.scopes[at].vars.Keys == s.scopes[at].vars.Keys;
    }
    if n !in s.scopes[at].vars && s.scopes[at].parent.Some? {
      SettledResolves(s, t, s.scopes[at].parent.value, n);
    }
  }

  /** However a block ends, no scope outside it has got or lost a name, so every name resolves as before. */
  lemma {:induction false} BlocksKeepNames(h: Host, ss: seq<Stmt>, vars: Record, s: State, fuel: nat, at: nat, n: string)
    requires Sound(s) && at < |s.scopes|
    ensures var r := RunBlock(h, ss, vars, s, fuel);
            r.Done? || r.Returned? ==>
              Settled(s, r.state) && Binder(r.state.scopes, at, n) == Binder(s.scopes, at, n)
  {
    hide ExecuteAll, Binder, Kept;
    var r := RunBlock(h, ss, vars, s, fuel);
    if r.Done? || r.Returned? {
      var inner := Enter(s, vars, s.env);
      assert Framed(inner, ExecuteAll(h, ss, NullV, inner, fuel).state);
      assert forall k :: 0 <= k < |s.scopes| ==> inner.scopes[k] == s.scopes[k];
      SettledResolves(s, r.state, at, n);
    }
  }

  /**
   * A call comes back to the scope it was made in, wherever in the body a `return` was met, and no name has
   * changed its meaning there or in any other scope.
   */
  lemma {:induction false} CallsKeepNames(h: Host, code: Code, vars: Record, s: State, fuel: nat, at: nat, n: string)
    requires Sound(s) && at < |s.scopes|
    ensures var r := Apply(h, code, vars, s, fuel);
            && !r.Returned?
            && (r.Done? ==>
                  && r.state.env == s.env && Settled(s, r.state)
                  && Binder(r.state.scopes, at, n) == Binder(s.scopes, at, n))
  {
    hide ExecuteAll, Binder;
    var r := Apply(h, code, vars, s, fuel);
    if r.Done? {
      var inner := Enter(s, vars, code.closure);
      assert Framed(inner, ExecuteAll(h, code.body, NullV, inner, fuel - 1).state);
      assert forall k :: 0 <= k < |s.scopes| ==> inner.scopes[k] == s.scopes[k];
      SettledResolves(s, r.state, at, n);
    }
  }
}
