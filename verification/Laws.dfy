/** Laws of the language that span several steps of the evaluator. */
module Laws {
  import opened Options
  import opened Ast
  import opened Tokens
  import opened Values
  import opened Environments
  import opened Rendering
  import opened Evaluation
  import opened Scoping

  // ---------- statement lists ----------

  lemma {:induction false} OneStatement(h: Host, st: Stmt, last: Value, s: State, fuel: nat)
    requires Sound(s)
    ensures ExecuteAll(h, [st], last, s, fuel) == Execute(h, st, s, fuel)
  {
    hide Execute;
    assert [st][1..] == [];
  }

  // ---------- remainders ----------

  function Multiple(q: int, b: real): real { q as real * b }

  /** The remainder of `fmod`: a whole multiple of `b` away from `a`, smaller than `b`, with the sign of `a`. */
  ghost predicate IsFmod(a: real, b: real, r: real)
    requires b != 0.0
  {
    && (exists q: int :: a == Multiple(q, b) + r)
    && (if b > 0.0 then -b < r < b else b < r < -b)
    && (if a >= 0.0 then r >= 0.0 else r <= 0.0)
  }

  lemma {:induction false} Positive(x: real, y: real)
    requires x > 0.0 && y > 0.0
    ensures x * y > 0.0
  {
  }

  lemma {:induction false} FloorBounds(a: real, b: real)
    requires b != 0.0
    ensures var r := a - Multiple((a / b).Floor, b);
      (b > 0.0 ==> 0.0 <= r < b) && (b < 0.0 ==> b < r <= 0.0)
  {
    var x := a / b;
    var y := x - x.Floor as real;
    assert a == x * b && 0.0 <= y < 1.0;
    assert a - Multiple(x.Floor, b) == y * b;
    var c := if b > 0.0 then b else -b;
    if y > 0.0 {
      Positive(y, c);
    }
    Positive(1.0 - y, c);
    assert (1.0 - y) * c == c - y * c;
    assert b < 0.0 ==> y * b == -(y * c);
  }

  /**
   * `%` is the remainder of `fmod` except for a dividend that is not negative, a negative divisor, and a
   * division with a rest: there the correction of the sign goes the wrong way.
   */
  lemma {:induction false} RemainderIsFmod(a: real, b: real)
    requires b != 0.0
    ensures IsFmod(a, b, Remainder(a, b)) <==> !(a >= 0.0 && b < 0.0 && a != Multiple((a / b).Floor, b))
  {
    FloorBounds(a, b);
    var k := (a / b).Floor;
    var r := a - Multiple(k, b);
    assert a == Multiple(k, b) + r;
    assert Multiple(k + 1, b) == Multiple(k, b) + b;
    assert a == Multiple(k + 1, b) + (r - b);
  }

  // ---------- operators ----------

  /** What the operator says about two values, both evaluated. */
  ghost predicate Says(op: TokenType, a: Value, b: Value, objects: seq<Record>) {
    Combine(op, a, b, objects) == Some(BoolV(true))
  }

  lemma {:induction false} ComparisonIs(op: TokenType, a: Value, b: Value, objects: seq<Record>)
    ensures op.GreaterT? ==> (Says(op, a, b, objects) <==> NumberOf(a) > NumberOf(b))
    ensures op.LessT? ==> (Says(op, a, b, objects) <==> NumberOf(a) < NumberOf(b))
    ensures op.GreaterEqualT? ==> (Says(op, a, b, objects) <==> NumberOf(a) >= NumberOf(b))
    ensures op.LessEqualT? ==> (Says(op, a, b, objects) <==> NumberOf(a) <= NumberOf(b))
    ensures op.EqualToT? ==> (Says(op, a, b, objects) <==> Equal(a, b))
    ensures op.NotEqualToT? ==> (Says(op, a, b, objects) <==> !Equal(a, b))
  {
    hide Truthy, Remainder, Equal;
  }

  /** Comparisons mirror and negate each other; on numbers equal means neither less nor greater. */
  lemma {:induction false} RelatedComparisons(a: Value, b: Value, objects: seq<Record>)
    ensures Says(GreaterT, a, b, objects) <==> Says(LessT, b, a, objects)
    ensures Says(GreaterEqualT, a, b, objects) <==> !Says(LessT, a, b, objects)
    ensures Says(LessEqualT, a, b, objects) <==> !Says(GreaterT, a, b, objects)
    ensures Says(NotEqualToT, a, b, objects) <==> !Says(EqualToT, a, b, objects)
    ensures a.NumberV? && b.NumberV? ==>
              (Says(EqualToT, a, b, objects) <==> !Says(LessT, a, b, objects) && !Says(GreaterT, a, b, objects))
  {
    hide Says;
    ComparisonIs(GreaterT, a, b, objects);
    ComparisonIs(LessT, a, b, objects);
    ComparisonIs(LessT, b, a, objects);
    ComparisonIs(GreaterEqualT, a, b, objects);
    ComparisonIs(LessEqualT, a, b, objects);
    ComparisonIs(EqualToT, a, b, objects);
    ComparisonIs(NotEqualToT, a, b, objects);
  }

  // ---------- equality ----------

  /** Equality is symmetric, and not transitive where a boolean stands between two different numbers. */
  lemma {:induction false} EqualityAlmostTransitive(a: Value, b: Value, c: Value)
    requires Equal(a, b) && Equal(b, c)
    ensures Equal(b, a) && Equal(a, a)
    ensures Equal(a, c) <==> !(a.NumberV? && b.BoolV? && c.NumberV? && a.number != c.number)
  {
  }

  // ---------- writing and reading ----------

  /** The value a name reads as; `null` where it is not bound. */
  function Read(s: State, n: string): Value
    requires Sound(s)
  {
    match Binder(s.scopes, s.env, n)
    case Some(k) => s.scopes[k].vars[n]
    case None => NullV
  }

  lemma {:induction false} OtherNamesRead(s: State, n: string, v: Value, m: string)
    requires Sound(s) && m != n
    ensures Read(Assigned(s, n, v), m) == Read(s, m)
  {
    OtherNamesResolve(s.scopes, Assigned(s, n, v).scopes, s.env, Home(s, n), m);
  }

  lemma {:induction false} OtherNamesResolve(scopes: seq<Scope>, bound: seq<Scope>, at: nat, home: nat, m: string)
    requires Chained(scopes) && Chained(bound) && at < |scopes| == |bound| && home < |scopes|
    requires forall k :: 0 <= k < |scopes| ==> bound[k].parent == scopes[k].parent && (k != home ==> bound[k] == scopes[k])
    requires m in bound[home].vars <==> m in scopes[home].vars
    ensures Binder(bound, at, m) == Binder(scopes, at, m)
    decreases at
  {
    if m !in scopes[at].vars && scopes[at].parent.Some? {
      OtherNamesResolve(scopes, bound, scopes[at].parent.value, home, m);
    }
  }

  /** What `n[j]` gives after `v` was stored at `k`. */
  function ItemAfter(items: seq<Value>, k: nat, v: Value, j: int): Option<Value> {
    if j < 0 then None
    else if j == k then Some(v)
    else if j < |items| then Some(items[j])
    else if j < k then Some(NumberV(0.0))
    else None
  }

  /** `n[p]` reads as it does after `v` was stored at `k` in a list of these items. */
  ghost predicate ReadsAfter(h: Host, n: string, items: seq<Value>, k: nat, v: Value, t: State, fuel: nat, p: real)
    requires Sound(t)
  {
    Evaluate(h, Index(Variable(n), Number(p)), t, fuel) ==
    match ItemAfter(items, k, v, Truncate(p))
    case Some(w) => Done(w, t)
    case None => Refuse(t)
  }

  /**
   * After `n[q] = x` the list reads as `x` there and as before elsewhere, with zeros where it had to grow,
   * and every other variable reads as before, even if it held the same list. A negative index is refused.
   */
  lemma {:induction false} ListStoreReads(h: Host, n: string, q: real, x: Expr, s: State, fuel: nat)
    requires Sound(s)
    requires var d := Evaluate(h, x, s, fuel); d.Done? && Read(d.state, n).ListV?
    ensures var d := Evaluate(h, x, s, fuel);
            var items := Read(d.state, n).items;
            var r := Evaluate(h, IndexAssign(Variable(n), Number(q), x), s, fuel);
            if Truncate(q) < 0 then r == Refuse(d.state)
            else
              && r.Done? && r.result == d.result && r.state == d.state.(scopes := r.state.scopes)
              && (forall p: real :: ReadsAfter(h, n, items, Truncate(q), d.result, r.state, fuel, p))
              && forall m: string | m != n :: Read(r.state, m) == Read(d.state, m)
  {
    hide Truncate, Framed;
    var d := Evaluate(h, x, s, fuel);
    var e := IndexAssign(Variable(n), Number(q), x);
    var items := Read(d.state, n).items;
    assert Evaluate(h, e, s, fuel) == EvaluateIndexAssign(h, e, s, fuel);
    if Truncate(q) < 0 {
      assert AssignIndex(h, e, d.result, d.state, fuel) == Refuse(d.state);
    } else {
      var list := ListV(Stored(items, Truncate(q), d.result));
      var t := Assigned(d.state, n, list);
      assert AssignIndex(h, e, d.result, d.state, fuel) == Done(d.result, t);
      AssignsNearest(d.state, n, list);
      forall p: real
        ensures ReadsAfter(h, n, items, Truncate(q), d.result, t, fuel, p)
      {
        var i := Index(Variable(n), Number(p));
        assert Evaluate(h, i, t, fuel) == EvaluateIndex(h, i, t, fuel);
        assert EvaluateIndex(h, i, t, fuel) == Element(list, NumberV(p), t);
      }
      forall m: string | m != n
        ensures Read(t, m) == Read(d.state, m)
      {
        OtherNamesRead(d.state, n, list, m);
      }
    }
  }

  /**
   * After `n.key = x` every variable that holds the same dictionary reads `x` there. If the right-hand side
   * had given `n` another value, `n` holds the dictionary again.
   */
  lemma {:induction false} DictionariesAreShared(h: Host, n: string, m: string, key: string, x: Expr, s: State, fuel: nat)
    requires Sound(s) && Read(s, n).ObjectV?
    requires var d := Evaluate(h, x, s, fuel);
             && d.Done? && Read(s, n).at < |d.state.objects| && Binder(d.state.scopes, d.state.env, n).Some?
             && (m == n || Read(d.state, m) == Read(s, n))
    ensures var d := Evaluate(h, x, s, fuel);
            var o := Read(s, n).at;
            var r := Evaluate(h, DictAssign(Variable(n), key, x), s, fuel);
            && r.Done? && r.result == d.result
            && r.state.objects == d.state.objects[o := d.state.objects[o][key := d.result]]
            && Read(r.state, n) == Read(s, n)
            && Evaluate(h, Dot(Variable(m), key), r.state, fuel) == Done(d.result, r.state)
  {
    hide Binder, Assigned;
    var d := Evaluate(h, x, s, fuel);
    var o := Read(s, n).at;
    var u := SetObject(d.state, o, key, d.result);
    var t := Assigned(u, n, ObjectV(o));
    DictionaryAssigned(h, n, key, x, s, fuel);
    AssignsNearest(u, n, ObjectV(o));
    assert Read(t, n) == ObjectV(o) by { hide Evaluate; }
    if m != n {
      OtherNamesRead(u, n, ObjectV(o), m);
    }
    DictionaryReads(h, m, key, t, fuel);
  }

  lemma {:induction false} DictionaryAssigned(h: Host, n: string, key: string, x: Expr, s: State, fuel: nat)
    requires Sound(s) && Read(s, n).ObjectV?
    requires var d := Evaluate(h, x, s, fuel);
             d.Done? && Read(s, n).at < |d.state.objects| && Binder(d.state.scopes, d.state.env, n).Some?
    ensures var d := Evaluate(h, x, s, fuel);
            var o := Read(s, n).at;
            Evaluate(h, DictAssign(Variable(n), key, x), s, fuel) ==
            Done(d.result, Assigned(SetObject(d.state, o, key, d.result), n, ObjectV(o)))
  {
    hide Binder, Framed;
    var e := DictAssign(Variable(n), key, x);
    assert Evaluate(h, e, s, fuel) == EvaluateDictAssign(h, e, s, fuel);
    assert Evaluate(h, Variable(n), s, fuel) == Done(Read(s, n), s);
  }

  lemma {:induction false} DictionaryReads(h: Host, m: string, key: string, t: State, fuel: nat)
    requires Sound(t) && Read(t, m).ObjectV? && Read(t, m).at < |t.objects| && key in t.objects[Read(t, m).at]
    ensures Evaluate(h, Dot(Variable(m), key), t, fuel) == Done(t.objects[Read(t, m).at][key], t)
  {
    hide Binder;
    assert Evaluate(h, Variable(m), t, fuel) == Done(Read(t, m), t);
  }

  // ---------- a dictionary inside itself ----------

  /** `n = {}`, `n.key = n`, `print n` */
  function InsideItself(n: string, key: string): seq<Stmt> {
    [ExprStmt(Assign(n, Dict([]))), ExprStmt(DictAssign(Variable(n), key, Variable(n))), Print(Variable(n))]
  }

  lemma {:induction false} SelfIsKnot(o: nat, key: string, objects: seq<Record>)
    requires o < |objects| && key in objects[o] && objects[o][key] == ObjectV(o)
    ensures Knotted(ObjectV(o), objects)
  {
    assert Mentions(objects[o][key], o);
    assert Edge(objects, o, o);
    assert IsKnot(ObjectV(o), objects, [o, o], 0);
  }

  lemma {:induction false} Made(h: Host, n: string, s: State, fuel: nat)
    requires Sound(s)
    ensures var t := s.(objects := s.objects + [map[]]);
            Execute(h, ExprStmt(Assign(n, Dict([]))), s, fuel) ==
            Done(ObjectV(|s.objects|), Assigned(t, n, ObjectV(|s.objects|)))
  {
    hide Assigned;
    var d := Dict([]);
    assert EvaluatePairs(h, [], map[], s, fuel) == Done(map[], s);
    assert Evaluate(h, d, s, fuel) == Done(ObjectV(|s.objects|), s.(objects := s.objects + [map[]]));
  }

  /** Printing a dictionary that was put into itself never comes back, from whatever state, with whatever fuel. */
  lemma {:induction false} InsideItselfNeverPrints(h: Host, n: string, key: string, s: State, fuel: nat)
    requires Sound(s) && Orderly(h)
    ensures Run(h, InsideItself(n, key), s, fuel).Endless?
  {
    hide Assigned, Evaluate, Text;
    var o := |s.objects|;
    var program := InsideItself(n, key);
    var t := Assigned(s.(objects := s.objects + [map[]]), n, ObjectV(o));
    Made(h, n, s, fuel);
    AssignsNearest(s.(objects := s.objects + [map[]]), n, ObjectV(o));
    ReadIs(t, n, ObjectV(o));
    VariableReads(h, n, t, fuel);
    DictionaryAssigned(h, n, key, Variable(n), t, fuel);
    var u := Assigned(SetObject(t, o, key, ObjectV(o)), n, ObjectV(o));
    AssignsNearest(SetObject(t, o, key, ObjectV(o)), n, ObjectV(o));
    ReadIs(u, n, ObjectV(o));
    VariableReads(h, n, u, fuel);
    SelfIsKnot(o, key, u.objects);
    RenderingEnds(h, ObjectV(o), u.objects);
    assert program[1..][0] == program[1] && program[1..][1..] == [program[2]];
    assert Execute(h, program[1], t, fuel) == Done(ObjectV(o), u);
    assert Execute(h, program[2], u, fuel) == Endless(ObjectV(o), u.objects);
    assert ExecuteAll(h, [program[2]], ObjectV(o), u, fuel) == Endless(ObjectV(o), u.objects);
    assert ExecuteAll(h, program[1..], ObjectV(o), t, fuel) == Endless(ObjectV(o), u.objects);
  }

  lemma {:induction false} ReadIs(s: State, n: string, v: Value)
    requires Sound(s) && v != NullV && ReadVariable(n, s) == Done(v, s)
    ensures Read(s, n) == v && Binder(s.scopes, s.env, n).Some?
  {
  }

  lemma {:induction false} VariableReads(h: Host, n: string, s: State, fuel: nat)
    requires Sound(s) && Read(s, n) != NullV
    ensures Evaluate(h, Variable(n), s, fuel) == Done(Read(s, n), s)
  {
  }

  /** Neither does putting such a value next to a string, or using it as the key of a dictionary. */
  lemma {:induction false} KnotsNeverRender(h: Host, text: string, v: Value, o: Expr, at: nat, x: Value, s: State)
    requires Sound(s) && Orderly(h) && Knotted(v, s.objects)
    ensures Operate(h, PlusT, StringV(text), v, s).Endless? && Operate(h, PlusT, v, StringV(text), s).Endless?
    ensures StoreCopy(h, o, ObjectV(at), v, x, s).Endless?
  {
    RenderingEnds(h, v, s.objects);
    hide Text, Knotted;
  }

  // ---------- parameters ----------

  ghost predicate IsLast(params: seq<string>, i: nat)
    requires i < |params|
  {
    forall j :: i < j < |params| ==> params[j] != params[i]
  }

  function Argument(args: seq<Value>, i: nat): Value {
    if i < |args| then args[i] else NullV
  }

  /** A parameter holds the argument in its place, the last one if it is named twice; other names keep their value. */
  lemma {:induction false} ParametersHoldArguments(vars: Record, params: seq<string>, args: seq<Value>)
    ensures var r := BindParams(vars, params, args);
      && (forall i: nat :: i < |params| && IsLast(params, i) ==> params[i] in r && r[params[i]] == Argument(args, i))
      && (forall m :: m !in params ==> (m in r <==> m in vars) && (m in r ==> r[m] == vars[m]))
    decreases |params|
  {
    if params != [] {
      var v := Argument(args, 0);
      var rest := if args == [] then [] else args[1..];
      var more := vars[params[0] := v];
      ParametersHoldArguments(more, params[1..], rest);
      var r := BindParams(vars, params, args);
      assert r == BindParams(more, params[1..], rest);
      forall i: nat | i < |params| && IsLast(params, i)
        ensures params[i] in r && r[params[i]] == Argument(args, i)
      {
        if i > 0 {
          assert params[1..][i - 1] == params[i];
          assert IsLast(params[1..], i - 1) by {
            assert forall j :: i - 1 < j < |params[1..]| ==> params[1..][j] == params[j + 1];
          }
          assert Argument(rest, i - 1) == Argument(args, i);
        } else {
          assert params[0] !in params[1..];
        }
      }
    }
  }

  // ---------- loops ----------

  /** One evaluation of the condition and one turn of the body keep the invariant. */
  ghost predicate TurnKeeps(h: Host, st: Stmt, inv: State -> bool, s: State, fuel: nat)
    requires Sound(s) && st.While?
  {
    var d := Evaluate(h, st.condition, s, fuel);
    d.Done? && Truthy(d.result, d.state.objects) && fuel > 0 ==>
      var l := RunBlock(h, st.body, map[], d.state, fuel - 1);
      l.Done? ==> inv(l.state)
  }

  /** The state the condition was evaluated in for the last time. */
  ghost predicate LeftFrom(h: Host, st: Stmt, inv: State -> bool, t: State, fuel: nat, end: State)
    requires st.While?
  {
    && Sound(t) && inv(t)
    && var d := Evaluate(h, st.condition, t, fuel);
    d.Done? && d.state == end && !Truthy(d.result, end.objects)
  }

  /** The rule for `while`: what every turn keeps holds where the condition is found false at last. */
  lemma {:induction false} WhileRule(h: Host, st: Stmt, inv: State -> bool, s: State, fuel: nat)
    requires Sound(s) && st.While? && inv(s)
    requires forall t: State, k: nat :: Sound(t) && inv(t) ==> TurnKeeps(h, st, inv, t, k)
    ensures var r := Execute(h, st, s, fuel);
            r.Done? ==> exists t: State, k: nat :: LeftFrom(h, st, inv, t, k, r.state)
    decreases fuel
  {
    hide Truthy, RunBlock;
    assert Execute(h, st, s, fuel) == WhileLoop(h, st, s, fuel);
    var d := Evaluate(h, st.condition, s, fuel);
    if d.Done? {
      if !Truthy(d.result, d.state.objects) {
        assert LeftFrom(h, st, inv, s, fuel, d.state);
      } else if fuel > 0 {
        var l := RunBlock(h, st.body, map[], d.state, fuel - 1);
        assert TurnKeeps(h, st, inv, s, fuel);
        if l.Done? {
          assert Execute(h, st, l.state, fuel - 1) == WhileLoop(h, st, l.state, fuel - 1);
          WhileRule(h, st, inv, l.state, fuel - 1);
        }
      }
    }
  }
}
