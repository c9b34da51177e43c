/** Where `super` leads, and when an instantiation that uses it ends. */
module SuperCalls {
  import opened Options
  import opened Ast
  import opened Values
  import opened Environments
  import opened Classes
  import opened Evaluation
  import opened Laws
  import opened Escapes
  import opened Visits
  import ClassGraph
  import Termination

  // ---------- the class `super` refers to ----------

  /** The class registered under the name has the same parent as `k`; where there is none, `k` has no parent. */
  predicate SameParent(s: State, name: string, k: nat)
    requires Sound(s) && k < |s.classes|
  {
    if name != "" && name in s.registry then s.classes[s.registry[name]].parent == s.classes[k].parent
    else s.classes[k].parent.None?
  }

  lemma {:induction false} SuperLeads(h: Host, args: seq<Expr>, s: State, fuel: nat)
    requires Sound(s)
    ensures Evaluate(h, Super(args), s, fuel) ==
            match ParentOfCurrent(s)
            case None => Refuse(s)
            case Some(p) => EvaluateSuper(h, args, p, s, fuel)
  {
    hide EvaluateSuper, Framed, Linked, Solid, Chained, Registered;
  }

  /** The last class of that name has been declared since `s`. */
  ghost predicate DeclaredSince(s: State, u: State, name: string) {
    name in u.registry && |s.classes| <= u.registry[name]
  }

  /**
   * Until a class is declared `super` refers to the same class. The current class never becomes another one that
   * was there before.
   */
  lemma {:induction false} CurrentClass(s: State, u: State, open: nat)
    requires Sound(s) && Sound(u) && Kept(s, u, open)
    ensures |u.classes| == |s.classes| ==> u.current == s.current && ParentOfCurrent(u) == ParentOfCurrent(s)
    ensures u.current == s.current || u.current == "" || DeclaredSince(s, u, u.current)
  {
    hide Linked, Solid, Chained;
    if |u.classes| == |s.classes| && s.current != "" {
      SameRegistry(s, u, open, s.current);
    } else if u.current != s.current && u.current != "" {
      var k :| |s.classes| <= k < |u.classes| && u.classes[k].name == u.current;
    }
  }

  lemma {:induction false} SameRegistry(s: State, u: State, open: nat, n: string)
    requires Sound(s) && Sound(u) && Kept(s, u, open) && |u.classes| == |s.classes|
    ensures n in s.registry <==> n in u.registry
    ensures n in s.registry ==> u.registry[n] == s.registry[n] && u.classes[s.registry[n]].parent == s.classes[s.registry[n]].parent
  {
    hide Linked, Solid, Chained;
    if n in s.registry {
      var k := s.registry[n];
      assert SameHead(s.classes[k], u.classes[k]);
    }
    if n in u.registry {
      var k := u.registry[n];
      assert SameHead(s.classes[k], u.classes[k]);
    }
  }

  /** The class whose constructor is run for an instance of `c`. */
  function Owner(c: nat, s: State): (k: nat)
    requires Sound(s) && c < |s.classes|
    ensures k < |s.classes|
  {
    if Constructor(s.classes[c]).None? && s.classes[c].parent.Some? then s.classes[c].parent.value else c
  }

  /** A call of `super`, met somewhere in the constructor that is run for an instance of `c`. */
  ghost predicate MetInConstructor(h: Host, c: nat, args: seq<Value>, s: State, fuel: nat, v: Visit)
    requires Sound(s) && c < |s.classes|
  {
    && v.expr.Super?
    && ClassGraph.Chosen(c, s).Some?
    && var (code, t) := ClassGraph.Chosen(c, s).value;
       && code.closure < |s.scopes|
       && var vars := BindParams(Receiver(InstanceV(|s.instances|)), code.params, args);
          MeetsBody(h, code.body, NullV, Enter(t, vars, code.closure), fuel, v)
  }

  /**
   * Wherever `super` is met in the constructor of an instantiation: as long as no class has been declared since,
   * it leads to the parent of the class whose constructor runs exactly if the last class declared under the name
   * that was current at the start has the same parent. For a constructor of its own that is the name of the class,
   * for an inherited one the class the instantiation was met in. Later on the current class is still that one, or
   * none, and `super` is refused, or one declared since.
   */
  lemma {:induction false} SuperInConstructor(h: Host, c: nat, args: seq<Value>, s: State, fuel: nat, v: Visit)
    requires Sound(s) && c < |s.classes| && MetInConstructor(h, c, args, s, fuel, v)
    ensures Sound(v.state) && |s.classes| <= |v.state.classes|
    ensures var (k, u) := (Owner(c, s), v.state);
            var name := if Constructor(s.classes[c]).Some? then s.classes[c].name else s.current;
            && (|u.classes| == |s.classes| ==> (ParentOfCurrent(u) == s.classes[k].parent <==> SameParent(s, name, k)))
            && (u.current == name || u.current == "" || DeclaredSince(s, u, u.current))
            && (u.current == "" ==> Evaluate(h, v.expr, u, v.fuel) == Refuse(u))
  {
    hide MeetsBody, Linked, Solid, Chained, Registered, Evaluate;
    var (code, t) := ClassGraph.Chosen(c, s).value;
    var body := Enter(t, BindParams(Receiver(InstanceV(|s.instances|)), code.params, args), code.closure);
    assert Sound(v.state) && Framed(body, v.state);
    CurrentClass(body, v.state, |s.classes|);
    SuperLeads(h, v.expr.args, v.state, v.fuel);
  }

  /**
   * In a constructor called by `super`: until a class is declared it leads to the same class again, so to the parent
   * of the class whose constructor runs exactly if that class is its own parent.
   */
  lemma {:induction false} SuperInCalledConstructor(h: Host, xs: seq<Expr>, s: State, fuel: nat, v: Visit)
    requires Sound(s) && ParentOfCurrent(s).Some? && EvaluateAll(h, xs, [], s, fuel + 1).Done?
    requires var a := EvaluateAll(h, xs, [], s, fuel + 1);
             var code := Constructor(a.state.classes[ParentOfCurrent(s).value]);
             && code.Some? && code.value.closure < |a.state.scopes| && v.expr.Super?
             && var vars := BindParams(Inherited(a.state), code.value.params, a.result);
                MeetsBody(h, code.value.body, NullV, Enter(a.state, vars, code.value.closure), fuel, v)
    ensures Sound(v.state) && |s.classes| <= |v.state.classes|
    ensures var (p, u) := (ParentOfCurrent(s).value, v.state);
            |u.classes| == |s.classes| ==>
              && ParentOfCurrent(u) == Some(p)
              && (ParentOfCurrent(u) == s.classes[p].parent <==> s.classes[p].parent == Some(p))
  {
    hide MeetsBody, Linked, Solid, Chained, Registered, EvaluateAll;
    var a := EvaluateAll(h, xs, [], s, fuel + 1);
    var code := Constructor(a.state.classes[ParentOfCurrent(s).value]).value;
    var body := Enter(a.state, BindParams(Inherited(a.state), code.params, a.result), code.closure);
    assert Sound(v.state) && Framed(body, v.state);
    Onward(s, a.state);
    CurrentClass(s, v.state, |s.classes|);
  }

  // ---------- classes declared on the way ----------

  /** Behind a class `super` is refused. */
  lemma {:induction false} RefusedBehindAClass(h: Host, st: Stmt, xs: seq<Expr>, s: State, fuel: nat)
    requires Sound(s) && st.ClassDecl? && Execute(h, st, s, fuel).Done?
    ensures var t := Execute(h, st, s, fuel).state; t.current == "" && Evaluate(h, Super(xs), t, fuel) == Refuse(t)
  {
    hide Evaluate, ClassBody, OpenClass, CloseClass, Linked, Solid, Chained, Registered;
    OtherStatements(h, st, s, fuel);
    var t := Execute(h, st, s, fuel).state;
    assert t.current == "";
    SuperLeads(h, xs, t, fuel);
  }

  lemma {:induction false} OpenedIsDeclared(s: State, n: string, p: string, impls: seq<string>, u: State)
    requires Sound(s) && Sound(u) && Kept(OpenClass(s, n, p, impls), u, |s.classes|)
    ensures u.current == "" || DeclaredSince(s, u, u.current)
  {
    hide Linked, Solid, Chained;
    var t := OpenClass(s, n, p, impls);
    assert t.current == n && t.classes[|s.classes|].name == n;
    assert SameHead(t.classes[|s.classes|], u.classes[|s.classes|]);
    CurrentClass(t, u, |s.classes|);
  }

  /**
   * A class declared on the way is never followed by the class before it as current one: behind its end there is
   * none, and `super` is refused; a `return` out of it leaves none or one declared since.
   */
  lemma {:induction false} ClassForgetsTheCurrentOne(h: Host, st: Stmt, xs: seq<Expr>, s: State, fuel: nat)
    requires Sound(s) && st.ClassDecl?
    ensures var r := Execute(h, st, s, fuel);
            && (r.Done? ==> r.state.current == "" && Evaluate(h, Super(xs), r.state, fuel) == Refuse(r.state))
            && (r.Returned? ==> r.state.current == "" || DeclaredSince(s, r.state, r.state.current))
  {
    hide Execute, Evaluate, ClassBody, OpenClass, CloseClass, Linked, Solid, Chained, Registered;
    OtherStatements(h, st, s, fuel);
    var r := Execute(h, st, s, fuel);
    if r.Done? {
      RefusedBehindAClass(h, st, xs, s, fuel);
    } else if r.Returned? {
      var t := OpenClass(s, st.name, st.parentClass, st.implementsClasses);
      assert r == ClassBody(h, st.body, |s.classes|, st.name, t, fuel);
      OpenedIsDeclared(s, st.name, st.parentClass, st.implementsClasses, r.state);
    }
  }

  // ---------- constructors that begin with `super` ----------

  /** Evaluating these arguments changes nothing but the count of diagnostics. */
  predicate Plain(e: Expr) {
    e.Number? || e.Str? || e.Bool? || e.Null? || e.Variable?
  }

  lemma {:induction false} PlainArguments(h: Host, es: seq<Expr>, found: seq<Value>, s: State, fuel: nat)
    requires Sound(s) && forall k :: 0 <= k < |es| ==> Plain(es[k])
    ensures var r := EvaluateAll(h, es, found, s, fuel); r.Done? && r.state == s.(errors := r.state.errors)
    decreases |es|
  {
    if es != [] {
      var d := Evaluate(h, es[0], s, fuel);
      PlainArguments(h, es[1..], found + [d.result], d.state, fuel);
    }
  }

  predicate BeginsWithSuper(code: Code) {
    && code.body != []
    && code.body[0].ExprStmt? && code.body[0].expr.Super?
    && forall k :: 0 <= k < |code.body[0].expr.args| ==> Plain(code.body[0].expr.args[k])
  }

  /** The class has a constructor, which can be called and begins with a call of `super`. */
  ghost predicate CallsSuper(s: State, c: nat)
    requires c < |s.classes|
  {
    var code := Constructor(s.classes[c]);
    code.Some? && BeginsWithSuper(code.value) && code.value.closure < |s.scopes|
  }

  /** A body that begins with `super` ends only if the call of the parent does. */
  lemma {:induction false} SuperComesFirst(h: Host, code: Code, vars: Record, s: State, p: nat, fuel: nat)
    requires Sound(s) && BeginsWithSuper(code) && code.closure < |s.scopes| && ParentOfCurrent(s) == Some(p)
    ensures var inner := Enter(s, vars, code.closure);
            var a := EvaluateAll(h, code.body[0].expr.args, [], inner, fuel);
            && a.Done? && a.state == inner.(errors := a.state.errors)
            && (CallParent(h, p, a.result, a.state, fuel).Timeout? ==> Apply(h, code, vars, s, fuel + 1).Timeout?)
  {
    hide CallParent, Plain, EvaluateAll;
    var e := code.body[0].expr;
    var inner := Enter(s, vars, code.closure);
    PlainArguments(h, e.args, [], inner, fuel);
    assert ParentOfCurrent(inner) == Some(p);
    assert Evaluate(h, e, inner, fuel) == EvaluateSuper(h, e.args, p, inner, fuel);
    assert Execute(h, code.body[0], inner, fuel) == Evaluate(h, e, inner, fuel);
  }

  /**
   * `super` refers to the class of the instance, not to the class the running constructor belongs to. Where
   * the constructor of the parent calls `super` in turn it calls itself, for ever.
   */
  lemma {:induction false} SuperInParentNeverEnds(h: Host, p: nat, args: seq<Value>, s: State, fuel: nat)
    requires Sound(s) && p < |s.classes| && ParentOfCurrent(s) == Some(p) && CallsSuper(s, p)
    ensures CallParent(h, p, args, s, fuel).Timeout?
    decreases fuel
  {
    hide EvaluateAll, ExecuteAll, Plain, Linked, Solid, Chained, Registered;
    var code := Constructor(s.classes[p]).value;
    var vars := BindParams(Inherited(s), code.params, args);
    if fuel > 0 {
      SuperComesFirst(h, code, vars, s, p, fuel - 1);
      var a := EvaluateAll(h, code.body[0].expr.args, [], Enter(s, vars, code.closure), fuel - 1);
      SuperInParentNeverEnds(h, p, a.result, a.state, fuel - 1);
    }
  }

  // ---------- constructors that come to `super` ----------

  /** Statement `k` of the body is a call of `super`, and no `return` stands in front of it. */
  predicate ComesToSuper(code: Code, k: nat) {
    k < |code.body| && code.body[k].ExprStmt? && code.body[k].expr.Super? && !AnyReturns(code.body[..k])
  }

  /** Whatever its statements and arguments do: such a body ends only if the call of the parent ends. */
  lemma {:induction false} BodyCallsParent(h: Host, code: Code, vars: Record, s: State, fuel: nat, k: nat, p: nat)
    returns (u: State, args: seq<Value>)
    requires Sound(s) && ComesToSuper(code, k) && ParentOfCurrent(s) == Some(p)
    requires var r := Apply(h, code, vars, s, fuel); r.Done? && |r.state.classes| == |s.classes|
    ensures fuel > 0 && Sound(u) && u.classes == s.classes && ParentOfCurrent(u) == Some(p)
    ensures var r := CallParent(h, p, args, u, fuel - 1); r.Done? && |r.state.classes| == |s.classes|
  {
    hide ExecuteAll, CallParent, EvaluateAll, Linked, Solid, Chained, Registered, AnyReturns;
    assert fuel > 0 && code.closure < |s.scopes|;
    var inner := Enter(s, vars, code.closure);
    var t := BodyReaches(h, code.body, NullV, inner, fuel - 1, k);
    var xs := code.body[k].expr.args;
    assert Execute(h, code.body[k], t, fuel - 1) == Evaluate(h, Super(xs), t, fuel - 1);
    Onward(inner, t);
    CurrentClass(inner, t, |s.classes|);
    SuperLeads(h, xs, t, fuel - 1);
    var a := EvaluateAll(h, xs, [], t, fuel - 1);
    CurrentClass(t, a.state, |s.classes|);
    u, args := a.state, a.result;
  }

  /**
   * A constructor called by `super` that comes to `super` itself calls itself: it never ends, unless a class is
   * declared meanwhile.
   */
  lemma {:induction false} SuperInParentIsForEver(h: Host, p: nat, args: seq<Value>, s: State, fuel: nat, k: nat)
    requires Sound(s) && p < |s.classes| && ParentOfCurrent(s) == Some(p)
    requires Constructor(s.classes[p]).Some? && ComesToSuper(Constructor(s.classes[p]).value, k)
    ensures var r := CallParent(h, p, args, s, fuel); r.Done? ==> |s.classes| < |r.state.classes|
    decreases fuel
  {
    hide ComesToSuper, Apply, Linked, Solid, Chained, Registered;
    var r := CallParent(h, p, args, s, fuel);
    if r.Done? && |r.state.classes| == |s.classes| {
      var code := Constructor(s.classes[p]).value;
      var u, more := BodyCallsParent(h, code, BindParams(Inherited(s), code.params, args), s, fuel, k, p);
      SuperInParentIsForEver(h, p, more, u, fuel - 1, k);
    }
  }

  /**
   * Two levels of `super`: a class cannot be instantiated if its constructor comes to `super` and so does the one
   * that leads to, unless a class is declared meanwhile.
   */
  lemma {:induction false} TwoLevelsAreForEver(h: Host, c: nat, args: seq<Value>, s: State, fuel: nat, j: nat, k: nat)
    requires Sound(s) && c < |s.classes| && Constructor(s.classes[c]).Some? && ComesToSuper(Constructor(s.classes[c]).value, j)
    requires Target(c, s).Some? && Constructor(s.classes[Target(c, s).value]).Some?
    requires ComesToSuper(Constructor(s.classes[Target(c, s).value]).value, k)
    ensures var r := Instantiate(h, c, args, s, fuel); r.Done? ==> |s.classes| < |r.state.classes|
  {
    hide ComesToSuper, Apply, ChainEnds, Linked, Solid, Chained, Registered;
    var r := Instantiate(h, c, args, s, fuel);
    if r.Done? && |r.state.classes| == |s.classes| {
      var code := Constructor(s.classes[c]).value;
      var t := s.(instances := s.instances + [Instance(c, map[])]).(current := s.classes[c].name);
      var vars := BindParams(Receiver(InstanceV(|s.instances|)), code.params, args);
      var p := Target(c, s).value;
      var u, more := BodyCallsParent(h, code, vars, t, fuel, j, p);
      SuperInParentIsForEver(h, p, more, u, fuel - 1, k);
    }
  }

  /** The class `super` leads to in the constructor of `c` itself. */
  function Target(c: nat, s: State): (r: Option<nat>)
    requires Sound(s) && c < |s.classes|
    ensures r.Some? ==> r.value < |s.classes|
  {
    ParentOfCurrent(s.(current := s.classes[c].name))
  }

  /** The constructor of the class ends by itself, if it has one: it contains no call, no `super` and no `while`. */
  predicate EndsByItself(s: State, c: nat)
    requires c < |s.classes|
  {
    match Constructor(s.classes[c])
    case None => true
    case Some(code) => code.closure < |s.scopes| && Termination.AllStraightStmts(code.body, true)
  }

  /** A class cannot be used if its constructor begins with `super`, and so does the one `super` leads to. */
  lemma {:induction false} TwoLevelsOfSuperNeverEnd(h: Host, c: nat, args: seq<Value>, s: State, fuel: nat)
    requires Sound(s) && c < |s.classes| && CallsSuper(s, c)
    requires Target(c, s).Some? && CallsSuper(s, Target(c, s).value)
    ensures Instantiate(h, c, args, s, fuel).Timeout?
  {
    hide ChainEnds, EvaluateAll, Apply, Plain;
    var d := s.classes[c];
    var p := Target(c, s).value;
    var code := Constructor(d).value;
    var t := s.(instances := s.instances + [Instance(c, map[])]).(current := d.name);
    var vars := BindParams(Receiver(InstanceV(|s.instances|)), code.params, args);
    assert ParentOfCurrent(t) == Some(p);
    if fuel > 0 {
      SuperComesFirst(h, code, vars, t, p, fuel - 1);
      var a := EvaluateAll(h, code.body[0].expr.args, [], Enter(t, vars, code.closure), fuel - 1);
      SuperInParentNeverEnds(h, p, a.result, a.state, fuel - 1);
    } else {
      assert Apply(h, code, vars, t, fuel).Timeout? by { NoFuel(h, code, vars, t); }
    }
  }

  lemma {:induction false} NoFuel(h: Host, code: Code, vars: Record, s: State)
    requires Sound(s)
    ensures Apply(h, code, vars, s, 0).Timeout?
  {
  }

  // ---------- constructors that come to an end ----------

  lemma {:induction false} CallParentEnds(h: Host, p: nat, args: seq<Value>, s: State, fuel: nat)
    requires Sound(s) && Grounded(s.classes) && p < |s.classes| && EndsByItself(s, p) && fuel > 0
    ensures var r := CallParent(h, p, args, s, fuel); !r.Timeout? && (r.Done? ==> Grounded(r.state.classes))
  {
    hide ExecuteAll, Grounded, Linked, Solid, Chained, Registered, Framed;
    if Constructor(s.classes[p]).Some? {
      var code := Constructor(s.classes[p]).value;
      var vars := BindParams(Inherited(s), code.params, args);
      Termination.BodyEnds(h, code.body, NullV, Enter(s, vars, code.closure), fuel - 1, true);
    }
  }

  /** The first statement of such a constructor. */
  lemma {:induction false} SuperIsCall(h: Host, code: Code, s: State, fuel: nat)
    requires Sound(s) && BeginsWithSuper(code)
    ensures var e := code.body[0].expr;
            var a := EvaluateAll(h, e.args, [], s, fuel);
            && a.Done? && a.state == s.(errors := a.state.errors)
            && Execute(h, code.body[0], s, fuel) ==
               match ParentOfCurrent(s)
               case None => Refuse(s)
               case Some(p) => CallParent(h, p, a.result, a.state, fuel)
  {
    hide EvaluateAll, CallParent, Plain;
    var e := code.body[0].expr;
    PlainArguments(h, e.args, [], s, fuel);
    SuperLeads(h, e.args, s, fuel);
    assert Execute(h, code.body[0], s, fuel) == Evaluate(h, e, s, fuel);
  }

  lemma {:induction false} BodyWithSuperEnds(h: Host, code: Code, s: State, fuel: nat)
    requires Sound(s) && Grounded(s.classes) && BeginsWithSuper(code) && fuel > 0
    requires Termination.AllStraightStmts(code.body[1..], true)
    requires ParentOfCurrent(s).Some? ==> EndsByItself(s, ParentOfCurrent(s).value)
    ensures !ExecuteAll(h, code.body, NullV, s, fuel).Timeout?
  {
    hide Execute, EvaluateAll, CallParent, Grounded, Plain;
    SuperIsCall(h, code, s, fuel);
    var a := EvaluateAll(h, code.body[0].expr.args, [], s, fuel);
    if ParentOfCurrent(s).Some? {
      CallParentEnds(h, ParentOfCurrent(s).value, a.result, a.state, fuel);
    }
    var d := Execute(h, code.body[0], s, fuel);
    if d.Done? {
      Termination.BodyEnds(h, code.body[1..], d.result, d.state, fuel, true);
    }
  }

  /**
   * A constructor begins with `super` and goes on without calls. Then instantiation never ends if the
   * constructor `super` leads to begins with `super` as well, and ends if that one has none.
   */
  lemma {:induction false} SuperEndsExactly(h: Host, c: nat, args: seq<Value>, s: State)
    requires Sound(s) && Grounded(s.classes) && c < |s.classes| && CallsSuper(s, c)
    requires Termination.AllStraightStmts(Constructor(s.classes[c]).value.body[1..], true)
    requires Target(c, s).Some? ==> CallsSuper(s, Target(c, s).value) || EndsByItself(s, Target(c, s).value)
    ensures (forall fuel: nat :: Instantiate(h, c, args, s, fuel).Timeout?)
            <==> Target(c, s).Some? && CallsSuper(s, Target(c, s).value)
  {
    hide Instantiate, BeginsWithSuper, ChainEnds;
    if Target(c, s).Some? && CallsSuper(s, Target(c, s).value) {
      forall fuel: nat ensures Instantiate(h, c, args, s, fuel).Timeout? {
        TwoLevelsOfSuperNeverEnd(h, c, args, s, fuel);
      }
    } else {
      InstantiateEnds(h, c, args, s);
    }
  }

  lemma {:induction false} InstantiateEnds(h: Host, c: nat, args: seq<Value>, s: State)
    requires Sound(s) && Grounded(s.classes) && c < |s.classes| && CallsSuper(s, c)
    requires Termination.AllStraightStmts(Constructor(s.classes[c]).value.body[1..], true)
    requires Target(c, s).Some? ==> EndsByItself(s, Target(c, s).value)
    ensures !Instantiate(h, c, args, s, 2).Timeout?
  {
    hide ExecuteAll, BeginsWithSuper, ChainEnds;
    var d := s.classes[c];
    var code := Constructor(d).value;
    var t := s.(instances := s.instances + [Instance(c, map[])]).(current := d.name);
    var vars := BindParams(Receiver(InstanceV(|s.instances|)), code.params, args);
    var body := Enter(t, vars, code.closure);
    ClassGraph.ParentChainEnds(s.classes, c);
    assert ParentOfCurrent(body) == Target(c, s);
    BodyWithSuperEnds(h, code, body, 1);
  }

  // ---------- the parent's constructor runs once ----------

  /** What a body that has been run gives its caller. */
  function CallEnd(s: State, r: Outcome<Value>): Outcome<Value>
  {
    match r
    case Timeout => Timeout
    case Endless(v, objects) => Endless(v, objects)
    case Dangling => Dangling
    case Crash => Crash
    case Returned(v, t) => Done(v, t.(env := s.env))
    case Done(v, t) => Done(v, t.(env := s.env))
  }

  lemma {:induction false} OwnConstructorRuns(h: Host, c: nat, args: seq<Value>, s: State, fuel: nat)
    requires Sound(s) && c < |s.classes| && ChainEnds(s.classes, c) && Constructor(s.classes[c]).Some?
    ensures var code := Constructor(s.classes[c]).value;
            var this_ := InstanceV(|s.instances|);
            var t := s.(instances := s.instances + [Instance(c, map[])]).(current := s.classes[c].name);
            var a := Apply(h, code, BindParams(Receiver(this_), code.params, args), t, fuel);
            Instantiate(h, c, args, s, fuel) == if a.Done? then Done(this_, a.state.(current := s.current)) else a
  {
    hide Apply, ChainEnds;
  }

  lemma {:induction false} ParentConstructorRuns(h: Host, p: nat, args: seq<Value>, s: State, fuel: nat)
    requires Sound(s) && p < |s.classes| && Constructor(s.classes[p]).Some?
    ensures var code := Constructor(s.classes[p]).value;
            var a := Apply(h, code, BindParams(Inherited(s), code.params, args), s, fuel);
            CallParent(h, p, args, s, fuel) == if a.Done? then Done(NullV, a.state) else a
  {
    hide Apply;
  }

  lemma {:induction false} InstanceIsInherited(v: Value, code: Code, args: seq<Value>, s: State)
    requires Sound(s) && code.closure < |s.scopes| && "this" !in code.params
    ensures Inherited(Enter(s, BindParams(Receiver(v), code.params, args), code.closure)) == Receiver(v)
  {
    hide Linked, Solid, Registered, Framed;
    ParametersHoldArguments(Receiver(v), code.params, args);
  }

  /**
   * Where the constructor `super` leads to has neither `super` nor calls: the arguments are evaluated, that
   * constructor runs, on the same instance, and then the rest of the body; no other constructor is run.
   */
  lemma {:induction false} ParentRunsOnce(h: Host, c: nat, args: seq<Value>, s: State, fuel: nat)
    requires Sound(s) && c < |s.classes| && CallsSuper(s, c) && ChainEnds(s.classes, c)
    requires Termination.AllStraightStmts(Constructor(s.classes[c]).value.body[1..], true)
    requires Target(c, s).Some? && EndsByItself(s, Target(c, s).value) && Constructor(s.classes[Target(c, s).value]).Some?
    requires "this" !in Constructor(s.classes[c]).value.params
    ensures var (code, parentCode) := (Constructor(s.classes[c]).value, Constructor(s.classes[Target(c, s).value]).value);
            var this_ := InstanceV(|s.instances|);
            var t := s.(instances := s.instances + [Instance(c, map[])]).(current := s.classes[c].name);
            var body := Enter(t, BindParams(Receiver(this_), code.params, args), code.closure);
            var a := EvaluateAll(h, code.body[0].expr.args, [], body, fuel);
            && a.Done? && Sound(a.state) && Inherited(a.state) == Receiver(this_)
            && var parent := Apply(h, parentCode, BindParams(Receiver(this_), parentCode.params, a.result), a.state, fuel);
               var r := Instantiate(h, c, args, s, fuel + 1);
               if !parent.Done? then r == parent
               else
                 var rest := ExecuteAll(h, code.body[1..], NullV, parent.state, fuel);
                 if rest.Done? || rest.Returned? then r == Done(this_, rest.state.(env := s.env, current := s.current))
                 else r == rest
  {
    hide Apply, Instantiate, CallParent, Execute, ExecuteAll, EvaluateAll, Plain, ChainEnds, BindParams, Framed;
    hide Linked, Solid, Chained, Registered;
    var (code, p) := (Constructor(s.classes[c]).value, Target(c, s).value);
    var this_ := InstanceV(|s.instances|);
    var t := s.(instances := s.instances + [Instance(c, map[])]).(current := s.classes[c].name);
    var vars := BindParams(Receiver(this_), code.params, args);
    var body := Enter(t, vars, code.closure);
    InstanceIsInherited(this_, code, args, t);
    SuperIsCall(h, code, body, fuel);
    assert ParentOfCurrent(body) == Some(p);
    var a := EvaluateAll(h, code.body[0].expr.args, [], body, fuel);
    assert Inherited(a.state) == Inherited(body);
    BodyUnfolds(h, code, vars, t, fuel);
    ParentConstructorRuns(h, p, a.result, a.state, fuel);
    OwnConstructorRuns(h, c, args, s, fuel + 1);
  }

  lemma {:induction false} BodyUnfolds(h: Host, code: Code, vars: Record, s: State, fuel: nat)
    requires Sound(s) && code.closure < |s.scopes| && code.body != []
    ensures var d := Execute(h, code.body[0], Enter(s, vars, code.closure), fuel);
            Apply(h, code, vars, s, fuel + 1) ==
            if d.Done? then CallEnd(s, ExecuteAll(h, code.body[1..], d.result, d.state, fuel)) else CallEnd(s, d)
  {
    hide Execute, Framed, Linked, Solid, Chained, Registered;
  }
}
