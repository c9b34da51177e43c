/** What `this` means inside a method. */
module Receivers {
  import opened Options
  import opened Ast
  import opened Values
  import opened Environments
  import opened Classes
  import opened Evaluation
  import opened Scoping
  import opened Laws
  import opened References

  // ---------- `this` ----------

  /** A function read off an instance: a copy whose closure is a new scope that binds the receiver. */
  lemma {:induction false} MethodIsBound(at: nat, p: string, s: State)
    requires Sound(s)
    ensures var r := Property(InstanceV(at), p, s);
            r.Done? && r.result.FunctionV? ==>
              && r.result.code.closure == |s.scopes|
              && |r.state.scopes| == |s.scopes| + 1 && r.state.scopes[|s.scopes|].vars == Receiver(InstanceV(at))
              && r.state == s.(scopes := s.scopes + [r.state.scopes[|s.scopes|]])
  {
    hide GetMethod, Receiver, Linked, Solid, Registered;
  }

  /** Nothing refers to the scope of the receiver yet. */
  lemma {:induction false} ReceiverScopeIsHidden(at: nat, p: string, s: State)
    requires Sound(s) && Whole(s, {}) && at < |s.instances|
    ensures var r := Property(InstanceV(at), p, s);
            r.Done? && r.result.FunctionV? ==>
              Whole(r.state, {|s.scopes|}) && r.state.scopes[|s.scopes|].vars == Receiver(InstanceV(at))
  {
    hide Property, Linked, Solid, Registered, RecordsRefer, ClassesRefer, InstancesRefer, RecordRefers;
    var r := Property(InstanceV(at), p, s);
    if r.Done? && r.result.FunctionV? {
      MethodIsBound(at, p, s);
      var z := SizesOf(r.state, {|s.scopes|});
      StoreMore(s, SizesOf(s, {}), z);
      ReceiverRefers(InstanceV(at), z);
      assert Chained(r.state.scopes);
    }
  }

  lemma {:induction false} ReceiverReads(f: nat, v: Value, s: State)
    requires Sound(s) && f < |s.scopes| && s.scopes[f].vars == Receiver(v)
    ensures Read(s.(env := f), "this") == v
  {
  }

  /** The state in which the body of a function is run with these arguments. */
  function BodyState(code: Code, args: seq<Value>, s: State): (t: State)
    requires Sound(s) && code.closure < |s.scopes|
    ensures Sound(t)
  {
    Enter(if |args| > |code.params| then Complain(s) else s, BindParams(Inherited(s), code.params, args), code.closure)
  }

  /** Whatever is bound in the scope the body was declared in: a `this` visible where the call is made comes first. */
  lemma {:induction false} ThisInBody(code: Code, args: seq<Value>, s: State)
    requires Sound(s) && code.closure < |s.scopes| && "this" !in code.params
    ensures Read(BodyState(code, args, s), "this") ==
            if Binder(s.scopes, s.env, "this").Some? then Read(s, "this") else Read(s.(env := code.closure), "this")
  {
    hide Linked, Solid, Registered;
    ParametersHoldArguments(Inherited(s), code.params, args);
    var body := BodyState(code, args, s);
    if Binder(s.scopes, s.env, "this").None? {
      ExtendedResolves(s.scopes, body.scopes, code.closure, "this");
    }
  }

  /**
   * Inside a method called as `object.method(..)` the name `this` reads as the object exactly if no other `this` is
   * visible where the call is made, behind the arguments: a method that calls one of another object hands on its
   * own. Nothing the arguments do reaches the scope of the receiver.
   */
  lemma {:induction false} MethodSeesItsReceiver(h: Host, o: Expr, p: string, args: seq<Expr>, s: State, fuel: nat)
    requires Tame(h) && Sound(s) && Whole(s, {})
    requires Evaluate(h, o, s, fuel).Done? && Evaluate(h, o, s, fuel).result.InstanceV?
    requires var r := Evaluate(h, Dot(o, p), s, fuel);
             && r.Done? && r.result.FunctionV? && "this" !in r.result.code.params
             && EvaluateAll(h, args, [], r.state, fuel).Done?
    ensures var (obj, r) := (Evaluate(h, o, s, fuel).result, Evaluate(h, Dot(o, p), s, fuel));
            var (code, a) := (r.result.code, EvaluateAll(h, args, [], r.state, fuel));
            && code.closure < |a.state.scopes|
            && (Read(BodyState(code, a.result, a.state), "this") == obj <==>
                  Binder(a.state.scopes, a.state.env, "this").None? || Read(a.state, "this") == obj)
            && Evaluate(h, Call(Dot(o, p), args), s, fuel) == Invoke(h, FunctionV(code), a.result, a.state, fuel)
  {
    hide EvaluateAll, Invoke, Property, BodyState, Read, Receiver, Linked, Solid, Chained, Registered, Tame, Whole;
    var d := Evaluate(h, o, s, fuel);
    EvaluateGood(h, o, s, fuel, {});
    MethodIsBound(d.result.at, p, d.state);
    ReceiverScopeIsHidden(d.result.at, p, d.state);
    var r := Evaluate(h, Dot(o, p), s, fuel);
    assert r == Property(d.result, p, d.state);
    var f := |d.state.scopes|;
    AllGood(h, args, [], r.state, fuel, {f});
    var a := EvaluateAll(h, args, [], r.state, fuel);
    ReceiverReads(f, d.result, a.state);
    var e := Call(Dot(o, p), args);
    assert Evaluate(h, e, s, fuel) == EvaluateCall(h, e, s, fuel);
    assert Framed(r.state, a.state);
    ThisInBody(r.result.code, a.result, a.state);
  }

  /**
   * `object.method($this = x)`, with no `this` visible before: the argument binds one in the scope of the caller, and
   * the method sees `x` for its object.
   */
  lemma {:induction false} ArgumentBindsThis(h: Host, o: Expr, p: string, x: real, s: State, fuel: nat)
    requires Sound(s)
    requires var r := Evaluate(h, Dot(o, p), s, fuel);
             && r.Done? && r.result.FunctionV? && r.result.code.closure < |r.state.scopes|
             && "this" !in r.result.code.params && Binder(r.state.scopes, r.state.env, "this").None?
    ensures var r := Evaluate(h, Dot(o, p), s, fuel);
            var a := EvaluateAll(h, [Assign("this", Number(x))], [], r.state, fuel);
            && a.Done? && r.result.code.closure < |a.state.scopes|
            && Read(BodyState(r.result.code, a.result, a.state), "this") == NumberV(x)
  {
    hide BodyState, Linked, Solid, Registered;
    var r := Evaluate(h, Dot(o, p), s, fuel);
    var args := [Assign("this", Number(x))];
    var t := Define(r.state, "this", NumberV(x));
    assert Evaluate(h, Number(x), r.state, fuel) == Done(NumberV(x), r.state);
    assert Evaluate(h, args[0], r.state, fuel) == Done(NumberV(x), t);
    assert args[1..] == [] && [] + [NumberV(x)] == [NumberV(x)];
    assert EvaluateAll(h, args, [], r.state, fuel) == EvaluateAll(h, [], [NumberV(x)], t, fuel);
    ThisInBody(r.result.code, [NumberV(x)], t);
  }

  lemma {:induction false} ExtendedResolves(scopes: seq<Scope>, more: seq<Scope>, at: nat, n: string)
    requires Chained(scopes) && Chained(more) && scopes <= more && at < |scopes|
    ensures Binder(more, at, n) == Binder(scopes, at, n)
    decreases at
  {
    if n !in scopes[at].vars && scopes[at].parent.Some? {
      ExtendedResolves(scopes, more, scopes[at].parent.value, n);
    }
  }
}
