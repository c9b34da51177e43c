/** The evaluator object: the stores and the current scope, updated in place while a tree is walked. */
module Evaluator {
  import opened Options
  import opened Tokens
  import opened Ast
  import opened Values
  import opened Environments
  import opened Classes
  import opened Rendering
  import E = Evaluation

  /** How a method ends; `Thrown` is the exception a `return` raises. The state is left in the fields. */
  datatype Signal<T> =
    | Normal(result: T)
    | Thrown(value: Value)
    | Stopped
    | Hung(shown: Value, objects: seq<Record>)
    | Lost
    | Crashed
  {
    predicate IsFailure() { !Normal? }

    function PropagateFailure<U>(): Signal<U>
      requires IsFailure()
    {
      match this
      case Thrown(v) => Thrown(v)
      case Stopped => Stopped
      case Hung(v, objects) => Hung(v, objects)
      case Lost => Lost
      case Crashed => Crashed
    }

    function Extract(): T
      requires !IsFailure()
    {
      result
    }
  }

  /** The signal and the fields together are the outcome. */
  ghost predicate Agrees<T>(r: Signal<T>, now: State, o: Outcome<T>) {
    match r
    case Normal(x) => o == Done(x, now)
    case Thrown(v) => o == Returned(v, now)
    case Stopped => o.Timeout?
    case Hung(v, objects) => o == Endless(v, objects)
    case Lost => o.Dangling?
    case Crashed => o.Crash?
  }

  class Interpreter {
    const host: Host
    var scopes: seq<Scope>
    var env: nat
    var objects: seq<Record>
    var classes: seq<ClassDef>
    var instances: seq<Instance>
    var registry: map<string, nat>
    var current: string
    var log: seq<string>
    var errors: nat

    function Now(): State
      reads this
    {
      State(scopes, env, objects, classes, instances, registry, current, log, errors)
    }

    ghost predicate Valid()
      reads this
    {
      E.Sound(Now())
    }

    constructor (host: Host)
      ensures Valid() && this.host == host
      ensures Now() == E.START
    {
      this.host := host;
      scopes, env := [Scope(map[], None)], 0;
      objects, classes, instances, registry := [], [], [], map[];
      current, log, errors := "", [], 0;
    }

    // ---------- environments ----------

    method Complain()
      requires Valid()
      modifies this`errors
      ensures Valid() && Now() == E.Complain(old(Now()))
    {
      errors := errors + 1;
    }

    method Define(name: string, v: Value)
      requires Valid()
      modifies this`scopes
      ensures Valid() && Now() == E.Define(old(Now()), name, v)
    {
      scopes := Bind(scopes, env, name, v);
    }

    /** Whether a scope from `at` outwards binds the name. */
    method Has(at: nat, name: string) returns (found: bool)
      requires Valid() && at < |scopes|
      ensures found == Binder(scopes, at, name).Some?
      decreases at
    {
      if name in scopes[at].vars {
        return true;
      }
      match scopes[at].parent {
        case None => found := false;
        case Some(p) => found := Has(p, name);
      }
    }

    /** The value the name has from `at` outwards; `null` and a diagnostic if there is none. */
    method Get(at: nat, name: string) returns (v: Value)
      requires Valid() && at < |scopes|
      modifies this`errors
      ensures Valid()
      ensures match Binder(scopes, at, name)
              case Some(k) => v == scopes[k].vars[name] && errors == old(errors)
              case None => v == NullV && errors == old(errors) + 1
      decreases at
    {
      if name in scopes[at].vars {
        return scopes[at].vars[name];
      }
      match scopes[at].parent {
        case None => Complain(); v := NullV;
        case Some(p) => v := Get(p, name);
      }
    }

    method Set(at: nat, name: string, v: Value)
      requires Valid() && at < |scopes|
      modifies this`scopes, this`errors
      ensures Valid()
      ensures match old(Binder(scopes, at, name))
              case Some(k) => scopes == Bind(old(scopes), k, name, v) && errors == old(errors)
              case None => scopes == old(scopes) && errors == old(errors) + 1
      decreases at
    {
      if name in scopes[at].vars {
        scopes := Bind(scopes, at, name, v);
        return;
      }
      match scopes[at].parent {
        case None => Complain();
        case Some(p) => Set(p, name, v);
      }
    }

    method Assign(name: string, v: Value)
      requires Valid()
      modifies this`scopes, this`errors
      ensures Valid() && Now() == E.Assigned(old(Now()), name, v)
    {
      var bound := Has(env, name);
      if bound {
        Set(env, name, v);
      } else {
        Define(name, v);
      }
    }

    method Enter(vars: Record, parent: nat)
      requires Valid() && parent < |scopes|
      modifies this`scopes, this`env
      ensures Valid() && Now() == E.Enter(old(Now()), vars, parent)
    {
      scopes, env := scopes + [Scope(vars, Some(parent))], |scopes|;
    }

    // ---------- class lookup ----------

    /** `Spins` where the search calls itself for ever. */
    method FindMethod(c: nat, name: string) returns (r: Search<Value>)
      requires Valid() && c < |classes|
      ensures r == GetMethod(classes, c, name)
      decreases c
    {
      var d := classes[c];
      if name in d.methods {
        return Found(d.methods[name]);
      }
      if d.parent.Some? {
        if d.parent.value == c {
          return Spins;
        }
        r := FindMethod(d.parent.value, name);
        if r.Spins? || !r.result.NullV? {
          return;
        }
      }
      for k := 0 to |d.impls|
        invariant MethodOfImpls(classes, c, k, name) == MethodOfImpls(classes, c, 0, name)
      {
        if d.impls[k] == c {
          return Spins;
        }
        r := FindMethod(d.impls[k], name);
        if r.Spins? || !r.result.NullV? {
          return;
        }
      }
      r := Found(NullV);
    }

    // ---------- expressions ----------

    method EvalNode(e: Expr, fuel: nat) returns (r: Signal<Value>)
      requires Valid()
      modifies this
      ensures Agrees(r, Now(), E.Evaluate(host, e, old(Now()), fuel))
      decreases fuel, 3, e, 3
    {
      hide Knotted, E.Framed, Linked, Solid, Chained, Registered, E.EvaluateIndexAssign;
      hide E.EvaluateAll, E.EvaluatePairs, E.AssignIndex, E.EvaluateDictAssign, E.EvaluateBinary, E.EvaluateCall;
      hide E.Property, E.EvaluateIndex, E.EvaluateSuper, E.OperateUnary;
      match e {
        case Number(n) => r := Normal(NumberV(n));
        case Str(t) => r := Normal(StringV(t));
        case Bool(b) => r := Normal(BoolV(b));
        case Null => r := Normal(NullV);
        case List(es) =>
          var items :- EvalAll(es, fuel);
          r := Normal(ListV(items));
        case Dict(ps) => r := EvalDict(ps, fuel);
        case Variable(n) =>
          var v := Get(env, n);
          r := Normal(v);
        case Assign(n, x) =>
          var v :- EvalNode(x, fuel);
          Assign(n, v);
          r := Normal(v);
        case IndexAssign(_, _, _) => r := EvalStore(e, fuel);
        case DictAssign(_, _, _) => r := EvalDictAssign(e, fuel);
        case Binary(op, _, _) => r := EvalBinary(e, fuel);
        case Unary(op, x) =>
          var v :- EvalNode(x, fuel);
          r := Normal(E.OperateUnary(op, v, objects));
        case Call(_, _) => r := EvalCall(e, fuel);
        case Dot(o, p) =>
          var v :- EvalNode(o, fuel);
          r := EvalProperty(v, p);
        case Index(_, _) => r := EvalIndex(e, fuel);
        case Super(args) => r := EvalSuper(args, fuel);
      }
    }

    method EvalAll(es: seq<Expr>, fuel: nat) returns (r: Signal<seq<Value>>)
      requires Valid()
      modifies this
      ensures Agrees(r, Now(), E.EvaluateAll(host, es, [], old(Now()), fuel))
      decreases fuel, 3, es, 0
    {
      hide E.Framed, Linked, Solid, Chained, Registered;
      var found := [];
      for i := 0 to |es|
        invariant Valid()
        invariant E.EvaluateAll(host, es[i..], found, Now(), fuel) == E.EvaluateAll(host, es, [], old(Now()), fuel)
      {
        var v :- EvalNode(es[i], fuel);
        assert es[i..][1..] == es[i + 1..];
        found := found + [v];
      }
      r := Normal(found);
    }

    method EvalDict(ps: seq<Pair>, fuel: nat) returns (r: Signal<Value>)
      requires Valid()
      modifies this
      ensures Agrees(r, Now(), E.Evaluate(host, Dict(ps), old(Now()), fuel))
      decreases fuel, 3, ps, 0
    {
      hide Knotted, E.Framed, Linked, Solid, Chained, Registered;
      var found := map[];
      for i := 0 to |ps|
        invariant Valid()
        invariant E.EvaluatePairs(host, ps[i..], found, Now(), fuel) == E.EvaluatePairs(host, ps, map[], old(Now()), fuel)
      {
        var v :- EvalNode(ps[i].value, fuel);
        assert ps[i..][1..] == ps[i + 1..];
        found := found[ps[i].key := v];
      }
      objects := objects + [found];
      r := Normal(ObjectV(|objects| - 1));
    }

    /** The text of a value, unless rendering it never ends. */
    method TextOf(v: Value) returns (r: Signal<string>)
      requires Valid()
      ensures Agrees(r, Now(), E.TextOf(host, v, Now()))
    {
      var t := Render(host, v, objects, {});
      r := if t.Some? then Normal(t.value) else Hung(v, objects);
    }

    method EvalBinary(e: Expr, fuel: nat) returns (r: Signal<Value>)
      requires Valid() && e.Binary?
      modifies this
      ensures Agrees(r, Now(), E.EvaluateBinary(host, e, old(Now()), fuel))
      decreases fuel, 3, e, 1
    {
      var a :- EvalNode(e.left, fuel);
      var b :- EvalNode(e.right, fuel);
      if E.Concatenates(e.op, a, b) {
        var x :- TextOf(a);
        var y :- TextOf(b);
        return Normal(StringV(x + y));
      }
      match E.Combine(e.op, a, b, objects) {
        case Some(v) => r := Normal(v);
        case None =>
          Complain();
          r := Normal(NullV);
      }
    }

    /** The right-hand side comes first. */
    method EvalStore(e: Expr, fuel: nat) returns (r: Signal<Value>)
      requires Valid() && e.IndexAssign?
      modifies this
      ensures Agrees(r, Now(), E.EvaluateIndexAssign(host, e, old(Now()), fuel))
      decreases fuel, 3, e, 2
    {
      hide Knotted, E.Framed, E.Evaluate, E.AssignIndex;
      var v :- EvalNode(e.value, fuel);
      r := EvalIndexAssign(e, v, fuel);
    }

    /** Writes through a reference to the variable where there is one, through copies otherwise. */
    method EvalIndexAssign(e: Expr, v: Value, fuel: nat) returns (r: Signal<Value>)
      requires Valid() && e.IndexAssign?
      modifies this
      ensures Agrees(r, Now(), E.AssignIndex(host, e, v, old(Now()), fuel))
      decreases fuel, 3, e, 1
    {
      hide Knotted, E.Framed;
      if e.obj.Variable? {
        var home := Binder(scopes, env, e.obj.name);
        if home.Some? {
          var i :- EvalNode(e.index, fuel);
          if e.obj.name !in scopes[home.value].vars {
            return Lost;
          }
          var obj := scopes[home.value].vars[e.obj.name];
          if obj.ListV? {
            var k := Truncate(NumberOf(i));
            if k < 0 {
              Complain();
              return Normal(NullV);
            }
            scopes := Bind(scopes, home.value, e.obj.name, ListV(E.Stored(obj.items, k, v)));
            return Normal(v);
          }
          if obj.ObjectV? {
            var key :- TextOf(i);
            r := StoreObject(obj.at, key, v);
            return;
          }
        }
      }
      r := EvalSlowly(e, v, fuel);
    }

    method StoreObject(o: nat, key: string, v: Value) returns (r: Signal<Value>)
      requires Valid()
      modifies this`objects
      ensures Valid() && Agrees(r, Now(), E.StoreObject(o, key, v, old(Now())))
    {
      if o >= |objects| {
        return Lost;
      }
      objects := objects[o := objects[o][key := v]];
      r := Normal(v);
    }

    method EvalSlowly(e: Expr, v: Value, fuel: nat) returns (r: Signal<Value>)
      requires Valid() && e.IndexAssign?
      modifies this
      ensures Agrees(r, Now(), E.AssignSlowly(host, e, v, old(Now()), fuel))
      decreases fuel, 3, e, 0
    {
      hide Knotted, E.Framed;
      var obj :- EvalNode(e.obj, fuel);
      var i :- EvalNode(e.index, fuel);
      r := StoreCopy(e.obj, obj, i, v);
    }

    method StoreCopy(o: Expr, obj: Value, i: Value, v: Value) returns (r: Signal<Value>)
      requires Valid()
      modifies this
      ensures Agrees(r, Now(), E.StoreCopy(host, o, obj, i, v, old(Now())))
    {
      hide Knotted, E.Framed, Linked, Solid, Registered;
      if obj.ListV? {
        var k := Truncate(NumberOf(i));
        if k < 0 {
          Complain();
          return Normal(NullV);
        }
        if o.Variable? {
          Set(env, o.name, ListV(E.Stored(obj.items, k, v)));
        }
        return Normal(v);
      }
      if obj.ObjectV? {
        var key :- TextOf(i);
        var _ :- StoreObject(obj.at, key, v);
        if o.Variable? {
          Set(env, o.name, obj);
        }
        return Normal(v);
      }
      Complain();
      r := Normal(NullV);
    }

    method EvalDictAssign(e: Expr, fuel: nat) returns (r: Signal<Value>)
      requires Valid() && e.DictAssign?
      modifies this
      ensures Agrees(r, Now(), E.EvaluateDictAssign(host, e, old(Now()), fuel))
      decreases fuel, 3, e, 1
    {
      hide Knotted, E.Framed, Linked, Solid, Registered;
      var obj :- EvalNode(e.obj, fuel);
      var v :- EvalNode(e.value, fuel);
      if obj.InstanceV? {
        if obj.at >= |instances| {
          return Lost;
        }
        var i := instances[obj.at];
        instances := instances[obj.at := i.(properties := i.properties[e.key := v])];
        return Normal(v);
      }
      if obj.ObjectV? {
        var _ :- StoreObject(obj.at, e.key, v);
        if e.obj.Variable? {
          Set(env, e.obj.name, obj);
        }
        return Normal(v);
      }
      Complain();
      r := Normal(NullV);
    }

    method EvalIndex(e: Expr, fuel: nat) returns (r: Signal<Value>)
      requires Valid() && e.Index?
      modifies this
      ensures Agrees(r, Now(), E.EvaluateIndex(host, e, old(Now()), fuel))
      decreases fuel, 3, e, 1
    {
      var v :- EvalNode(e.obj, fuel);
      var i :- EvalNode(e.index, fuel);
      if v.ListV? && i.NumberV? {
        var k := Truncate(i.number);
        if 0 <= k < |v.items| {
          return Normal(v.items[k]);
        }
        Complain();
        return Normal(NullV);
      }
      if v.ObjectV? && i.StringV? {
        if v.at >= |objects| {
          return Lost;
        }
        return Normal(if i.text in objects[v.at] then objects[v.at][i.text] else NullV);
      }
      if v.StringV? && i.NumberV? {
        var k := Truncate(i.number);
        return Normal(if 0 <= k < |v.text| then StringV([v.text[k]]) else NullV);
      }
      r := Normal(NullV);
    }

    method EvalProperty(v: Value, p: string) returns (r: Signal<Value>)
      requires Valid()
      modifies this`scopes
      ensures Agrees(r, Now(), E.Property(v, p, old(Now())))
    {
      if v.InstanceV? {
        r := EvalInstanceProperty(v.at, p);
      } else if v.ObjectV? {
        if v.at >= |objects| {
          return Lost;
        }
        r := Normal(if p in objects[v.at] then objects[v.at][p] else NullV);
      } else if v.ListV? {
        r := Normal(if p == "length" then NumberV(|v.items| as real) else if E.IsListMethod(p) then NativeV(p, [v]) else NullV);
      } else if v.StringV? {
        r := Normal(if p == "length" then NumberV(|v.text| as real) else if E.IsStringMethod(p) then NativeV(p, [v]) else NullV);
      } else if v.NumberV? {
        r := Normal(if E.IsNumberMethod(p) then NativeV(p, [v]) else NullV);
      } else {
        r := Normal(NullV);
      }
    }

    /** Properties before methods; a function gets a scope of its own that binds the receiver. */
    method EvalInstanceProperty(at: nat, p: string) returns (r: Signal<Value>)
      requires Valid()
      modifies this`scopes
      ensures Agrees(r, Now(), E.InstanceProperty(at, p, old(Now())))
    {
      if at >= |instances| || instances[at].definition >= |classes| {
        return Lost;
      }
      var v := NullV;
      if p in instances[at].properties {
        v := instances[at].properties[p];
      } else {
        var f := FindMethod(instances[at].definition, p);
        if f.Spins? {
          return Stopped;
        }
        v := f.result;
      }
      if v.NativeV? {
        return Crashed;
      }
      if v.FunctionV? {
        if v.code.closure >= |scopes| {
          return Lost;
        }
        scopes := scopes + [Scope(E.Receiver(InstanceV(at)), Some(v.code.closure))];
        return Normal(FunctionV(v.code.(closure := |scopes| - 1)));
      }
      r := Normal(v);
    }

    // ---------- calls ----------

    method EvalCall(e: Expr, fuel: nat) returns (r: Signal<Value>)
      requires Valid() && e.Call?
      modifies this
      ensures Agrees(r, Now(), E.EvaluateCall(host, e, old(Now()), fuel))
      decreases fuel, 3, e, 1
    {
      var f :- EvalNode(e.callee, fuel);
      var args :- EvalAll(e.args, fuel);
      r := Invoke(f, args, fuel);
    }

    method Invoke(f: Value, args: seq<Value>, fuel: nat) returns (r: Signal<Value>)
      requires Valid()
      modifies this
      ensures Agrees(r, Now(), E.Invoke(host, f, args, old(Now()), fuel))
      decreases fuel, 2
    {
      if f.NativeV? {
        var (v, after) := host.call(f.name, f.receiver, args, objects);
        objects := after;
        return Normal(v);
      }
      if f.ClassV? {
        r := Instantiate(f.at, args, fuel);
        return;
      }
      if f.FunctionV? {
        var vars := Inherited();
        if |args| > |f.code.params| {
          Complain();
        }
        vars := BindArguments(vars, f.code.params, args);
        r := CallBody(f.code, vars, fuel);
        return;
      }
      Complain();
      r := Normal(NullV);
    }

    /** `this` and `self` as they are visible here, for the scope of a call. */
    method Inherited() returns (vars: Record)
      requires Valid()
      modifies this`errors
      ensures Valid() && errors == old(errors) && vars == E.Inherited(Now())
    {
      vars := map[];
      var bound := Has(env, "this");
      if bound {
        var v := Get(env, "this");
        vars := E.Receiver(v);
      }
    }

    static method BindArguments(vars: Record, params: seq<string>, args: seq<Value>) returns (r: Record)
      ensures r == E.BindParams(vars, params, args)
    {
      r := vars;
      for i := 0 to |params|
        invariant E.BindParams(r, params[i..], if i < |args| then args[i..] else []) == E.BindParams(vars, params, args)
      {
        assert params[i..][1..] == params[i + 1..];
        if i < |args| {
          assert args[i..][1..] == args[i + 1..];
        }
        r := r[params[i] := if i < |args| then args[i] else NullV];
      }
    }

    /** Leaves the scope of the caller, runs the body, catches a `return`, and comes back. */
    method CallBody(code: Code, vars: Record, fuel: nat) returns (r: Signal<Value>)
      requires Valid()
      modifies this
      ensures Agrees(r, Now(), E.Apply(host, code, vars, old(Now()), fuel))
      decreases fuel, 0
    {
      hide E.Framed, Linked, Solid, Chained, Registered;
      if fuel == 0 {
        return Stopped;
      }
      if code.closure >= |scopes| {
        return Lost;
      }
      var prevEnv := env;
      Enter(vars, code.closure);
      r := ExecStatements(code.body, fuel - 1);
      match r {
        case Normal(_) => env := prevEnv;
        case Thrown(v) =>
          env := prevEnv;
          r := Normal(v);
        case Stopped =>
        case Hung(_, _) =>
        case Lost =>
        case Crashed =>
      }
    }

    method Instantiate(c: nat, args: seq<Value>, fuel: nat) returns (r: Signal<Value>)
      requires Valid()
      modifies this
      ensures Agrees(r, Now(), E.Instantiate(host, c, args, old(Now()), fuel))
      decreases fuel, 1
    {
      hide E.Framed, Solid, Chained, Registered;
      if c >= |classes| {
        return Lost;
      }
      var ends := WalkParents(c);
      if !ends {
        return Stopped;
      }
      var instance := InstanceV(|instances|);
      instances := instances + [Instance(c, map[])];
      var own := E.Constructor(classes[c]);
      if own.Some? {
        var savedClassName := current;
        current := classes[c].name;
        var vars := BindArguments(E.Receiver(instance), own.value.params, args);
        var _ :- CallBody(own.value, vars, fuel);
        current := savedClassName;
      } else if classes[c].parent.Some? {
        var inherited := E.Constructor(classes[classes[c].parent.value]);
        if inherited.Some? {
          var vars := BindArguments(E.Receiver(instance), inherited.value.params, args);
          var _ :- CallBody(inherited.value, vars, fuel);
        }
      }
      r := Normal(instance);
    }

    /** The loop over the parent chain in front of a constructor call does nothing but come to an end, or not. */
    method WalkParents(c: nat) returns (ends: bool)
      requires Valid() && c < |classes|
      ensures ends == ChainEnds(classes, c)
    {
      var at: nat := c;
      while classes[at].parent.Some?
        invariant at < |classes| && ChainEnds(classes, at) == ChainEnds(classes, c)
        decreases at
      {
        if classes[at].parent.value == at {
          return false;
        }
        at := classes[at].parent.value;
      }
      ends := true;
    }

    method EvalSuper(args: seq<Expr>, fuel: nat) returns (r: Signal<Value>)
      requires Valid()
      modifies this
      ensures Agrees(r, Now(), E.Evaluate(host, Super(args), old(Now()), fuel))
      decreases fuel, 3, args, 1
    {
      hide E.Framed, Solid, Chained;
      var parent := if current != "" && current in registry then classes[registry[current]].parent else None;
      ghost var before := Now();
      assert parent == E.ParentOfCurrent(before);
      assert parent.Some? ==>
          E.Evaluate(host, Super(args), before, fuel) == E.EvaluateSuper(host, args, parent.value, before, fuel);
      if parent.None? {
        Complain();
        return Normal(NullV);
      }
      var values :- EvalAll(args, fuel);
      E.Outward(before, Now());
      r := CallParent(parent.value, values, fuel);
    }

    method CallParent(p: nat, args: seq<Value>, fuel: nat) returns (r: Signal<Value>)
      requires Valid() && p < |classes|
      modifies this
      ensures Agrees(r, Now(), E.CallParent(host, p, args, old(Now()), fuel))
      decreases fuel, 1
    {
      var code := E.Constructor(classes[p]);
      if code.Some? {
        var vars := Inherited();
        vars := BindArguments(vars, code.value.params, args);
        var _ :- CallBody(code.value, vars, fuel);
      }
      r := Normal(NullV);
    }

    // ---------- statements ----------

    method ExecNode(st: Stmt, fuel: nat) returns (r: Signal<Value>)
      requires Valid()
      modifies this
      ensures Agrees(r, Now(), E.Execute(host, st, old(Now()), fuel))
      decreases fuel, 4, st, 2, 0
    {
      hide Knotted, E.Framed;
      hide E.Evaluate, E.RunBlock, E.WhileLoop, E.ExecuteFor, E.EachLoop, E.DeclareClass, Truthy;
      match st {
        case ExprStmt(e) => r := EvalNode(e, fuel);
        case VarDecl(_, n, e) =>
          var v :- EvalNode(e, fuel);
          Define(n, v);
          r := Normal(v);
        case If(c, b, els) =>
          var v :- EvalNode(c, fuel);
          r := ExecBlock(if Truthy(v, objects) then b else els, map[], fuel);
        case While(_, _) => r := ExecWhile(st, fuel);
        case For(_, _, _, _) => r := ExecFor(st, fuel);
        case Each(_, _, _) => r := ExecEach(st, fuel);
        case FuncDecl(n, ps, b) =>
          Define(n, FunctionV(Code(n, ps, b, env)));
          r := Normal(NullV);
        case Return(e) =>
          var v :- EvalNode(e, fuel);
          r := Thrown(v);
        case Print(e) =>
          var v :- EvalNode(e, fuel);
          var t :- TextOf(v);
          log := log + [t];
          r := Normal(v);
        case TryCatch(b, _, _) => r := ExecBlock(b, map[], fuel);
        case ClassDecl(n, p, impls, b) => r := ExecClass(n, p, impls, b, fuel);
        case Bare => r := Normal(NullV);
      }
    }

    method ExecStatements(ss: seq<Stmt>, fuel: nat) returns (r: Signal<Value>)
      requires Valid()
      modifies this
      ensures Agrees(r, Now(), E.ExecuteAll(host, ss, NullV, old(Now()), fuel))
      decreases fuel, 4, ss, 0, 0
    {
      hide Knotted, E.Framed;
      var last := NullV;
      for i := 0 to |ss|
        invariant Valid()
        invariant E.ExecuteAll(host, ss[i..], last, Now(), fuel) == E.ExecuteAll(host, ss, NullV, old(Now()), fuel)
      {
        last :- ExecNode(ss[i], fuel);
        assert ss[i..][1..] == ss[i + 1..];
      }
      r := Normal(last);
    }

    method ExecBlock(ss: seq<Stmt>, vars: Record, fuel: nat) returns (r: Signal<Value>)
      requires Valid()
      modifies this
      ensures Agrees(r, Now(), E.RunBlock(host, ss, vars, old(Now()), fuel))
      decreases fuel, 4, ss, 1, 0
    {
      var prevEnv := env;
      Enter(vars, env);
      var _ :- ExecStatements(ss, fuel);
      env := prevEnv;
      r := Normal(NullV);
    }

    method ExecWhile(st: Stmt, fuel: nat) returns (r: Signal<Value>)
      requires Valid() && st.While?
      modifies this
      ensures Agrees(r, Now(), E.WhileLoop(host, st, old(Now()), fuel))
      decreases fuel, 4, st, 1, 0
    {
      hide E.Framed, Linked, Solid, Chained, Registered, E.Evaluate, E.RunBlock, Truthy;
      var left: nat := fuel;
      while true
        invariant Valid() && left <= fuel
        invariant E.WhileLoop(host, st, Now(), left) == E.WhileLoop(host, st, old(Now()), fuel)
        decreases left
      {
        var c :- EvalNode(st.condition, left);
        if !Truthy(c, objects) {
          return Normal(NullV);
        }
        if left == 0 {
          return Stopped;
        }
        left := left - 1;
        var _ :- ExecBlock(st.body, map[], left);
      }
    }

    method ExecFor(st: Stmt, fuel: nat) returns (r: Signal<Value>)
      requires Valid() && st.For?
      modifies this
      ensures Agrees(r, Now(), E.ExecuteFor(host, st, old(Now()), fuel))
      decreases fuel, 4, st, 1, 0
    {
      hide Knotted, E.Framed, Linked, Solid, Chained, Registered, E.Evaluate, E.Execute, E.ForTurn, Truthy;
      var prevEnv := env;
      Enter(map[], env);
      var _ :- ExecNode(st.start, fuel);
      ghost var started := Now();
      var safety := 0;
      var c :- EvalNode(st.condition, fuel);
      while Truthy(c, objects) && safety < E.FOR_LIMIT
        invariant Valid() && 0 <= safety <= E.FOR_LIMIT
        invariant E.ForLoop(host, st, 0, started, fuel) == AfterCondition(host, st, safety, c, Now(), fuel)
        decreases E.FOR_LIMIT - safety
      {
        var _ :- ExecTurn(st, fuel);
        safety := safety + 1;
        c :- EvalNode(st.condition, fuel);
      }
      env := prevEnv;
      r := Normal(NullV);
    }

    /** The body in its own scope, then the update. */
    method ExecTurn(st: Stmt, fuel: nat) returns (r: Signal<Value>)
      requires Valid() && st.For?
      modifies this
      ensures Agrees(r, Now(), E.ForTurn(host, st, old(Now()), fuel))
      decreases fuel, 4, st, 0, 0
    {
      hide Knotted, E.Framed, E.Execute, E.RunBlock;
      var _ :- ExecBlock(st.body, map[], fuel);
      r := ExecNode(st.update, fuel);
    }

    method ExecEach(st: Stmt, fuel: nat) returns (r: Signal<Value>)
      requires Valid() && st.Each?
      modifies this
      ensures Agrees(r, Now(), E.Execute(host, st, old(Now()), fuel))
      decreases fuel, 4, st, 1, 0
    {
      var v :- EvalNode(st.iterable, fuel);
      if v.ListV? {
        ghost var before := Now();
        for i := 0 to |v.items|
          invariant Valid()
          invariant E.EachLoop(host, st, v.items[i..], Now(), fuel) == E.EachLoop(host, st, v.items, before, fuel)
        {
          var _ :- ExecBlock(st.body, map[st.varName := v.items[i]], fuel);
          assert v.items[i..][1..] == v.items[i + 1..];
        }
      }
      r := Normal(NullV);
    }

    // ---------- classes ----------

    method ExecClass(n: string, p: string, impls: seq<string>, b: seq<Stmt>, fuel: nat) returns (r: Signal<Value>)
      requires Valid()
      modifies this
      ensures Agrees(r, Now(), E.DeclareClass(host, n, p, impls, b, old(Now()), fuel))
      decreases fuel, 4, b, 1, 0
    {
      hide E.Framed, Linked, Solid, Chained, Registered, E.ClassBody, NewClass, E.Receiver;
      var c := |classes|;
      ghost var registered := E.Register(Now(), n, p, impls);
      registry := registry[n := c];
      classes := classes + [NewClass(registry, n, p, impls)];
      assert Now() == registered;
      var prevEnv := env;
      Enter(E.Receiver(NullV), env);
      current := n;
      var _ :- ExecMembers(b, c, n, fuel);
      current := "";
      env := prevEnv;
      Define(n, ClassV(c));
      r := Normal(ClassV(c));
    }

    method ExecMembers(b: seq<Stmt>, c: nat, n: string, fuel: nat) returns (r: Signal<Value>)
      requires Valid() && c < |classes|
      modifies this
      ensures Agrees(r, Now(), E.ClassBody(host, b, c, n, old(Now()), fuel))
      decreases fuel, 4, b, 0, 0
    {
      hide E.Execute, E.AddMember, Knotted, Solid, Chained, Registered;
      for i := 0 to |b|
        invariant Valid() && c < |classes|
        invariant E.ClassBody(host, b[i..], c, n, Now(), fuel) == E.ClassBody(host, b, c, n, old(Now()), fuel)
      {
        assert b[i..][1..] == b[i + 1..];
        if b[i].FuncDecl? {
          AddMember(c, n, Code(b[i].name, b[i].params, b[i].body, env));
        } else {
          var _ :- ExecNode(b[i], fuel);
        }
      }
      r := Normal(NullV);
    }

    method AddMember(c: nat, n: string, code: Code)
      requires Valid() && c < |classes|
      modifies this`classes
      ensures Valid() && Now() == E.AddMember(old(Now()), c, n, code)
    {
      AddMethod(c, code.name, FunctionV(code));
      if code.name == n || code.name == "init" || code.name == "constructor" {
        AddMethod(c, "__constructor__", FunctionV(code));
      }
    }

    method AddMethod(c: nat, name: string, v: Value)
      requires Valid() && c < |classes| && v.FunctionV?
      modifies this`classes
      ensures Valid() && Now() == E.AddMethod(old(Now()), c, name, v)
    {
      classes := classes[c := classes[c].(methods := classes[c].methods[name := v])];
    }

    // ---------- programs ----------

    /** Top-level statements in turn; a `return` at the top level gets through. */
    method Run(program: seq<Stmt>, fuel: nat) returns (r: Signal<Value>)
      requires Valid()
      modifies this
      ensures Agrees(r, Now(), E.Run(host, program, old(Now()), fuel))
    {
      r := ExecStatements(program, fuel);
    }
  }

  /** The rest of a `for` once its condition has been evaluated. */
  ghost function AfterCondition(h: Host, st: Stmt, n: nat, c: Value, s: State, fuel: nat): Outcome<Value>
    requires E.Sound(s) && st.For? && n <= E.FOR_LIMIT
  {
    if !Truthy(c, s.objects) || n == E.FOR_LIMIT then Done(NullV, s)
    else
      var t :- E.ForTurn(h, st, s, fuel);
      E.ForLoop(h, st, n + 1, t.state, fuel)
  }
}
