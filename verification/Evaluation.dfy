/**
 * The meaning of a program as a function of the state. Fuel is spent by calls and by turns of `while`,
 * by nothing else; where it runs out the result is `Timeout`.
 */
module Evaluation {
  import opened Options
  import opened Tokens
  import opened Ast
  import opened Values
  import opened Environments
  import opened Classes
  import opened Rendering

  /**
   * The current scope exists, parents are earlier, class edges are not later, methods are functions, and a
   * name stands for the last class declared under it.
   */
  ghost predicate Sound(s: State) {
    && s.env < |s.scopes|
    && Chained(s.scopes)
    && Linked(s.classes)
    && Solid(s.classes)
    && Registered(s.registry, s.classes)
  }

  /** One of the classes from `from` on has the name. */
  ghost predicate NamedFrom(classes: seq<ClassDef>, from: nat, name: string) {
    exists k :: from <= k < |classes| && classes[k].name == name
  }

  /** Name, parent and implemented classes are the same. */
  ghost predicate SameHead(d: ClassDef, f: ClassDef) {
    f.name == d.name && f.parent == d.parent && f.impls == d.impls
  }

  /**
   * What a run does to classes: those there were do not change, except that `open`, if there is such a class yet,
   * may get methods. The current class stays the same unless a class is declared, which leaves none or, on a
   * `return`, that class.
   */
  ghost predicate Kept(s: State, t: State, open: nat) {
    && |s.classes| <= |t.classes|
    && (forall k :: 0 <= k < |s.classes| ==> SameHead(s.classes[k], t.classes[k]))
    && (forall k :: 0 <= k < |s.classes| && k != open ==> t.classes[k] == s.classes[k])
    && (t.current == s.current ||
        (|s.classes| < |t.classes| && (t.current == "" || NamedFrom(t.classes, |s.classes|, t.current))))
  }

  /**
   * From `s` to `t` the scopes there were keep their parents and their names; only the current scope of `s`
   * may have got new names. Classes are kept. Diagnostics are only added.
   */
  ghost predicate FramedBut(s: State, t: State, open: nat) {
    && |s.scopes| <= |t.scopes| && |s.classes| <= |t.classes| && s.errors <= t.errors
    && Kept(s, t, open)
    && forall k :: 0 <= k < |s.scopes| ==>
         && t.scopes[k].parent == s.scopes[k].parent
         && s.scopes[k].vars.Keys <= t.scopes[k].vars.Keys
         && (k != s.env ==> t.scopes[k].vars.Keys == s.scopes[k].vars.Keys)
  }

  /** All the classes of `s` are kept as they are. */
  ghost predicate Framed(s: State, t: State) { FramedBut(s, t, |s.classes|) }

  /**
   * What a node leaves behind: a sound state in the frame of `s`, and after a normal end the same current scope.
   * Rendering goes on for ever only where a dictionary reaches itself.
   */
  ghost predicate Leaves<T>(s: State, r: Outcome<T>) {
    && (r.Done? || r.Returned? ==> Sound(r.state) && Framed(s, r.state))
    && (r.Done? ==> r.state.env == s.env)
    && (r.Endless? ==> Knotted(r.shown, r.objects))
  }

  /** The same for a part of a class body. */
  ghost predicate LeavesMembers(s: State, r: Outcome<Value>, open: nat) {
    && (r.Done? || r.Returned? ==> Sound(r.state) && FramedBut(s, r.state, open))
    && (r.Done? ==> r.state.env == s.env)
    && (r.Endless? ==> Knotted(r.shown, r.objects))
  }

  /** Expressions do not let a `return` escape. */
  ghost predicate Yields<T>(s: State, r: Outcome<T>) {
    Leaves(s, r) && !r.Returned?
  }

  lemma {:induction false} Onward(s: State, t: State)
    requires Framed(s, t) && t.env == s.env
    ensures |s.scopes| <= |t.scopes| && |s.classes| <= |t.classes|
    ensures forall u :: Framed(t, u) ==> Framed(s, u)
  {
    hide Kept;
    forall u | Framed(t, u) ensures Framed(s, u) { KeptOn(s, t, u, |s.classes|, |t.classes|); }
  }

  lemma {:induction false} OnwardBut(s: State, t: State, open: nat)
    requires FramedBut(s, t, open) && t.env == s.env
    ensures |s.scopes| <= |t.scopes| && |s.classes| <= |t.classes|
    ensures forall u :: FramedBut(t, u, open) ==> FramedBut(s, u, open)
  {
    hide Kept;
    forall u | FramedBut(t, u, open) ensures FramedBut(s, u, open) { KeptOn(s, t, u, open, open); }
  }

  lemma {:induction false} Outward(s: State, t: State)
    requires Framed(s, t)
    ensures |s.scopes| <= |t.scopes| && |s.classes| <= |t.classes|
  {
  }

  lemma {:induction false} Unmoved(s: State)
    ensures Framed(s, s)
  {
  }

  lemma {:induction false} KeptOn(s: State, t: State, u: State, open: nat, later: nat)
    requires Kept(s, t, open) && Kept(t, u, later) && (later == open || |s.classes| <= later)
    ensures Kept(s, u, open)
  {
    if |s.classes| < |t.classes| && NamedFrom(t.classes, |s.classes|, t.current) {
      var k :| |s.classes| <= k < |t.classes| && t.classes[k].name == t.current;
      assert SameHead(t.classes[k], u.classes[k]);
    }
  }

  const FOR_LIMIT := 100000

  // ---------- small steps ----------

  function Complain(s: State): State { s.(errors := s.errors + 1) }

  /** A diagnostic and `null`. */
  function Refuse(s: State): (r: Outcome<Value>)
    ensures Sound(s) ==> Yields(s, r)
  {
    Done(NullV, Complain(s))
  }

  function Define(s: State, name: string, v: Value): (t: State)
    requires Sound(s)
    ensures Sound(t) && Framed(s, t) && t.env == s.env
  {
    s.(scopes := Bind(s.scopes, s.env, name, v))
  }

  /** `Environment::set`: the nearest scope that binds the name, or a diagnostic. */
  function SetVar(s: State, name: string, v: Value): (t: State)
    requires Sound(s)
    ensures Sound(t) && Framed(s, t) && t.env == s.env
  {
    match Binder(s.scopes, s.env, name)
    case Some(k) => s.(scopes := Bind(s.scopes, k, name, v))
    case None => Complain(s)
  }

  /** A new scope below `parent`, which becomes the current one. */
  function Enter(s: State, vars: Record, parent: nat): (t: State)
    requires Sound(s) && parent < |s.scopes|
    ensures Sound(t) && Framed(s, t)
    ensures forall u :: Framed(t, u) ==> Framed(s, u)
  {
    s.(scopes := s.scopes + [Scope(vars, Some(parent))], env := |s.scopes|)
  }

  function NewObject(s: State, m: Record): (t: State)
    requires Sound(s)
    ensures Sound(t) && Framed(s, t) && t.env == s.env
  {
    s.(objects := s.objects + [m])
  }

  function SetObject(s: State, o: nat, key: string, v: Value): (t: State)
    requires Sound(s) && o < |s.objects|
    ensures Sound(t)
  {
    s.(objects := s.objects[o := s.objects[o][key := v]])
  }

  function AddMethod(s: State, c: nat, name: string, v: Value): (t: State)
    requires Sound(s) && c < |s.classes| && v.FunctionV?
    ensures Sound(t) && FramedBut(s, t, c) && t.env == s.env
  {
    var d := s.classes[c];
    s.(classes := s.classes[c := d.(methods := d.methods[name := v])])
  }

  function Printed(s: State, line: string): (t: State)
    requires Sound(s)
    ensures Sound(t) && Framed(s, t) && t.env == s.env
  {
    s.(log := s.log + [line])
  }

  /** The text of a value, as it is printed. */
  function TextOf(h: Host, v: Value, s: State): (r: Outcome<string>)
    ensures r.Done? || r.Endless?
    ensures r.Done? ==> r.state == s
    ensures r.Endless? ==> Knotted(r.shown, r.objects) && r.objects == s.objects
  {
    EndlessIsKnotted(h, v, s.objects);
    match Text(h, v, s.objects, {})
    case None => Endless(v, s.objects)
    case Some(t) => Done(t, s)
  }

  function Receiver(v: Value): Record { map["this" := v, "self" := v] }

  /** The receiver visible in the current scope, handed on to a call. */
  function Inherited(s: State): Record
    requires Sound(s)
  {
    match Binder(s.scopes, s.env, "this")
    case Some(k) => Receiver(s.scopes[k].vars["this"])
    case None => map[]
  }

  /** Parameters bound to arguments, missing ones to `null`, later ones over earlier ones. */
  function BindParams(vars: Record, params: seq<string>, args: seq<Value>): Record
    decreases |params|
  {
    if params == [] then vars
    else
      var v := if args == [] then NullV else args[0];
      BindParams(vars[params[0] := v], params[1..], if args == [] then [] else args[1..])
  }

  function Remainder(a: real, b: real): real
    requires b != 0.0
  {
    var r := a - (a / b).Floor as real * b;
    var q := if r < 0.0 && a >= 0.0 then r + b else r;
    if q > 0.0 && a < 0.0 then q - b else q
  }

  predicate Concatenates(op: TokenType, a: Value, b: Value) { op.PlusT? && (a.StringV? || b.StringV?) }

  /**
   * What an operator yields where no text is put together; `None` for a division by zero and for operators the
   * evaluator does not know.
   */
  function Combine(op: TokenType, a: Value, b: Value, objects: seq<Record>): (r: Option<Value>)
    ensures r.Some? ==> r.value.NumberV? || r.value.BoolV?
  {
    var x, y := NumberOf(a), NumberOf(b);
    if op.PlusT? then Some(NumberV(x + y))
    else if op.MinusT? then Some(NumberV(x - y))
    else if op.MultiplyT? then Some(NumberV(x * y))
    else if op.DivideT? then if y == 0.0 then None else Some(NumberV(x / y))
    else if op.ModuloT? then if y == 0.0 then None else Some(NumberV(Remainder(x, y)))
    else if op.EqualToT? then Some(BoolV(Equal(a, b)))
    else if op.NotEqualToT? then Some(BoolV(!Equal(a, b)))
    else if op.GreaterT? then Some(BoolV(x > y))
    else if op.LessT? then Some(BoolV(x < y))
    else if op.GreaterEqualT? then Some(BoolV(x >= y))
    else if op.LessEqualT? then Some(BoolV(x <= y))
    else if op.AndT? then Some(BoolV(Truthy(a, objects) && Truthy(b, objects)))
    else if op.OrT? then Some(BoolV(Truthy(a, objects) || Truthy(b, objects)))
    else None
  }

  /** `+` puts texts together as soon as one operand is a string. */
  function Operate(h: Host, op: TokenType, a: Value, b: Value, s: State): (r: Outcome<Value>)
    ensures r.Done? || r.Endless?
    ensures r.Done? ==> (r.state == s || r.state == Complain(s)) && (r.result.NumberV? || r.result.StringV? || r.result.BoolV? || r.result.NullV?)
    ensures r.Endless? ==> Knotted(r.shown, r.objects) && r.objects == s.objects
    ensures Sound(s) ==> Yields(s, r)
  {
    if Concatenates(op, a, b) then
      var x :- TextOf(h, a, s);
      var y :- TextOf(h, b, s);
      Done(StringV(x.result + y.result), s)
    else
      match Combine(op, a, b, s.objects)
      case None => Refuse(s)
      case Some(v) => Done(v, s)
  }

  function OperateUnary(op: TokenType, a: Value, objects: seq<Record>): Value {
    if op.NotT? then BoolV(!Truthy(a, objects))
    else if op.MinusT? then NumberV(-NumberOf(a))
    else NullV
  }

  /** A list with one element replaced, filled up with zeros as far as needed. */
  function Stored(items: seq<Value>, i: nat, v: Value): (r: seq<Value>)
    ensures |r| == if i < |items| then |items| else i + 1
  {
    (if i < |items| then items else items + seq(i + 1 - |items|, _ => NumberV(0.0)))[i := v]
  }

  // ---------- reading a part of a value ----------

  predicate IsListMethod(p: string) { p == "push" || p == "pop" }

  predicate IsStringMethod(p: string) {
    || p == "upper" || p == "lower" || p == "substr" || p == "slice" || p == "contains"
    || p == "indexOf" || p == "split" || p == "trim" || p == "replace"
  }

  predicate IsNumberMethod(p: string) { p == "abs" || p == "floor" || p == "ceil" || p == "round" }

  /** A property of a value. A function found on an instance gets a scope of its own that binds the receiver. */
  function Property(v: Value, p: string, s: State): (r: Outcome<Value>)
    requires Sound(s)
    ensures Leaves(s, r)
  {
    match v
    case InstanceV(at) => InstanceProperty(at, p, s)
    case ObjectV(o) =>
      if o >= |s.objects| then Dangling else Done(if p in s.objects[o] then s.objects[o][p] else NullV, s)
    case ListV(items) =>
      Done(if p == "length" then NumberV(|items| as real) else if IsListMethod(p) then NativeV(p, [v]) else NullV, s)
    case StringV(t) =>
      Done(if p == "length" then NumberV(|t| as real) else if IsStringMethod(p) then NativeV(p, [v]) else NullV, s)
    case NumberV(_) => Done(if IsNumberMethod(p) then NativeV(p, [v]) else NullV, s)
    case NullV => Done(NullV, s)
    case BoolV(_) => Done(NullV, s)
    case FunctionV(_) => Done(NullV, s)
    case NativeV(_, _) => Done(NullV, s)
    case ClassV(_) => Done(NullV, s)
  }

  function InstanceProperty(at: nat, p: string, s: State): (r: Outcome<Value>)
    requires Sound(s)
    ensures Leaves(s, r)
  {
    if at >= |s.instances| || s.instances[at].definition >= |s.classes| then Dangling
    else
      var i := s.instances[at];
      match if p in i.properties then Found(i.properties[p]) else GetMethod(s.classes, i.definition, p)
      case Spins => Timeout
      case Found(v) => Bound(v, at, s)
  }

  /** A native function among the properties of an instance is taken for a function without a body. */
  function Bound(v: Value, at: nat, s: State): (r: Outcome<Value>)
    requires Sound(s)
    ensures Leaves(s, r)
  {
    if v.NativeV? then Crash
    else if v.FunctionV? then
      if v.code.closure >= |s.scopes| then Dangling
      else
        var scope := Scope(Receiver(InstanceV(at)), Some(v.code.closure));
        Done(FunctionV(v.code.(closure := |s.scopes|)), s.(scopes := s.scopes + [scope]))
    else Done(v, s)
  }

  function Element(v: Value, i: Value, s: State): (r: Outcome<Value>)
    requires Sound(s)
    ensures Yields(s, r)
  {
    if v.ListV? && i.NumberV? then
      var k := Truncate(i.number);
      if 0 <= k < |v.items| then Done(v.items[k], s) else Refuse(s)
    else if v.ObjectV? && i.StringV? then
      if v.at >= |s.objects| then Dangling
      else Done(if i.text in s.objects[v.at] then s.objects[v.at][i.text] else NullV, s)
    else if v.StringV? && i.NumberV? then
      var k := Truncate(i.number);
      Done(if 0 <= k < |v.text| then StringV([v.text[k]]) else NullV, s)
    else Done(NullV, s)
  }

  // ---------- expressions ----------

  function Evaluate(h: Host, e: Expr, s: State, fuel: nat): (r: Outcome<Value>)
    requires Sound(s)
    ensures Yields(s, r)
    decreases fuel, 3, e, 3
  {
    hide Framed, Sound, Knotted;
    Unmoved(s);
    match e
    case Number(n) => Done(NumberV(n), s)
    case Str(t) => Done(StringV(t), s)
    case Bool(b) => Done(BoolV(b), s)
    case Null => Done(NullV, s)
    case List(es) =>
      var d :- EvaluateAll(h, es, [], s, fuel);
      Done(ListV(d.result), d.state)
    case Dict(ps) =>
      var d :- EvaluatePairs(h, ps, map[], s, fuel);
      Onward(s, d.state);
      Done(ObjectV(|d.state.objects|), NewObject(d.state, d.result))
    case Variable(n) => ReadVariable(n, s)
    case Assign(n, x) =>
      var d :- Evaluate(h, x, s, fuel);
      Onward(s, d.state);
      Done(d.result, Assigned(d.state, n, d.result))
    case IndexAssign(_, _, _) => EvaluateIndexAssign(h, e, s, fuel)
    case DictAssign(_, _, _) => EvaluateDictAssign(h, e, s, fuel)
    case Binary(_, _, _) => EvaluateBinary(h, e, s, fuel)
    case Unary(op, x) =>
      var d :- Evaluate(h, x, s, fuel);
      Onward(s, d.state);
      Done(OperateUnary(op, d.result, d.state.objects), d.state)
    case Call(_, _) => EvaluateCall(h, e, s, fuel)
    case Dot(o, p) =>
      var d :- Evaluate(h, o, s, fuel);
      Onward(s, d.state);
      Property(d.result, p, d.state)
    case Index(_, _) => EvaluateIndex(h, e, s, fuel)
    case Super(args) =>
      match ParentOfCurrent(s)
      case None => Refuse(s)
      case Some(p) => EvaluateSuper(h, args, p, s, fuel)
  }

  /** The value is evaluated before the object and the index. */
  function EvaluateIndexAssign(h: Host, e: Expr, s: State, fuel: nat): (r: Outcome<Value>)
    requires Sound(s) && e.IndexAssign?
    ensures Yields(s, r)
    decreases fuel, 3, e, 2
  {
    hide Framed, Sound, Knotted;
    var d :- Evaluate(h, e.value, s, fuel);
    Onward(s, d.state);
    AssignIndex(h, e, d.result, d.state, fuel)
  }

  /** The object is evaluated before the value. */
  function EvaluateDictAssign(h: Host, e: Expr, s: State, fuel: nat): (r: Outcome<Value>)
    requires Sound(s) && e.DictAssign?
    ensures Yields(s, r)
    decreases fuel, 3, e, 1
  {
    hide Framed, Sound, Knotted, AssignProperty;
    var d :- Evaluate(h, e.obj, s, fuel);
    Onward(s, d.state);
    var f :- Evaluate(h, e.value, d.state, fuel);
    Onward(s, f.state);
    AssignProperty(e.obj, d.result, e.key, f.result, f.state)
  }

  /** Both operands are always evaluated. */
  function EvaluateBinary(h: Host, e: Expr, s: State, fuel: nat): (r: Outcome<Value>)
    requires Sound(s) && e.Binary?
    ensures Yields(s, r)
    decreases fuel, 3, e, 1
  {
    hide Framed, Sound, Knotted, Operate;
    var d :- Evaluate(h, e.left, s, fuel);
    Onward(s, d.state);
    var f :- Evaluate(h, e.right, d.state, fuel);
    Onward(s, f.state);
    Operate(h, e.op, d.result, f.result, f.state)
  }

  function EvaluateCall(h: Host, e: Expr, s: State, fuel: nat): (r: Outcome<Value>)
    requires Sound(s) && e.Call?
    ensures Yields(s, r)
    decreases fuel, 3, e, 1
  {
    hide Framed, Sound, Knotted;
    var d :- Evaluate(h, e.callee, s, fuel);
    Onward(s, d.state);
    var a :- EvaluateAll(h, e.args, [], d.state, fuel);
    Onward(s, a.state);
    Invoke(h, d.result, a.result, a.state, fuel)
  }

  function EvaluateIndex(h: Host, e: Expr, s: State, fuel: nat): (r: Outcome<Value>)
    requires Sound(s) && e.Index?
    ensures Yields(s, r)
    decreases fuel, 3, e, 1
  {
    hide Framed, Sound, Knotted, Element;
    var d :- Evaluate(h, e.obj, s, fuel);
    Onward(s, d.state);
    var f :- Evaluate(h, e.index, d.state, fuel);
    Onward(s, f.state);
    Element(d.result, f.result, f.state)
  }

  function EvaluateSuper(h: Host, args: seq<Expr>, p: nat, s: State, fuel: nat): (r: Outcome<Value>)
    requires Sound(s) && p < |s.classes|
    ensures Yields(s, r)
    decreases fuel, 3, args, 1
  {
    hide Framed, Knotted;
    var a :- EvaluateAll(h, args, [], s, fuel);
    Onward(s, a.state);
    CallParent(h, p, a.result, a.state, fuel)
  }

  function EvaluateAll(h: Host, es: seq<Expr>, found: seq<Value>, s: State, fuel: nat): (r: Outcome<seq<Value>>)
    requires Sound(s)
    ensures Yields(s, r)
    decreases fuel, 3, es, 0
  {
    hide Sound, Knotted;
    if es == [] then Done(found, s)
    else
      var d :- Evaluate(h, es[0], s, fuel);
      Onward(s, d.state);
      EvaluateAll(h, es[1..], found + [d.result], d.state, fuel)
  }

  function EvaluatePairs(h: Host, ps: seq<Pair>, found: Record, s: State, fuel: nat): (r: Outcome<Record>)
    requires Sound(s)
    ensures Yields(s, r)
    decreases fuel, 3, ps, 0
  {
    hide Sound, Knotted;
    if ps == [] then Done(found, s)
    else
      var d :- Evaluate(h, ps[0].value, s, fuel);
      Onward(s, d.state);
      EvaluatePairs(h, ps[1..], found[ps[0].key := d.result], d.state, fuel)
  }

  /** An undefined variable is reported and reads as `null`. */
  function ReadVariable(n: string, s: State): (r: Outcome<Value>)
    requires Sound(s)
    ensures Yields(s, r)
  {
    match Binder(s.scopes, s.env, n)
    case Some(k) => Done(s.scopes[k].vars[n], s)
    case None => Refuse(s)
  }

  /** An assignment changes the nearest scope that binds the name, and defines it in the current one if none does. */
  function Assigned(s: State, n: string, v: Value): (t: State)
    requires Sound(s)
    ensures Sound(t) && Framed(s, t) && t.env == s.env
  {
    if Binder(s.scopes, s.env, n).Some? then SetVar(s, n, v) else Define(s, n, v)
  }

  /** The part of an index assignment behind the right-hand side. */
  function AssignIndex(h: Host, e: Expr, v: Value, s: State, fuel: nat): (r: Outcome<Value>)
    requires Sound(s) && e.IndexAssign?
    ensures Yields(s, r)
    decreases fuel, 3, e, 1
  {
    hide Knotted, Linked, Solid, Registered;
    var (o, i) := (e.obj, e.index);
    if o.Variable? && Binder(s.scopes, s.env, o.name).Some? then
      var home := Binder(s.scopes, s.env, o.name).value;
      var d :- Evaluate(h, i, s, fuel);
      Onward(s, d.state);
      if home >= |d.state.scopes| || o.name !in d.state.scopes[home].vars then Dangling
      else
        var obj := d.state.scopes[home].vars[o.name];
        if obj.ListV? then
          var k := Truncate(NumberOf(d.result));
          if k < 0 then Refuse(d.state)
          else
            var list := ListV(Stored(obj.items, k, v));
            Done(v, d.state.(scopes := Bind(d.state.scopes, home, o.name, list)))
        else if obj.ObjectV? then
          var key :- TextOf(h, d.result, d.state);
          StoreObject(obj.at, key.result, v, d.state)
        else AssignSlowly(h, e, v, d.state, fuel)
    else AssignSlowly(h, e, v, s, fuel)
  }

  function StoreObject(o: nat, key: string, v: Value, s: State): (r: Outcome<Value>)
    requires Sound(s)
    ensures Yields(s, r)
  {
    if o >= |s.objects| then Dangling else Done(v, SetObject(s, o, key, v))
  }

  /** Evaluates the object and the index, even if the index has been evaluated before. */
  function AssignSlowly(h: Host, e: Expr, v: Value, s: State, fuel: nat): (r: Outcome<Value>)
    requires Sound(s) && e.IndexAssign?
    ensures Yields(s, r)
    decreases fuel, 3, e, 0
  {
    hide Framed, Sound, Knotted, StoreCopy;
    var (o, i) := (e.obj, e.index);
    var d :- Evaluate(h, o, s, fuel);
    Onward(s, d.state);
    var f :- Evaluate(h, i, d.state, fuel);
    Onward(s, f.state);
    StoreCopy(h, o, d.result, f.result, v, f.state)
  }

  /** A copy of the list is changed, and written back if it came from a variable; a dictionary is shared. */
  function StoreCopy(h: Host, o: Expr, obj: Value, i: Value, v: Value, s: State): (r: Outcome<Value>)
    requires Sound(s)
    ensures Yields(s, r)
  {
    if obj.ListV? then
      var k := Truncate(NumberOf(i));
      if k < 0 then Refuse(s)
      else if o.Variable? then Done(v, SetVar(s, o.name, ListV(Stored(obj.items, k, v))))
      else Done(v, s)
    else if obj.ObjectV? then
      var key :- TextOf(h, i, s);
      var u :- StoreObject(obj.at, key.result, v, s);
      Done(v, if o.Variable? then SetVar(u.state, o.name, obj) else u.state)
    else Refuse(s)
  }

  function AssignProperty(o: Expr, obj: Value, key: string, v: Value, s: State): (r: Outcome<Value>)
    requires Sound(s)
    ensures Yields(s, r)
  {
    if obj.InstanceV? then
      if obj.at >= |s.instances| then Dangling
      else
        var i := s.instances[obj.at];
        Done(v, s.(instances := s.instances[obj.at := i.(properties := i.properties[key := v])]))
    else if obj.ObjectV? then
      var u :- StoreObject(obj.at, key, v, s);
      Done(v, if o.Variable? then SetVar(u.state, o.name, obj) else u.state)
    else Refuse(s)
  }

  // ---------- calls ----------

  function Invoke(h: Host, f: Value, args: seq<Value>, s: State, fuel: nat): (r: Outcome<Value>)
    requires Sound(s)
    ensures Yields(s, r)
    decreases fuel, 2
  {
    if f.NativeV? then
      var (v, objects) := h.call(f.name, f.receiver, args, s.objects);
      Done(v, s.(objects := objects))
    else if f.ClassV? then Instantiate(h, f.at, args, s, fuel)
    else if f.FunctionV? then
      var vars := BindParams(Inherited(s), f.code.params, args);
      Apply(h, f.code, vars, if |args| > |f.code.params| then Complain(s) else s, fuel)
    else Refuse(s)
  }

  /** Runs a body in a new scope below the one it was declared in; a `return` ends here. */
  function Apply(h: Host, code: Code, vars: Record, s: State, fuel: nat): (r: Outcome<Value>)
    requires Sound(s)
    ensures Yields(s, r)
    decreases fuel, 0
  {
    if fuel == 0 then Timeout
    else if code.closure >= |s.scopes| then Dangling
    else
      match ExecuteAll(h, code.body, NullV, Enter(s, vars, code.closure), fuel - 1)
      case Timeout => Timeout
      case Endless(v, objects) => Endless(v, objects)
      case Dangling => Dangling
      case Crash => Crash
      case Returned(v, t) => Done(v, BackTo(s, t))
      case Done(v, t) => Done(v, BackTo(s, t))
  }

  /** The scope that was current in `s` becomes the current one again. */
  function BackTo(s: State, t: State): (u: State)
    requires Sound(s) && Sound(t) && |s.scopes| <= |t.scopes|
    ensures Sound(u) && (Framed(s, t) ==> Framed(s, u))
  {
    t.(env := s.env)
  }

  function Constructor(d: ClassDef): Option<Code> {
    if "__constructor__" in d.methods && d.methods["__constructor__"].FunctionV?
    then Some(d.methods["__constructor__"].code) else None
  }

  /**
   * A new instance. Its constructor runs with the name of the class as current class, the constructor of
   * its parent, used where it has none itself, does not.
   */
  function Instantiate(h: Host, c: nat, args: seq<Value>, s: State, fuel: nat): (r: Outcome<Value>)
    requires Sound(s)
    ensures Yields(s, r)
    decreases fuel, 1
  {
    if c >= |s.classes| then Dangling
    else if !ChainEnds(s.classes, c) then Timeout
    else
      var this_ := InstanceV(|s.instances|);
      var d := s.classes[c];
      var t := s.(instances := s.instances + [Instance(c, map[])]);
      match Constructor(d)
      case Some(code) =>
        var a :- Apply(h, code, BindParams(Receiver(this_), code.params, args), t.(current := d.name), fuel);
        Done(this_, a.state.(current := s.current))
      case None =>
        match if d.parent.Some? then Constructor(s.classes[d.parent.value]) else None
        case None => Done(this_, t)
        case Some(code) =>
          var a :- Apply(h, code, BindParams(Receiver(this_), code.params, args), t, fuel);
          Done(this_, a.state)
  }

  /** The parent `super` refers to: that of the current class, as registered now. */
  function ParentOfCurrent(s: State): (r: Option<nat>)
    requires Sound(s)
    ensures r.Some? ==> r.value < |s.classes|
  {
    if s.current != "" && s.current in s.registry then s.classes[s.registry[s.current]].parent else None
  }

  function CallParent(h: Host, p: nat, args: seq<Value>, s: State, fuel: nat): (r: Outcome<Value>)
    requires Sound(s) && p < |s.classes|
    ensures Yields(s, r)
    decreases fuel, 1
  {
    match Constructor(s.classes[p])
    case None => Done(NullV, s)
    case Some(code) =>
      var a :- Apply(h, code, BindParams(Inherited(s), code.params, args), s, fuel);
      Done(NullV, a.state)
  }

  // ---------- statements ----------

  function Execute(h: Host, st: Stmt, s: State, fuel: nat): (r: Outcome<Value>)
    requires Sound(s)
    ensures Leaves(s, r)
    decreases fuel, 4, st, 2, 0
  {
    hide Framed, Sound, Knotted, Truthy;
    match st
    case ExprStmt(e) => Evaluate(h, e, s, fuel)
    case VarDecl(_, n, e) =>
      var d :- Evaluate(h, e, s, fuel);
      Onward(s, d.state);
      Done(d.result, Define(d.state, n, d.result))
    case If(c, b, els) =>
      var d :- Evaluate(h, c, s, fuel);
      Onward(s, d.state);
      RunBlock(h, if Truthy(d.result, d.state.objects) then b else els, map[], d.state, fuel)
    case While(c, b) => WhileLoop(h, st, s, fuel)
    case For(_, _, _, _) => ExecuteFor(h, st, s, fuel)
    case Each(_, e, _) =>
      var d :- Evaluate(h, e, s, fuel);
      Onward(s, d.state);
      if d.result.ListV? then EachLoop(h, st, d.result.items, d.state, fuel) else Done(NullV, d.state)
    case FuncDecl(n, ps, b) => Done(NullV, Define(s, n, FunctionV(Code(n, ps, b, s.env))))
    case Return(e) =>
      var d :- Evaluate(h, e, s, fuel);
      Onward(s, d.state);
      Returned(d.result, d.state)
    case Print(e) =>
      var d :- Evaluate(h, e, s, fuel);
      Onward(s, d.state);
      var t :- TextOf(h, d.result, d.state);
      Done(d.result, Printed(d.state, t.result))
    case TryCatch(b, _, _) => RunBlock(h, b, map[], s, fuel)
    case ClassDecl(n, p, impls, b) => DeclareClass(h, n, p, impls, b, s, fuel)
    case Bare =>
      Unmoved(s);
      Done(NullV, s)
  }

  /** The statements in turn; the value is that of the last one. */
  function ExecuteAll(h: Host, ss: seq<Stmt>, last: Value, s: State, fuel: nat): (r: Outcome<Value>)
    requires Sound(s)
    ensures Leaves(s, r)
    decreases fuel, 4, ss, 0, 0
  {
    hide Sound, Knotted;
    if ss == [] then Done(last, s)
    else
      var d :- Execute(h, ss[0], s, fuel);
      Onward(s, d.state);
      ExecuteAll(h, ss[1..], d.result, d.state, fuel)
  }

  /** Statements in a new scope; the scope before is current again behind them, unless a `return` gets through. */
  function RunBlock(h: Host, ss: seq<Stmt>, vars: Record, s: State, fuel: nat): (r: Outcome<Value>)
    requires Sound(s)
    ensures Leaves(s, r)
    decreases fuel, 4, ss, 1, 0
  {
    var d :- ExecuteAll(h, ss, NullV, Enter(s, vars, s.env), fuel);
    Done(NullV, BackTo(s, d.state))
  }

  function WhileLoop(h: Host, st: Stmt, s: State, fuel: nat): (r: Outcome<Value>)
    requires Sound(s) && st.While?
    ensures Leaves(s, r)
    decreases fuel, 4, st, 1, 0
  {
    hide Framed, Sound, Knotted, Truthy;
    var d :- Evaluate(h, st.condition, s, fuel);
    Onward(s, d.state);
    if !Truthy(d.result, d.state.objects) then Done(NullV, d.state)
    else if fuel == 0 then Timeout
    else
      var l :- RunBlock(h, st.body, map[], d.state, fuel - 1);
      Onward(s, l.state);
      WhileLoop(h, st, l.state, fuel - 1)
  }

  /** The start, the condition and the update of a `for` share one scope, each turn of the body has its own. */
  function ExecuteFor(h: Host, st: Stmt, s: State, fuel: nat): (r: Outcome<Value>)
    requires Sound(s) && st.For?
    ensures Leaves(s, r)
    decreases fuel, 4, st, 1, FOR_LIMIT + 1
  {
    hide Knotted, Framed, Enter, Chained, Linked, Solid, Registered;
    var inner := Enter(s, map[], s.env);
    var d :- Execute(h, st.start, inner, fuel);
    Onward(inner, d.state);
    var l :- ForLoop(h, st, 0, d.state, fuel);
    Outward(s, l.state);
    Done(NullV, BackTo(s, l.state))
  }

  /** The turns of a `for` behind the first `n`; the condition is evaluated once more than the limit. */
  function ForLoop(h: Host, st: Stmt, n: nat, s: State, fuel: nat): (r: Outcome<Value>)
    requires Sound(s) && st.For? && n <= FOR_LIMIT
    ensures Leaves(s, r)
    decreases fuel, 4, st, 1, FOR_LIMIT - n
  {
    hide Framed, Sound, Knotted, Truthy;
    var d :- Evaluate(h, st.condition, s, fuel);
    Onward(s, d.state);
    if !Truthy(d.result, d.state.objects) || n == FOR_LIMIT then Done(NullV, d.state)
    else
      var t :- ForTurn(h, st, d.state, fuel);
      Onward(s, t.state);
      ForLoop(h, st, n + 1, t.state, fuel)
  }

  function ForTurn(h: Host, st: Stmt, s: State, fuel: nat): (r: Outcome<Value>)
    requires Sound(s) && st.For?
    ensures Leaves(s, r)
    decreases fuel, 4, st, 0, 0
  {
    hide Framed, Sound, Knotted;
    var l :- RunBlock(h, st.body, map[], s, fuel);
    Onward(s, l.state);
    Execute(h, st.update, l.state, fuel)
  }

  /** The turns of an `each` over the items left of the list as it was evaluated. */
  function EachLoop(h: Host, st: Stmt, items: seq<Value>, s: State, fuel: nat): (r: Outcome<Value>)
    requires Sound(s) && st.Each?
    ensures Leaves(s, r)
    decreases fuel, 4, st, 1, |items|
  {
    hide Sound, Knotted;
    if items == [] then Done(NullV, s)
    else
      var l :- RunBlock(h, st.body, map[st.varName := items[0]], s, fuel);
      Onward(s, l.state);
      EachLoop(h, st, items[1..], l.state, fuel)
  }

  // ---------- classes ----------

  /** Registers the class under its name, then looks up its parents: a class can name itself. */
  function Register(s: State, n: string, p: string, impls: seq<string>): (t: State)
    requires Sound(s)
    ensures Sound(t) && |t.classes| == |s.classes| + 1 && t.scopes == s.scopes && t.env == s.env && t.objects == s.objects
    ensures s.classes <= t.classes && t.classes[|s.classes|].name == n
  {
    var registry := s.registry[n := |s.classes|];
    RegisteredEdges(registry, n, p, impls, |s.classes|);
    s.(classes := s.classes + [NewClass(registry, n, p, impls)], registry := registry)
  }

  /** The members of a class are met in a scope of its own, with the class as current one. */
  function OpenClass(s: State, n: string, p: string, impls: seq<string>): (t: State)
    requires Sound(s)
    ensures Sound(t) && |t.classes| == |s.classes| + 1
    ensures forall u :: FramedBut(t, u, |s.classes|) ==> Framed(s, u) && |s.classes| < |u.classes|
  {
    hide Kept, Chained, Linked, Solid, Registered;
    var r := Register(s, n, p, impls);
    var t := Enter(r, Receiver(NullV), s.env).(current := n);
    assert forall u :: FramedBut(t, u, |s.classes|) ==> Framed(s, u) && |s.classes| < |u.classes| by {
      forall u | FramedBut(t, u, |s.classes|) ensures Framed(s, u) && |s.classes| < |u.classes| { Opened(s, t, u); }
    }
    t
  }

  lemma {:induction false} Opened(s: State, t: State, u: State)
    requires |t.classes| == |s.classes| + 1 && s.classes <= t.classes && t.classes[|s.classes|].name == t.current
    requires Kept(t, u, |s.classes|)
    ensures Kept(s, u, |s.classes|)
  {
    assert SameHead(t.classes[|s.classes|], u.classes[|s.classes|]);
  }

  /** Behind them there is no current class, whichever there was before. */
  function CloseClass(s: State, n: string, u: State): (t: State)
    requires Sound(s) && Sound(u) && Framed(s, u) && |s.classes| < |u.classes|
    ensures Sound(t) && Framed(s, t) && t.env == s.env && t.current == ""
  {
    Define(BackTo(s, u).(current := ""), n, ClassV(|s.classes|))
  }

  function DeclareClass(h: Host, n: string, p: string, impls: seq<string>, b: seq<Stmt>, s: State, fuel: nat):
    (r: Outcome<Value>)
    requires Sound(s)
    ensures Leaves(s, r)
    decreases fuel, 4, b, 1, 0
  {
    hide Framed, Sound, Knotted, OpenClass, CloseClass;
    var d :- ClassBody(h, b, |s.classes|, n, OpenClass(s, n, p, impls), fuel);
    Done(ClassV(|s.classes|), CloseClass(s, n, d.state))
  }

  /** Functions become methods, everything else is evaluated in the scope of the class. */
  function ClassBody(h: Host, b: seq<Stmt>, c: nat, n: string, s: State, fuel: nat): (r: Outcome<Value>)
    requires Sound(s) && c < |s.classes|
    ensures LeavesMembers(s, r, c)
    decreases fuel, 4, b, 0, 0
  {
    hide Sound, Knotted, AddMember;
    if b == [] then Done(NullV, s)
    else if b[0].FuncDecl? then
      var t := AddMember(s, c, n, Code(b[0].name, b[0].params, b[0].body, s.env));
      OnwardBut(s, t, c);
      ClassBody(h, b[1..], c, n, t, fuel)
    else
      var d :- Execute(h, b[0], s, fuel);
      OnwardBut(s, d.state, c);
      ClassBody(h, b[1..], c, n, d.state, fuel)
  }

  /** A method; one named like the class, `init` or `constructor` is the constructor as well. */
  function AddMember(s: State, c: nat, n: string, code: Code): (t: State)
    requires Sound(s) && c < |s.classes|
    ensures Sound(t) && FramedBut(s, t, c) && t.env == s.env
  {
    hide AddMethod, Sound;
    var t := AddMethod(s, c, code.name, FunctionV(code));
    OnwardBut(s, t, c);
    if code.name == n || code.name == "init" || code.name == "constructor"
    then AddMethod(t, c, "__constructor__", FunctionV(code)) else t
  }

  // ---------- programs ----------

  /** A program starts with one empty scope and nothing else. */
  const START := State([Scope(map[], None)], 0, [], [], [], map[], "", [], 0)

  function Run(h: Host, program: seq<Stmt>, s: State, fuel: nat): Outcome<Value>
    requires Sound(s)
  {
    ExecuteAll(h, program, NullV, s, fuel)
  }
}
