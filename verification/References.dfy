/**
 * No reference ever dangles: closures, dictionaries, classes and instances that values refer to exist, in
 * every state a program reaches.
 */
module References {
  import opened Options
  import opened Ast
  import opened Tokens
  import opened Values
  import opened Environments
  import opened Classes
  import opened Evaluation

  /** How many entries there are to refer to, and which scopes are not to be referred to. */
  datatype Sizes = Sizes(scopes: nat, objects: nat, classes: nat, instances: nat, hidden: set<nat>)

  function SizesOf(s: State, hid: set<nat>): Sizes {
    Sizes(|s.scopes|, |s.objects|, |s.classes|, |s.instances|, hid)
  }

  /** Nothing gets lost; only what is new can get hidden. */
  ghost predicate Within(y: Sizes, z: Sizes) {
    && y.scopes <= z.scopes && y.objects <= z.objects && y.classes <= z.classes && y.instances <= z.instances
    && forall k :: k in z.hidden ==> k in y.hidden || y.scopes <= k
  }

  /** Everything the value refers to exists and is not hidden. */
  ghost predicate Refers(v: Value, z: Sizes) {
    match v
    case FunctionV(code) => code.closure < z.scopes && code.closure !in z.hidden
    case InstanceV(at) => at < z.instances
    case ClassV(at) => at < z.classes
    case ObjectV(at) => at < z.objects
    case ListV(items) => forall k :: 0 <= k < |items| ==> Refers(items[k], z)
    case NativeV(_, receiver) => forall k :: 0 <= k < |receiver| ==> Refers(receiver[k], z)
    case NullV => true
    case NumberV(_) => true
    case StringV(_) => true
    case BoolV(_) => true
  }

  ghost predicate AllRefer(vs: seq<Value>, z: Sizes) {
    forall k :: 0 <= k < |vs| ==> Refers(vs[k], z)
  }

  ghost predicate RecordRefers(m: Record, z: Sizes) {
    forall n :: n in m ==> Refers(m[n], z)
  }

  ghost predicate ScopesRefer(scopes: seq<Scope>, z: Sizes) {
    forall k :: 0 <= k < |scopes| ==> RecordRefers(scopes[k].vars, z)
  }

  ghost predicate RecordsRefer(records: seq<Record>, z: Sizes) {
    forall k :: 0 <= k < |records| ==> RecordRefers(records[k], z)
  }

  ghost predicate ClassesRefer(classes: seq<ClassDef>, z: Sizes) {
    forall k :: 0 <= k < |classes| ==> RecordRefers(classes[k].methods, z)
  }

  ghost predicate InstanceRefers(i: Instance, z: Sizes) {
    i.definition < z.classes && RecordRefers(i.properties, z)
  }

  ghost predicate InstancesRefer(instances: seq<Instance>, z: Sizes) {
    forall k :: 0 <= k < |instances| ==> InstanceRefers(instances[k], z)
  }

  ghost predicate StoreRefers(s: State, z: Sizes) {
    && ScopesRefer(s.scopes, z)
    && RecordsRefer(s.objects, z)
    && ClassesRefer(s.classes, z)
    && InstancesRefer(s.instances, z)
  }

  /** The hidden scopes exist; neither the current scope nor the parent of another one is hidden. */
  ghost predicate Apart(s: State, hid: set<nat>) {
    && (forall k :: k in hid ==> k < |s.scopes|)
    && s.env !in hid
    && forall k :: 0 <= k < |s.scopes| && k !in hid && s.scopes[k].parent.Some? ==> s.scopes[k].parent.value !in hid
  }

  /** No reference leads nowhere or to a hidden scope. */
  ghost predicate Whole(s: State, hid: set<nat>) { StoreRefers(s, SizesOf(s, hid)) && Apart(s, hid) }

  /** Native functions keep the dictionaries there are and hand on only references they have been given. */
  ghost predicate Tame(h: Host) {
    forall name: string, receiver: seq<Value>, args: seq<Value>, objects: seq<Record>, z: Sizes ::
      z.objects == |objects| && AllRefer(receiver, z) && AllRefer(args, z) && RecordsRefer(objects, z) ==>
        TameReply(h.call(name, receiver, args, objects), z)
  }

  ghost predicate TameReply(reply: (Value, seq<Record>), z: Sizes) {
    && z.objects <= |reply.1|
    && Refers(reply.0, z.(objects := |reply.1|))
    && RecordsRefer(reply.1, z.(objects := |reply.1|))
  }

  /** A whole state, not smaller than `s`, with the same hidden scopes. */
  ghost predicate Follows(s: State, t: State, hid: set<nat>) {
    && Whole(t, hid) && Within(SizesOf(s, hid), SizesOf(t, hid))
    && forall k :: k in hid && k < |s.scopes| ==> t.scopes[k] == s.scopes[k]
  }

  ghost predicate Reached<T>(s: State, r: Outcome<T>, hid: set<nat>) {
    && !r.Dangling?
    && (r.Done? || r.Returned? ==> Follows(s, r.state, hid))
    && (r.Returned? ==> Refers(r.value, SizesOf(r.state, hid)))
  }

  /** No dangling reference has been followed, and none is left. */
  ghost predicate Good(s: State, r: Outcome<Value>, hid: set<nat>) {
    Reached(s, r, hid) && (r.Done? ==> Refers(r.result, SizesOf(r.state, hid)))
  }

  ghost predicate GoodAll(s: State, r: Outcome<seq<Value>>, hid: set<nat>) {
    Reached(s, r, hid) && (r.Done? ==> AllRefer(r.result, SizesOf(r.state, hid)))
  }

  ghost predicate GoodRecord(s: State, r: Outcome<Record>, hid: set<nat>) {
    Reached(s, r, hid) && (r.Done? ==> RecordRefers(r.result, SizesOf(r.state, hid)))
  }

  // ---------- references stay good when the store grows ----------

  lemma {:induction false} RefersMore(v: Value, y: Sizes, z: Sizes)
    requires Refers(v, y) && Within(y, z)
    ensures Refers(v, z)
  {
    if v.ListV? {
      forall k | 0 <= k < |v.items| ensures Refers(v.items[k], z) { RefersMore(v.items[k], y, z); }
    } else if v.NativeV? {
      forall k | 0 <= k < |v.receiver| ensures Refers(v.receiver[k], z) { RefersMore(v.receiver[k], y, z); }
    }
  }

  lemma {:induction false} AllReferMore(vs: seq<Value>, y: Sizes, z: Sizes)
    requires AllRefer(vs, y) && Within(y, z)
    ensures AllRefer(vs, z)
  {
    hide Refers, Within;
    forall k | 0 <= k < |vs| ensures Refers(vs[k], z) { RefersMore(vs[k], y, z); }
  }

  lemma {:induction false} RecordMore(m: Record, y: Sizes, z: Sizes)
    requires RecordRefers(m, y) && Within(y, z)
    ensures RecordRefers(m, z)
  {
    hide Refers, Within;
    forall n | n in m ensures Refers(m[n], z) { RefersMore(m[n], y, z); }
  }

  lemma {:induction false} RecordsMore(records: seq<Record>, y: Sizes, z: Sizes)
    requires RecordsRefer(records, y) && Within(y, z)
    ensures RecordsRefer(records, z)
  {
    hide RecordRefers, Within;
    forall k | 0 <= k < |records| ensures RecordRefers(records[k], z) { RecordMore(records[k], y, z); }
  }

  lemma {:induction false} StoreMore(s: State, y: Sizes, z: Sizes)
    requires StoreRefers(s, y) && Within(y, z)
    ensures StoreRefers(s, z)
  {
    hide RecordRefers, RecordsRefer;
    forall k | 0 <= k < |s.scopes| ensures RecordRefers(s.scopes[k].vars, z) { RecordMore(s.scopes[k].vars, y, z); }
    RecordsMore(s.objects, y, z);
    forall k | 0 <= k < |s.classes| ensures RecordRefers(s.classes[k].methods, z) {
      RecordMore(s.classes[k].methods, y, z);
    }
    forall k | 0 <= k < |s.instances| ensures RecordRefers(s.instances[k].properties, z) {
      assert InstanceRefers(s.instances[k], y);
      RecordMore(s.instances[k].properties, y, z);
    }
  }

  // ---------- small steps ----------

  lemma {:induction false} RecordPut(m: Record, n: string, v: Value, z: Sizes)
    requires RecordRefers(m, z) && Refers(v, z)
    ensures RecordRefers(m[n := v], z)
  {
    hide Refers;
  }

  lemma {:induction false} BindWhole(s: State, k: nat, n: string, v: Value, hid: set<nat>)
    requires Sound(s) && Whole(s, hid) && Refers(v, SizesOf(s, hid)) && k < |s.scopes| && k !in hid
    ensures Follows(s, s.(scopes := Bind(s.scopes, k, n, v)), hid)
  {
    hide RecordRefers, Refers, RecordsRefer, ClassesRefer, InstancesRefer;
    RecordPut(s.scopes[k].vars, n, v, SizesOf(s, hid));
  }

  /** Names are looked up in scopes that are not hidden. */
  lemma {:induction false} BinderIsVisible(s: State, at: nat, n: string, hid: set<nat>)
    requires Chained(s.scopes) && Apart(s, hid) && at < |s.scopes| && at !in hid
    ensures var k := Binder(s.scopes, at, n); k.Some? ==> k.value !in hid
    decreases at
  {
    if n !in s.scopes[at].vars && s.scopes[at].parent.Some? {
      BinderIsVisible(s, s.scopes[at].parent.value, n, hid);
    }
  }

  lemma {:induction false} SetVarWhole(s: State, n: string, v: Value, hid: set<nat>)
    requires Sound(s) && Whole(s, hid) && Refers(v, SizesOf(s, hid))
    ensures Follows(s, SetVar(s, n, v), hid) && Follows(s, Define(s, n, v), hid) && Follows(s, Assigned(s, n, v), hid)
  {
    hide RecordRefers, Refers, Bind, ScopesRefer, RecordsRefer, ClassesRefer, InstancesRefer;
    BindWhole(s, s.env, n, v, hid);
    BinderIsVisible(s, s.env, n, hid);
    if Binder(s.scopes, s.env, n).Some? {
      BindWhole(s, Binder(s.scopes, s.env, n).value, n, v, hid);
    }
  }

  lemma {:induction false} EnterWhole(s: State, vars: Record, parent: nat, hid: set<nat>)
    requires Sound(s) && Whole(s, hid) && RecordRefers(vars, SizesOf(s, hid)) && parent < |s.scopes| && parent !in hid
    ensures Follows(s, Enter(s, vars, parent), hid)
  {
    hide RecordRefers, RecordsRefer, ClassesRefer, InstancesRefer;
    var t := Enter(s, vars, parent);
    StoreMore(s, SizesOf(s, hid), SizesOf(t, hid));
    RecordMore(vars, SizesOf(s, hid), SizesOf(t, hid));
  }

  lemma {:induction false} NewObjectWhole(s: State, m: Record, hid: set<nat>)
    requires Whole(s, hid) && RecordRefers(m, SizesOf(s, hid))
    ensures Follows(s, s.(objects := s.objects + [m]), hid)
  {
    hide RecordRefers, ScopesRefer, ClassesRefer, InstancesRefer;
    var t := s.(objects := s.objects + [m]);
    StoreMore(s, SizesOf(s, hid), SizesOf(t, hid));
    RecordMore(m, SizesOf(s, hid), SizesOf(t, hid));
  }

  lemma {:induction false} StoreObjectGood(o: nat, key: string, v: Value, s: State, hid: set<nat>)
    requires Sound(s) && Whole(s, hid) && Refers(v, SizesOf(s, hid)) && o < |s.objects|
    ensures Good(s, StoreObject(o, key, v, s), hid) && StoreObject(o, key, v, s).Done?
  {
    hide RecordRefers, Refers, ScopesRefer, ClassesRefer, InstancesRefer;
    RecordPut(s.objects[o], key, v, SizesOf(s, hid));
  }

  lemma {:induction false} NewInstanceWhole(s: State, c: nat, hid: set<nat>)
    requires Whole(s, hid) && c < |s.classes|
    ensures Follows(s, s.(instances := s.instances + [Instance(c, map[])]), hid)
  {
    hide ScopesRefer, RecordsRefer, ClassesRefer, Refers;
    var t := s.(instances := s.instances + [Instance(c, map[])]);
    StoreMore(s, SizesOf(s, hid), SizesOf(t, hid));
  }

  lemma {:induction false} SetPropertyWhole(s: State, at: nat, key: string, v: Value, hid: set<nat>)
    requires Whole(s, hid) && Refers(v, SizesOf(s, hid)) && at < |s.instances|
    ensures var i := s.instances[at];
            Follows(s, s.(instances := s.instances[at := i.(properties := i.properties[key := v])]), hid)
  {
    hide RecordRefers, Refers, ScopesRefer, RecordsRefer, ClassesRefer;
    assert InstanceRefers(s.instances[at], SizesOf(s, hid));
    RecordPut(s.instances[at].properties, key, v, SizesOf(s, hid));
  }

  lemma {:induction false} RegisterWhole(s: State, n: string, p: string, impls: seq<string>, hid: set<nat>)
    requires Sound(s) && Whole(s, hid)
    ensures Follows(s, Register(s, n, p, impls), hid)
  {
    hide ScopesRefer, RecordsRefer, InstancesRefer, Refers;
    var t := Register(s, n, p, impls);
    StoreMore(s, SizesOf(s, hid), SizesOf(t, hid));
    assert RecordRefers(map[], SizesOf(t, hid));
  }

  lemma {:induction false} AddMethodWhole(s: State, c: nat, n: string, v: Value, hid: set<nat>)
    requires Sound(s) && Whole(s, hid) && Refers(v, SizesOf(s, hid)) && c < |s.classes| && v.FunctionV?
    ensures Follows(s, AddMethod(s, c, n, v), hid)
  {
    hide RecordRefers, Refers, ScopesRefer, RecordsRefer, InstancesRefer;
    RecordPut(s.classes[c].methods, n, v, SizesOf(s, hid));
  }

  lemma {:induction false} AddMemberWhole(s: State, c: nat, n: string, code: Code, hid: set<nat>)
    requires Sound(s) && Whole(s, hid) && code.closure < |s.scopes| && code.closure !in hid && c < |s.classes|
    ensures Follows(s, AddMember(s, c, n, code), hid)
  {
    hide RecordRefers, ScopesRefer, RecordsRefer, ClassesRefer, InstancesRefer;
    AddMethodWhole(s, c, code.name, FunctionV(code), hid);
    AddMethodWhole(AddMethod(s, c, code.name, FunctionV(code)), c, "__constructor__", FunctionV(code), hid);
  }

  lemma {:induction false} ParamsRefer(vars: Record, params: seq<string>, args: seq<Value>, z: Sizes)
    requires RecordRefers(vars, z) && AllRefer(args, z)
    ensures RecordRefers(BindParams(vars, params, args), z)
    decreases |params|
  {
    if params != [] {
      var v := if args == [] then NullV else args[0];
      assert Refers(v, z);
      ParamsRefer(vars[params[0] := v], params[1..], if args == [] then [] else args[1..], z);
    }
  }

  lemma {:induction false} ReceiverRefers(v: Value, z: Sizes)
    requires Refers(v, z)
    ensures RecordRefers(Receiver(v), z)
  {
  }

  lemma {:induction false} VariableRefers(s: State, n: string, hid: set<nat>)
    requires Sound(s) && Whole(s, hid)
    ensures var k := Binder(s.scopes, s.env, n); k.Some? ==> Refers(s.scopes[k.value].vars[n], SizesOf(s, hid))
  {
    hide Refers, RecordsRefer, ClassesRefer, InstancesRefer;
    var k := Binder(s.scopes, s.env, n);
    if k.Some? {
      assert RecordRefers(s.scopes[k.value].vars, SizesOf(s, hid));
    }
  }

  lemma {:induction false} InheritedRefers(s: State, hid: set<nat>)
    requires Sound(s) && Whole(s, hid)
    ensures RecordRefers(Inherited(s), SizesOf(s, hid))
  {
    hide Refers, Receiver;
    VariableRefers(s, "this", hid);
    if Binder(s.scopes, s.env, "this").Some? {
      ReceiverRefers(s.scopes[Binder(s.scopes, s.env, "this").value].vars["this"], SizesOf(s, hid));
    }
  }

  lemma {:induction false} MethodRefers(classes: seq<ClassDef>, c: nat, name: string, z: Sizes)
    requires Linked(classes) && ClassesRefer(classes, z) && c < |classes|
    ensures var f := GetMethod(classes, c, name); f.Found? ==> Refers(f.result, z)
    decreases c, 1, 0
  {
    hide Refers;
    assert RecordRefers(classes[c].methods, z);
    assert EdgesUpTo(classes[c], c);
    var p := classes[c].parent;
    if p.Some? && p.value != c {
      MethodRefers(classes, p.value, name, z);
    }
    ImplsMethodRefers(classes, c, 0, name, z);
  }

  lemma {:induction false} ImplsMethodRefers(classes: seq<ClassDef>, c: nat, k: nat, name: string, z: Sizes)
    requires Linked(classes) && ClassesRefer(classes, z) && c < |classes| && k <= |classes[c].impls|
    ensures var f := MethodOfImpls(classes, c, k, name); f.Found? ==> Refers(f.result, z)
    decreases c, 0, |classes[c].impls| - k
  {
    assert Refers(NullV, z);
    hide Refers, ClassesRefer;
    assert EdgesUpTo(classes[c], c);
    if k < |classes[c].impls| {
      var p := classes[c].impls[k];
      if p != c {
        MethodRefers(classes, p, name, z);
      }
      ImplsMethodRefers(classes, c, k + 1, name, z);
    }
  }

  lemma {:induction false} BoundGood(v: Value, at: nat, s: State, hid: set<nat>)
    requires Sound(s) && Whole(s, hid) && Refers(v, SizesOf(s, hid)) && at < |s.instances|
    ensures Good(s, Bound(v, at, s), hid)
  {
    hide RecordRefers, ScopesRefer, RecordsRefer, ClassesRefer, InstancesRefer;
    if v.FunctionV? {
      ReceiverRefers(InstanceV(at), SizesOf(s, hid));
      EnterWhole(s, Receiver(InstanceV(at)), v.code.closure, hid);
      var t := Enter(s, Receiver(InstanceV(at)), v.code.closure);
      assert s.(scopes := t.scopes) == t.(env := s.env);
    }
  }

  lemma {:induction false} PropertyGood(v: Value, p: string, s: State, hid: set<nat>)
    requires Sound(s) && Whole(s, hid) && Refers(v, SizesOf(s, hid))
    ensures Good(s, Property(v, p, s), hid)
  {
    hide IsListMethod, IsStringMethod, IsNumberMethod, GetMethod, ScopesRefer, ClassesRefer, Bound;
    if v.InstanceV? {
      var i := s.instances[v.at];
      assert InstanceRefers(i, SizesOf(s, hid));
      var f := if p in i.properties then Found(i.properties[p]) else GetMethod(s.classes, i.definition, p);
      if p !in i.properties {
        MethodRefers(s.classes, i.definition, p, SizesOf(s, hid));
      }
      if f.Found? {
        BoundGood(f.result, v.at, s, hid);
      }
    } else if v.ObjectV? {
      assert RecordRefers(s.objects[v.at], SizesOf(s, hid));
    }
  }

  lemma {:induction false} ElementGood(v: Value, i: Value, s: State, hid: set<nat>)
    requires Sound(s) && Whole(s, hid) && Refers(v, SizesOf(s, hid))
    ensures Good(s, Element(v, i, s), hid)
  {
    hide ScopesRefer, ClassesRefer, InstancesRefer, Truncate;
    if v.ObjectV? {
      assert RecordRefers(s.objects[v.at], SizesOf(s, hid));
    }
  }

  lemma {:induction false} StoredRefers(items: seq<Value>, i: nat, v: Value, z: Sizes)
    requires AllRefer(items, z) && Refers(v, z)
    ensures Refers(ListV(Stored(items, i, v)), z)
  {
  }

  lemma {:induction false} OperateGood(h: Host, op: TokenType, a: Value, b: Value, s: State, hid: set<nat>)
    requires Whole(s, hid)
    ensures Good(s, Operate(h, op, a, b, s), hid)
  {
    hide Combine, Whole, StoreRefers;
    assert Follows(s, s, hid) && Follows(s, Complain(s), hid) by { Unchanged(s, hid); }
  }

  lemma {:induction false} Unchanged(s: State, hid: set<nat>)
    requires Whole(s, hid)
    ensures Follows(s, s, hid) && Follows(s, Complain(s), hid) && Good(s, Refuse(s), hid)
  {
  }

  lemma {:induction false} ListRefers(vs: seq<Value>, z: Sizes)
    requires AllRefer(vs, z)
    ensures Refers(ListV(vs), z)
  {
  }

  lemma {:induction false} EmptyRefers(z: Sizes)
    ensures RecordRefers(map[], z)
  {
  }

  // ---------- expressions ----------

  lemma {:induction false} EvaluateGood(h: Host, e: Expr, s: State, fuel: nat, hid: set<nat>)
    requires Tame(h) && Sound(s) && Whole(s, hid)
    ensures Good(s, Evaluate(h, e, s, fuel), hid)
    decreases fuel, 3, e, 3
  {
    hide Framed, Chained, Linked, Solid, Registered, StoreRefers, Tame, Truthy, Property, EvaluateDictAssign;
    hide EvaluateBinary;
    hide EvaluateCall, EvaluateIndex, EvaluateSuper, AssignIndex, ParentOfCurrent, Assigned, RecordRefers;
    match e
    case Number(_) =>
    case Str(_) =>
    case Bool(_) =>
    case Null =>
    case Variable(n) => VariableRefers(s, n, hid); Unchanged(s, hid);
    case List(es) =>
      AllGood(h, es, [], s, fuel, hid);
      var d := EvaluateAll(h, es, [], s, fuel);
      if d.Done? {
        ListRefers(d.result, SizesOf(d.state, hid));
      }
    case Dict(ps) => DictGood(h, ps, s, fuel, hid);
    case Assign(n, x) =>
      EvaluateGood(h, x, s, fuel, hid);
      var d := Evaluate(h, x, s, fuel);
      if d.Done? {
        SetVarWhole(d.state, n, d.result, hid);
        RefersMore(d.result, SizesOf(d.state, hid), SizesOf(Assigned(d.state, n, d.result), hid));
      }
    case IndexAssign(_, _, x) =>
      EvaluateGood(h, x, s, fuel, hid);
      var d := Evaluate(h, x, s, fuel);
      if d.Done? {
        IndexAssignGood(h, e, d.result, d.state, fuel, hid);
      }
    case DictAssign(_, _, _) => DictAssignGood(h, e, s, fuel, hid);
    case Binary(_, _, _) => BinaryGood(h, e, s, fuel, hid);
    case Unary(_, x) => EvaluateGood(h, x, s, fuel, hid);
    case Call(_, _) => CallGood(h, e, s, fuel, hid);
    case Dot(o, p) =>
      EvaluateGood(h, o, s, fuel, hid);
      var d := Evaluate(h, o, s, fuel);
      if d.Done? {
        PropertyGood(d.result, p, d.state, hid);
      }
    case Index(_, _) => IndexGood(h, e, s, fuel, hid);
    case Super(args) =>
      Unchanged(s, hid);
      if ParentOfCurrent(s).Some? {
        SuperGood(h, args, ParentOfCurrent(s).value, s, fuel, hid);
      }
  }

  lemma {:induction false} DictGood(h: Host, ps: seq<Pair>, s: State, fuel: nat, hid: set<nat>)
    requires Tame(h) && Sound(s) && Whole(s, hid)
    ensures Good(s, Evaluate(h, Dict(ps), s, fuel), hid)
    decreases fuel, 3, ps, 1
  {
    hide Tame, StoreRefers, EvaluatePairs;
    PairsGood(h, ps, map[], s, fuel, hid);
    var d := EvaluatePairs(h, ps, map[], s, fuel);
    if d.Done? {
      NewObjectWhole(d.state, d.result, hid);
    }
  }

  lemma {:induction false} AllGood(h: Host, es: seq<Expr>, found: seq<Value>, s: State, fuel: nat, hid: set<nat>)
    requires Tame(h) && Sound(s) && Whole(s, hid) && AllRefer(found, SizesOf(s, hid))
    ensures GoodAll(s, EvaluateAll(h, es, found, s, fuel), hid)
    decreases fuel, 3, es, 0
  {
    hide Framed, Chained, Linked, Solid, Registered, Evaluate, Whole, Tame, Refers;
    if es != [] {
      EvaluateGood(h, es[0], s, fuel, hid);
      var d := Evaluate(h, es[0], s, fuel);
      if d.Done? {
        AllReferMore(found, SizesOf(s, hid), SizesOf(d.state, hid));
        AllGood(h, es[1..], found + [d.result], d.state, fuel, hid);
      }
    }
  }

  lemma {:induction false} PairsGood(h: Host, ps: seq<Pair>, found: Record, s: State, fuel: nat, hid: set<nat>)
    requires Tame(h) && Sound(s) && Whole(s, hid) && RecordRefers(found, SizesOf(s, hid))
    ensures GoodRecord(s, EvaluatePairs(h, ps, found, s, fuel), hid)
    decreases fuel, 3, ps, 0
  {
    hide Framed, Chained, Linked, Solid, Registered, Evaluate, Whole, Tame, Refers, RecordRefers;
    if ps != [] {
      EvaluateGood(h, ps[0].value, s, fuel, hid);
      var d := Evaluate(h, ps[0].value, s, fuel);
      if d.Done? {
        RecordMore(found, SizesOf(s, hid), SizesOf(d.state, hid));
        RecordPut(found, ps[0].key, d.result, SizesOf(d.state, hid));
        PairsGood(h, ps[1..], found[ps[0].key := d.result], d.state, fuel, hid);
      }
    }
  }

  lemma {:induction false} BinaryGood(h: Host, e: Expr, s: State, fuel: nat, hid: set<nat>)
    requires Tame(h) && Sound(s) && Whole(s, hid) && e.Binary?
    ensures Good(s, EvaluateBinary(h, e, s, fuel), hid)
    decreases fuel, 3, e, 1
  {
    hide Framed, Chained, Linked, Solid, Registered, Evaluate, Whole, Tame, Refers, Operate;
    EvaluateGood(h, e.left, s, fuel, hid);
    var d := Evaluate(h, e.left, s, fuel);
    if d.Done? {
      EvaluateGood(h, e.right, d.state, fuel, hid);
      var f := Evaluate(h, e.right, d.state, fuel);
      if f.Done? {
        RefersMore(d.result, SizesOf(d.state, hid), SizesOf(f.state, hid));
        OperateGood(h, e.op, d.result, f.result, f.state, hid);
      }
    }
  }

  lemma {:induction false} IndexGood(h: Host, e: Expr, s: State, fuel: nat, hid: set<nat>)
    requires Tame(h) && Sound(s) && Whole(s, hid) && e.Index?
    ensures Good(s, EvaluateIndex(h, e, s, fuel), hid)
    decreases fuel, 3, e, 1
  {
    hide Framed, Chained, Linked, Solid, Registered, Evaluate, Whole, Tame, Refers, Element;
    EvaluateGood(h, e.obj, s, fuel, hid);
    var d := Evaluate(h, e.obj, s, fuel);
    if d.Done? {
      EvaluateGood(h, e.index, d.state, fuel, hid);
      var f := Evaluate(h, e.index, d.state, fuel);
      if f.Done? {
        RefersMore(d.result, SizesOf(d.state, hid), SizesOf(f.state, hid));
        ElementGood(d.result, f.result, f.state, hid);
      }
    }
  }

  lemma {:induction false} DictAssignGood(h: Host, e: Expr, s: State, fuel: nat, hid: set<nat>)
    requires Tame(h) && Sound(s) && Whole(s, hid) && e.DictAssign?
    ensures Good(s, EvaluateDictAssign(h, e, s, fuel), hid)
    decreases fuel, 3, e, 1
  {
    hide Framed, Chained, Linked, Solid, Registered, Evaluate, Whole, Tame, Refers, AssignProperty;
    EvaluateGood(h, e.obj, s, fuel, hid);
    var d := Evaluate(h, e.obj, s, fuel);
    if d.Done? {
      EvaluateGood(h, e.value, d.state, fuel, hid);
      var f := Evaluate(h, e.value, d.state, fuel);
      if f.Done? {
        RefersMore(d.result, SizesOf(d.state, hid), SizesOf(f.state, hid));
        AssignPropertyGood(e.obj, d.result, e.key, f.result, f.state, hid);
      }
    }
  }

  lemma {:induction false} AssignPropertyGood(o: Expr, obj: Value, key: string, v: Value, s: State, hid: set<nat>)
    requires Sound(s) && Whole(s, hid) && Refers(obj, SizesOf(s, hid)) && Refers(v, SizesOf(s, hid))
    ensures Good(s, AssignProperty(o, obj, key, v, s), hid)
  {
    hide StoreRefers, SetVar, StoreObject;
    if obj.InstanceV? {
      SetPropertyWhole(s, obj.at, key, v, hid);
      var i := s.instances[obj.at];
      var t := s.(instances := s.instances[obj.at := i.(properties := i.properties[key := v])]);
      RefersMore(v, SizesOf(s, hid), SizesOf(t, hid));
    } else if obj.ObjectV? {
      StoreObjectGood(obj.at, key, v, s, hid);
      StoreThenSet(o, obj, StoreObject(obj.at, key, v, s).state, v, s, hid);
    } else {
      Unchanged(s, hid);
    }
  }

  /** A dictionary written to is stored in its variable once more. */
  lemma {:induction false} StoreThenSet(o: Expr, obj: Value, t: State, v: Value, s: State, hid: set<nat>)
    requires Sound(t) && Follows(s, t, hid) && Refers(obj, SizesOf(s, hid)) && Refers(v, SizesOf(s, hid))
    ensures var u := if o.Variable? then SetVar(t, o.name, obj) else t; Follows(s, u, hid) && Refers(v, SizesOf(u, hid))
  {
    hide Whole, SetVar, Refers;
    var u := if o.Variable? then SetVar(t, o.name, obj) else t;
    RefersMore(obj, SizesOf(s, hid), SizesOf(t, hid));
    if o.Variable? {
      SetVarWhole(t, o.name, obj, hid);
    }
    RefersMore(v, SizesOf(s, hid), SizesOf(u, hid));
  }

  lemma {:induction false} HomeIsVisible(s: State, n: string, hid: set<nat>)
    requires Sound(s) && Whole(s, hid)
    ensures var k := Binder(s.scopes, s.env, n); k.Some? ==> k.value !in hid
  {
    BinderIsVisible(s, s.env, n, hid);
  }

  lemma {:induction false} IndexAssignGood(h: Host, e: Expr, v: Value, s: State, fuel: nat, hid: set<nat>)
    requires Tame(h) && Sound(s) && Whole(s, hid) && e.IndexAssign? && Refers(v, SizesOf(s, hid))
    ensures Good(s, AssignIndex(h, e, v, s, fuel), hid)
    decreases fuel, 3, e, 1
  {
    hide Evaluate, AssignSlowly, Whole, Tame, Refers, Stored, StoreObject, Truncate, TextOf, Bind, Binder;
    var home := if e.obj.Variable? then Binder(s.scopes, s.env, e.obj.name) else None;
    if home.Some? {
      EvaluateGood(h, e.index, s, fuel, hid);
      var d := Evaluate(h, e.index, s, fuel);
      if d.Done? {
        RefersMore(v, SizesOf(s, hid), SizesOf(d.state, hid));
        assert Framed(s, d.state);
        assert e.obj.name in d.state.scopes[home.value].vars;
        HomeIsVisible(s, e.obj.name, hid);
        FastGood(e, v, d.result, home.value, d.state, hid);
        SlowlyGood(h, e, v, d.state, fuel, hid);
      }
    } else {
      SlowlyGood(h, e, v, s, fuel, hid);
    }
  }

  /** The element is stored into the list or the dictionary the variable holds. */
  lemma {:induction false} FastGood(e: Expr, v: Value, i: Value, home: nat, s: State, hid: set<nat>)
    requires Sound(s) && Whole(s, hid) && Refers(v, SizesOf(s, hid)) && e.IndexAssign? && e.obj.Variable?
    requires home < |s.scopes| && home !in hid && e.obj.name in s.scopes[home].vars
    ensures var obj := s.scopes[home].vars[e.obj.name];
      && (obj.ListV? && Truncate(NumberOf(i)) >= 0 ==>
            var list := ListV(Stored(obj.items, Truncate(NumberOf(i)), v));
            var t := s.(scopes := Bind(s.scopes, home, e.obj.name, list));
            Follows(s, t, hid) && Refers(v, SizesOf(t, hid)))
      && (obj.ObjectV? ==> forall key :: Good(s, StoreObject(obj.at, key, v, s), hid))
      && Refers(obj, SizesOf(s, hid)) && Good(s, Refuse(s), hid)
  {
    hide Stored, Truncate, StoreObject, Bind, RecordsRefer, ClassesRefer, InstancesRefer;
    Unchanged(s, hid);
    var obj := s.scopes[home].vars[e.obj.name];
    assert RecordRefers(s.scopes[home].vars, SizesOf(s, hid));
    if obj.ListV? && Truncate(NumberOf(i)) >= 0 {
      var list := ListV(Stored(obj.items, Truncate(NumberOf(i)), v));
      StoredRefers(obj.items, Truncate(NumberOf(i)), v, SizesOf(s, hid));
      BindWhole(s, home, e.obj.name, list, hid);
      RefersMore(v, SizesOf(s, hid), SizesOf(s.(scopes := Bind(s.scopes, home, e.obj.name, list)), hid));
    } else if obj.ObjectV? {
      forall key ensures Good(s, StoreObject(obj.at, key, v, s), hid) { StoreObjectGood(obj.at, key, v, s, hid); }
    }
  }

  lemma {:induction false} SlowlyGood(h: Host, e: Expr, v: Value, s: State, fuel: nat, hid: set<nat>)
    requires Tame(h) && Sound(s) && Whole(s, hid) && e.IndexAssign? && Refers(v, SizesOf(s, hid))
    ensures Good(s, AssignSlowly(h, e, v, s, fuel), hid)
    decreases fuel, 3, e, 0
  {
    hide Framed, Chained, Linked, Solid, Registered, Evaluate, Whole, Tame, Refers, StoreCopy;
    EvaluateGood(h, e.obj, s, fuel, hid);
    var d := Evaluate(h, e.obj, s, fuel);
    if d.Done? {
      EvaluateGood(h, e.index, d.state, fuel, hid);
      var f := Evaluate(h, e.index, d.state, fuel);
      if f.Done? {
        RefersMore(d.result, SizesOf(d.state, hid), SizesOf(f.state, hid));
        RefersMore(v, SizesOf(s, hid), SizesOf(f.state, hid));
        StoreCopyGood(h, e.obj, d.result, f.result, v, f.state, hid);
      }
    }
  }

  lemma {:induction false} StoreCopyGood(h: Host, o: Expr, obj: Value, i: Value, v: Value, s: State, hid: set<nat>)
    requires Sound(s) && Whole(s, hid) && Refers(obj, SizesOf(s, hid)) && Refers(v, SizesOf(s, hid))
    ensures Good(s, StoreCopy(h, o, obj, i, v, s), hid)
  {
    hide Stored, Truncate, StoreObject, StoreRefers, SetVar, TextOf;
    Unchanged(s, hid);
    if obj.ListV? && Truncate(NumberOf(i)) >= 0 {
      StoredRefers(obj.items, Truncate(NumberOf(i)), v, SizesOf(s, hid));
      StoreThenSet(o, ListV(Stored(obj.items, Truncate(NumberOf(i)), v)), s, v, s, hid);
    } else if obj.ObjectV? {
      var key := TextOf(h, i, s);
      if key.Done? {
        StoreObjectGood(obj.at, key.result, v, s, hid);
        StoreThenSet(o, obj, StoreObject(obj.at, key.result, v, s).state, v, s, hid);
      }
    }
  }

  lemma {:induction false} CallGood(h: Host, e: Expr, s: State, fuel: nat, hid: set<nat>)
    requires Tame(h) && Sound(s) && Whole(s, hid) && e.Call?
    ensures Good(s, EvaluateCall(h, e, s, fuel), hid)
    decreases fuel, 3, e, 1
  {
    hide Framed, Chained, Linked, Solid, Registered, Evaluate, EvaluateAll, Invoke, Whole, Tame, Refers;
    EvaluateGood(h, e.callee, s, fuel, hid);
    var d := Evaluate(h, e.callee, s, fuel);
    if d.Done? {
      AllGood(h, e.args, [], d.state, fuel, hid);
      var a := EvaluateAll(h, e.args, [], d.state, fuel);
      if a.Done? {
        RefersMore(d.result, SizesOf(d.state, hid), SizesOf(a.state, hid));
        InvokeGood(h, d.result, a.result, a.state, fuel, hid);
      }
    }
  }

  lemma {:induction false} SuperGood(h: Host, args: seq<Expr>, p: nat, s: State, fuel: nat, hid: set<nat>)
    requires Tame(h) && Sound(s) && Whole(s, hid) && p < |s.classes|
    ensures Good(s, EvaluateSuper(h, args, p, s, fuel), hid)
    decreases fuel, 3, args, 1
  {
    hide Framed, Chained, Linked, Solid, Registered, EvaluateAll, CallParent, Whole, Tame, Refers;
    AllGood(h, args, [], s, fuel, hid);
    var a := EvaluateAll(h, args, [], s, fuel);
    if a.Done? {
      CallParentGood(h, p, a.result, a.state, fuel, hid);
    }
  }

  // ---------- calls ----------

  lemma {:induction false} NativeGood(h: Host, f: Value, args: seq<Value>, s: State, hid: set<nat>)
    requires Tame(h) && Sound(s) && Whole(s, hid) && f.NativeV? && Refers(f, SizesOf(s, hid)) && AllRefer(args, SizesOf(s, hid))
    ensures Good(s, Invoke(h, f, args, s, 0), hid)
  {
    hide ScopesRefer, ClassesRefer, InstancesRefer;
    var reply := h.call(f.name, f.receiver, args, s.objects);
    assert AllRefer(f.receiver, SizesOf(s, hid));
    assert TameReply(reply, SizesOf(s, hid));
    StoreMore(s, SizesOf(s, hid), SizesOf(s.(objects := reply.1), hid));
  }

  lemma {:induction false} InvokeGood(h: Host, f: Value, args: seq<Value>, s: State, fuel: nat, hid: set<nat>)
    requires Tame(h) && Sound(s) && Whole(s, hid) && Refers(f, SizesOf(s, hid)) && AllRefer(args, SizesOf(s, hid))
    ensures Good(s, Invoke(h, f, args, s, fuel), hid)
    decreases fuel, 2
  {
    hide Framed, Chained, Linked, Solid, Registered, Instantiate, Apply, Inherited, BindParams, StoreRefers, Tame;
    hide RecordRefers, AllRefer;
    if f.NativeV? {
      NativeGood(h, f, args, s, hid);
    } else if f.ClassV? {
      InstantiateGood(h, f.at, args, s, fuel, hid);
    } else if f.FunctionV? {
      var t := if |args| > |f.code.params| then Complain(s) else s;
      InheritedRefers(s, hid);
      ParamsRefer(Inherited(s), f.code.params, args, SizesOf(s, hid));
      Unchanged(s, hid);
      ApplyGood(h, f.code, BindParams(Inherited(s), f.code.params, args), t, fuel, hid);
    } else {
      Unchanged(s, hid);
    }
  }

  lemma {:induction false} ApplyGood(h: Host, code: Code, vars: Record, s: State, fuel: nat, hid: set<nat>)
    requires Tame(h) && Sound(s) && Whole(s, hid) && code.closure < |s.scopes| && code.closure !in hid
    requires RecordRefers(vars, SizesOf(s, hid))
    ensures Good(s, Apply(h, code, vars, s, fuel), hid)
    decreases fuel, 0
  {
    hide Framed, Chained, Linked, Solid, Registered, ExecuteAll, Enter, StoreRefers, Tame, RecordRefers;
    if fuel > 0 {
      EnterWhole(s, vars, code.closure, hid);
      var inner := Enter(s, vars, code.closure);
      BodyGood(h, code.body, NullV, inner, fuel - 1, hid);
      var r := ExecuteAll(h, code.body, NullV, inner, fuel - 1);
      if r.Done? || r.Returned? {
        BackWhole(s, r.state, hid);
      }
    }
  }

  lemma {:induction false} BackWhole(s: State, t: State, hid: set<nat>)
    requires Sound(s) && Whole(s, hid) && Sound(t) && Follows(s, t, hid)
    ensures Follows(s, BackTo(s, t), hid) && SizesOf(BackTo(s, t), hid) == SizesOf(t, hid)
  {
  }

  lemma {:induction false} ConstructorRefers(s: State, c: nat, hid: set<nat>)
    requires Whole(s, hid) && c < |s.classes|
    ensures var k := Constructor(s.classes[c]); k.Some? ==> k.value.closure < |s.scopes| && k.value.closure !in hid
  {
    hide ScopesRefer, RecordsRefer, InstancesRefer;
    assert RecordRefers(s.classes[c].methods, SizesOf(s, hid));
    if "__constructor__" in s.classes[c].methods {
      assert Refers(s.classes[c].methods["__constructor__"], SizesOf(s, hid));
    }
  }

  /** Running a constructor on a new instance. */
  lemma {:induction false} ConstructGood(h: Host, code: Code, args: seq<Value>, this_: Value, s: State,
    fuel: nat, hid: set<nat>)
    requires Tame(h) && Sound(s) && Whole(s, hid) && code.closure < |s.scopes| && code.closure !in hid
    requires Refers(this_, SizesOf(s, hid)) && AllRefer(args, SizesOf(s, hid))
    ensures var a := Apply(h, code, BindParams(Receiver(this_), code.params, args), s, fuel);
            Good(s, a, hid) && (a.Done? ==> Refers(this_, SizesOf(a.state, hid)))
    decreases fuel, 1, 0
  {
    hide Apply, StoreRefers, Tame, RecordRefers, AllRefer, Refers, Receiver;
    ReceiverRefers(this_, SizesOf(s, hid));
    ParamsRefer(Receiver(this_), code.params, args, SizesOf(s, hid));
    ApplyGood(h, code, BindParams(Receiver(this_), code.params, args), s, fuel, hid);
    var a := Apply(h, code, BindParams(Receiver(this_), code.params, args), s, fuel);
    if a.Done? {
      RefersMore(this_, SizesOf(s, hid), SizesOf(a.state, hid));
    }
  }

  lemma {:induction false} InstantiateGood(h: Host, c: nat, args: seq<Value>, s: State, fuel: nat, hid: set<nat>)
    requires Tame(h) && Sound(s) && Whole(s, hid) && c < |s.classes| && AllRefer(args, SizesOf(s, hid))
    ensures Good(s, Instantiate(h, c, args, s, fuel), hid)
    decreases fuel, 1
  {
    hide Apply, BindParams, ChainEnds, Constructor, StoreRefers, Tame, Whole, AllRefer, Receiver, Framed, Solid;
    hide Chained;
    var this_ := InstanceV(|s.instances|);
    var d := s.classes[c];
    var t := s.(instances := s.instances + [Instance(c, map[])]);
    NewInstanceWhole(s, c, hid);
    AllReferMore(args, SizesOf(s, hid), SizesOf(t, hid));
    ConstructorRefers(t, c, hid);
    var own := t.(current := d.name);
    match Constructor(d)
    case Some(code) =>
      assert Whole(own, hid) by { SameStore(t, own, hid); }
      ConstructGood(h, code, args, this_, own, fuel, hid);
      var a := Apply(h, code, BindParams(Receiver(this_), code.params, args), own, fuel);
      if a.Done? {
        SameStore(a.state, a.state.(current := s.current), hid);
      }
    case None =>
      if d.parent.Some? {
        ConstructorRefers(t, d.parent.value, hid);
        match Constructor(s.classes[d.parent.value])
        case None =>
        case Some(code) => ConstructGood(h, code, args, this_, t, fuel, hid);
      }
  }

  lemma {:induction false} SameStore(s: State, t: State, hid: set<nat>)
    requires Whole(s, hid) && t.scopes == s.scopes && t.env == s.env && t.objects == s.objects
    requires t.classes == s.classes && t.instances == s.instances
    ensures Follows(s, t, hid)
  {
  }

  lemma {:induction false} CallParentGood(h: Host, p: nat, args: seq<Value>, s: State, fuel: nat, hid: set<nat>)
    requires Tame(h) && Sound(s) && Whole(s, hid) && p < |s.classes| && AllRefer(args, SizesOf(s, hid))
    ensures Good(s, CallParent(h, p, args, s, fuel), hid)
    decreases fuel, 1
  {
    hide Apply, BindParams, Inherited, Constructor, StoreRefers, Tame, RecordRefers, AllRefer;
    ConstructorRefers(s, p, hid);
    Unchanged(s, hid);
    if Constructor(s.classes[p]).Some? {
      var code := Constructor(s.classes[p]).value;
      InheritedRefers(s, hid);
      ParamsRefer(Inherited(s), code.params, args, SizesOf(s, hid));
      ApplyGood(h, code, BindParams(Inherited(s), code.params, args), s, fuel, hid);
    }
  }

  // ---------- statements ----------

  lemma {:induction false} ExecuteGood(h: Host, st: Stmt, s: State, fuel: nat, hid: set<nat>)
    requires Tame(h) && Sound(s) && Whole(s, hid)
    ensures Good(s, Execute(h, st, s, fuel), hid)
    decreases fuel, 4, st, 2, 0
  {
    hide Framed, Chained, Linked, Solid, Registered, Evaluate, RunBlock, WhileLoop, ExecuteFor, EachLoop;
    hide DeclareClass, Define, Truthy, StoreRefers, Tame, RecordRefers, AllRefer;
    match st
    case ExprStmt(e) => EvaluateGood(h, e, s, fuel, hid);
    case VarDecl(_, n, e) =>
      EvaluateGood(h, e, s, fuel, hid);
      var d := Evaluate(h, e, s, fuel);
      if d.Done? {
        SetVarWhole(d.state, n, d.result, hid);
        RefersMore(d.result, SizesOf(d.state, hid), SizesOf(Define(d.state, n, d.result), hid));
      }
    case If(c, b, els) =>
      EvaluateGood(h, c, s, fuel, hid);
      var d := Evaluate(h, c, s, fuel);
      if d.Done? {
        EmptyRefers(SizesOf(d.state, hid));
        BlockGood(h, if Truthy(d.result, d.state.objects) then b else els, map[], d.state, fuel, hid);
      }
    case While(_, _) => WhileGood(h, st, s, fuel, hid);
    case For(_, _, _, _) => ForGood(h, st, s, fuel, hid);
    case Each(_, e, _) =>
      EvaluateGood(h, e, s, fuel, hid);
      var d := Evaluate(h, e, s, fuel);
      if d.Done? && d.result.ListV? {
        ItemsRefer(d.result, SizesOf(d.state, hid));
        EachGood(h, st, d.result.items, d.state, fuel, hid);
      }
    case FuncDecl(n, ps, b) => SetVarWhole(s, n, FunctionV(Code(n, ps, b, s.env)), hid);
    case Return(e) => EvaluateGood(h, e, s, fuel, hid);
    case Print(e) =>
      EvaluateGood(h, e, s, fuel, hid);
      var d := Evaluate(h, e, s, fuel);
      if d.Done? {
        var t := TextOf(h, d.result, d.state);
        if t.Done? {
          SameStore(d.state, d.state.(log := d.state.log + [t.result]), hid);
        }
      }
    case TryCatch(b, _, _) => EmptyRefers(SizesOf(s, hid)); BlockGood(h, b, map[], s, fuel, hid);
    case ClassDecl(n, p, impls, b) => DeclareGood(h, n, p, impls, b, s, fuel, hid);
    case Bare => Unchanged(s, hid);
  }

  lemma {:induction false} ItemsRefer(v: Value, z: Sizes)
    requires v.ListV? && Refers(v, z)
    ensures AllRefer(v.items, z)
  {
  }

  lemma {:induction false} BodyGood(h: Host, ss: seq<Stmt>, last: Value, s: State, fuel: nat, hid: set<nat>)
    requires Tame(h) && Sound(s) && Whole(s, hid) && Refers(last, SizesOf(s, hid))
    ensures Good(s, ExecuteAll(h, ss, last, s, fuel), hid)
    decreases fuel, 4, ss, 0, 0
  {
    hide Framed, Chained, Linked, Solid, Registered, Execute, Whole, Tame, Refers;
    if ss == [] {
      Unchanged(s, hid);
    } else {
      ExecuteGood(h, ss[0], s, fuel, hid);
      var d := Execute(h, ss[0], s, fuel);
      if d.Done? {
        BodyGood(h, ss[1..], d.result, d.state, fuel, hid);
      }
    }
  }

  lemma {:induction false} EnvIsVisible(s: State, hid: set<nat>)
    requires Whole(s, hid)
    ensures s.env !in hid
  {
  }

  lemma {:induction false} BlockGood(h: Host, ss: seq<Stmt>, vars: Record, s: State, fuel: nat, hid: set<nat>)
    requires Tame(h) && Sound(s) && Whole(s, hid) && RecordRefers(vars, SizesOf(s, hid))
    ensures Good(s, RunBlock(h, ss, vars, s, fuel), hid)
    decreases fuel, 4, ss, 1, 0
  {
    hide Framed, Chained, Linked, Solid, Registered, ExecuteAll, Enter, Whole, Tame, RecordRefers;
    EnvIsVisible(s, hid);
    EnterWhole(s, vars, s.env, hid);
    var inner := Enter(s, vars, s.env);
    BodyGood(h, ss, NullV, inner, fuel, hid);
    var d := ExecuteAll(h, ss, NullV, inner, fuel);
    if d.Done? {
      BackWhole(s, d.state, hid);
    }
  }

  lemma {:induction false} WhileGood(h: Host, st: Stmt, s: State, fuel: nat, hid: set<nat>)
    requires Tame(h) && Sound(s) && Whole(s, hid) && st.While?
    ensures Good(s, WhileLoop(h, st, s, fuel), hid)
    decreases fuel, 4, st, 1, 0
  {
    hide Framed, Chained, Linked, Solid, Registered, Evaluate, RunBlock, Truthy, Whole, Tame;
    EvaluateGood(h, st.condition, s, fuel, hid);
    var d := Evaluate(h, st.condition, s, fuel);
    if d.Done? && Truthy(d.result, d.state.objects) && fuel > 0 {
      BlockGood(h, st.body, map[], d.state, fuel - 1, hid);
      var l := RunBlock(h, st.body, map[], d.state, fuel - 1);
      if l.Done? {
        WhileGood(h, st, l.state, fuel - 1, hid);
      }
    }
  }

  lemma {:induction false} ForGood(h: Host, st: Stmt, s: State, fuel: nat, hid: set<nat>)
    requires Tame(h) && Sound(s) && Whole(s, hid) && st.For?
    ensures Good(s, ExecuteFor(h, st, s, fuel), hid)
    decreases fuel, 4, st, 1, FOR_LIMIT + 1
  {
    hide Framed, Chained, Linked, Solid, Registered, Execute, ForLoop, Enter, Whole, Tame;
    EnvIsVisible(s, hid);
    EnterWhole(s, map[], s.env, hid);
    var inner := Enter(s, map[], s.env);
    ExecuteGood(h, st.start, inner, fuel, hid);
    var d := Execute(h, st.start, inner, fuel);
    if d.Done? {
      TurnsGood(h, st, 0, d.state, fuel, hid);
      var l := ForLoop(h, st, 0, d.state, fuel);
      if l.Done? {
        BackWhole(s, l.state, hid);
      }
    }
  }

  lemma {:induction false} TurnsGood(h: Host, st: Stmt, n: nat, s: State, fuel: nat, hid: set<nat>)
    requires Tame(h) && Sound(s) && Whole(s, hid) && st.For? && n <= FOR_LIMIT
    ensures Good(s, ForLoop(h, st, n, s, fuel), hid)
    decreases fuel, 4, st, 1, FOR_LIMIT - n
  {
    hide Framed, Chained, Linked, Solid, Registered, Evaluate, ForTurn, Truthy, Whole, Tame;
    EvaluateGood(h, st.condition, s, fuel, hid);
    var d := Evaluate(h, st.condition, s, fuel);
    if d.Done? && Truthy(d.result, d.state.objects) && n < FOR_LIMIT {
      TurnGood(h, st, d.state, fuel, hid);
      var t := ForTurn(h, st, d.state, fuel);
      if t.Done? {
        TurnsGood(h, st, n + 1, t.state, fuel, hid);
      }
    }
  }

  lemma {:induction false} TurnGood(h: Host, st: Stmt, s: State, fuel: nat, hid: set<nat>)
    requires Tame(h) && Sound(s) && Whole(s, hid) && st.For?
    ensures Good(s, ForTurn(h, st, s, fuel), hid)
    decreases fuel, 4, st, 0, 0
  {
    hide Framed, Chained, Linked, Solid, Registered, Execute, RunBlock, Whole, Tame;
    BlockGood(h, st.body, map[], s, fuel, hid);
    var l := RunBlock(h, st.body, map[], s, fuel);
    if l.Done? {
      ExecuteGood(h, st.update, l.state, fuel, hid);
    }
  }

  lemma {:induction false} EachGood(h: Host, st: Stmt, items: seq<Value>, s: State, fuel: nat, hid: set<nat>)
    requires Tame(h) && Sound(s) && Whole(s, hid) && st.Each? && AllRefer(items, SizesOf(s, hid))
    ensures Good(s, EachLoop(h, st, items, s, fuel), hid)
    decreases fuel, 4, st, 1, |items|
  {
    hide Framed, Chained, Linked, Solid, Registered, RunBlock, Whole, Tame;
    if items == [] {
      Unchanged(s, hid);
    } else {
      BlockGood(h, st.body, map[st.varName := items[0]], s, fuel, hid);
      var l := RunBlock(h, st.body, map[st.varName := items[0]], s, fuel);
      if l.Done? {
        AllReferMore(items[1..], SizesOf(s, hid), SizesOf(l.state, hid));
        EachGood(h, st, items[1..], l.state, fuel, hid);
      }
    }
  }

  lemma {:induction false} DeclareGood(h: Host, n: string, p: string, impls: seq<string>, b: seq<Stmt>,
    s: State, fuel: nat, hid: set<nat>)
    requires Tame(h) && Sound(s) && Whole(s, hid)
    ensures Good(s, DeclareClass(h, n, p, impls, b, s, fuel), hid)
    decreases fuel, 4, b, 1, 0
  {
    hide Framed, Chained, Linked, Solid, Registered, ClassBody, Register, Enter, Define, Receiver, StoreRefers, Tame;
    hide RecordRefers;
    var registered := Register(s, n, p, impls);
    RegisterWhole(s, n, p, impls, hid);
    ReceiverRefers(NullV, SizesOf(registered, hid));
    EnterWhole(registered, Receiver(NullV), s.env, hid);
    var inner := Enter(registered, Receiver(NullV), s.env);
    var t := inner.(current := n);
    SameStore(inner, t, hid);
    MembersGood(h, b, |s.classes|, n, t, fuel, hid);
    var d := ClassBody(h, b, |s.classes|, n, t, fuel);
    if d.Done? {
      BackWhole(s, d.state, hid);
      var u := BackTo(s, d.state);
      SameStore(u, u.(current := ""), hid);
      SetVarWhole(u.(current := ""), n, ClassV(|s.classes|), hid);
    }
  }

  lemma {:induction false} MembersGood(h: Host, b: seq<Stmt>, c: nat, n: string, s: State, fuel: nat, hid: set<nat>)
    requires Tame(h) && Sound(s) && Whole(s, hid) && c < |s.classes|
    ensures Good(s, ClassBody(h, b, c, n, s, fuel), hid)
    decreases fuel, 4, b, 0, 0
  {
    hide Framed, Chained, Linked, Solid, Registered, Execute, AddMember, StoreRefers, Tame;
    if b == [] {
      Unchanged(s, hid);
    } else if b[0].FuncDecl? {
      var code := Code(b[0].name, b[0].params, b[0].body, s.env);
      AddMemberWhole(s, c, n, code, hid);
      MembersGood(h, b[1..], c, n, AddMember(s, c, n, code), fuel, hid);
    } else {
      ExecuteGood(h, b[0], s, fuel, hid);
      var d := Execute(h, b[0], s, fuel);
      if d.Done? {
        MembersGood(h, b[1..], c, n, d.state, fuel, hid);
      }
    }
  }

  /**
   * A run that starts with every reference good follows no dangling reference, whatever happens on the way,
   * and all references are good in the state it reaches. Scopes nothing referred to stay as they were.
   */
  lemma {:induction false} NothingDangles(h: Host, program: seq<Stmt>, s: State, fuel: nat, hid: set<nat>)
    requires Tame(h) && Sound(s) && Whole(s, hid)
    ensures !Run(h, program, s, fuel).Dangling?
    ensures var r := Run(h, program, s, fuel);
            r.Done? || r.Returned? ==>
              Whole(r.state, hid) && forall k :: k in hid ==> k < |r.state.scopes| && r.state.scopes[k] == s.scopes[k]
  {
    BodyGood(h, program, NullV, s, fuel, hid);
  }
}
