/** The graph of class definitions: extends and implements edges, method lookup, instance tests. */
module Classes {
  import opened Options
  import opened Values

  /** Edges never lead to a class created later. */
  ghost predicate Linked(classes: seq<ClassDef>) {
    forall c :: 0 <= c < |classes| ==> EdgesUpTo(classes[c], c)
  }

  ghost predicate EdgesUpTo(d: ClassDef, c: nat) {
    && (d.parent.Some? ==> d.parent.value <= c)
    && forall k :: 0 <= k < |d.impls| ==> d.impls[k] <= c
  }

  // ---------- lookup ----------

  /** The value found, `NullV` for none; `Spins` where the search calls itself for ever. */
  datatype Search<T> = Spins | Found(result: T)

  /** Own methods, then the parent, then the implemented classes from left to right. */
  function GetMethod(classes: seq<ClassDef>, c: nat, name: string): Search<Value>
    requires Linked(classes) && c < |classes|
    decreases c, 1, 0
  {
    if name in classes[c].methods then Found(classes[c].methods[name])
    else
      match MethodOfParent(classes, c, name)
      case Spins => Spins
      case Found(v) => if v.NullV? then MethodOfImpls(classes, c, 0, name) else Found(v)
  }

  function MethodOfParent(classes: seq<ClassDef>, c: nat, name: string): Search<Value>
    requires Linked(classes) && c < |classes|
    decreases c, 0, 0
  {
    match classes[c].parent
    case None => Found(NullV)
    case Some(p) => if p == c then Spins else GetMethod(classes, p, name)
  }

  function MethodOfImpls(classes: seq<ClassDef>, c: nat, k: nat, name: string): Search<Value>
    requires Linked(classes) && c < |classes| && k <= |classes[c].impls|
    decreases c, 0, |classes[c].impls| - k
  {
    if k == |classes[c].impls| then Found(NullV)
    else
      var p := classes[c].impls[k];
      match if p == c then Spins else GetMethod(classes, p, name)
      case Spins => Spins
      case Found(v) => if v.NullV? then MethodOfImpls(classes, c, k + 1, name) else Found(v)
  }

  function IsInstanceOf(classes: seq<ClassDef>, c: nat, name: string): Search<bool>
    requires Linked(classes) && c < |classes|
    decreases c, 1, 0
  {
    if classes[c].name == name then Found(true)
    else
      match InstanceByParent(classes, c, name)
      case Spins => Spins
      case Found(b) => if b then Found(true) else InstanceByImpls(classes, c, 0, name)
  }

  function InstanceByParent(classes: seq<ClassDef>, c: nat, name: string): Search<bool>
    requires Linked(classes) && c < |classes|
    decreases c, 0, 0
  {
    match classes[c].parent
    case None => Found(false)
    case Some(p) => if p == c then Spins else IsInstanceOf(classes, p, name)
  }

  function InstanceByImpls(classes: seq<ClassDef>, c: nat, k: nat, name: string): Search<bool>
    requires Linked(classes) && c < |classes| && k <= |classes[c].impls|
    decreases c, 0, |classes[c].impls| - k
  {
    if k == |classes[c].impls| then Found(false)
    else
      var p := classes[c].impls[k];
      match if p == c then Spins else IsInstanceOf(classes, p, name)
      case Spins => Spins
      case Found(b) => if b then Found(true) else InstanceByImpls(classes, c, k + 1, name)
  }

  /** Whether walking up the parent chain comes to an end. */
  predicate ChainEnds(classes: seq<ClassDef>, c: nat)
    requires Linked(classes) && c < |classes|
  {
    match classes[c].parent
    case None => true
    case Some(p) => p != c && ChainEnds(classes, p)
  }

  // ---------- declarations ----------

  /** The definitions of those names that are registered, in order. */
  function Resolve(registry: map<string, nat>, names: seq<string>): seq<nat> {
    if names == [] then []
    else if names[0] in registry then [registry[names[0]]] + Resolve(registry, names[1..])
    else Resolve(registry, names[1..])
  }

  /** A new definition. Its own name is registered before the names behind `extends` and `implements` are looked up. */
  function NewClass(registry: map<string, nat>, name: string, parent: string, impls: seq<string>): ClassDef {
    ClassDef(name, map[], if parent != "" && parent in registry then Some(registry[parent]) else None,
             Resolve(registry, impls))
  }

  /** A name stands for the last class declared under it. */
  ghost predicate Registered(registry: map<string, nat>, classes: seq<ClassDef>) {
    && (forall n :: n in registry ==> registry[n] < |classes| && classes[registry[n]].name == n)
    && (forall k :: 0 <= k < |classes| ==> classes[k].name in registry && k <= registry[classes[k].name])
  }

  /** All methods are functions written in the language. */
  ghost predicate Solid(classes: seq<ClassDef>) {
    forall c :: 0 <= c < |classes| ==> AllFunctions(classes[c].methods)
  }

  ghost predicate AllFunctions(methods: Record) {
    forall n :: n in methods ==> methods[n].FunctionV?
  }

  lemma {:induction false} RegisteredEdges(registry: map<string, nat>, name: string, parent: string, impls: seq<string>, c: nat)
    requires forall n :: n in registry ==> registry[n] <= c
    ensures EdgesUpTo(NewClass(registry, name, parent, impls), c)
    decreases |impls|
  {
    if impls != [] {
      RegisteredEdges(registry, name, parent, impls[1..], c);
    }
  }

  // ---------- searches end ----------

  /** No class is its own parent or implements itself. */
  ghost predicate Grounded(classes: seq<ClassDef>) {
    forall c :: 0 <= c < |classes| ==> EdgesBelow(classes[c], c)
  }

  ghost predicate EdgesBelow(d: ClassDef, c: nat) {
    d.parent != Some(c) && forall k :: 0 <= k < |d.impls| ==> d.impls[k] != c
  }

  lemma {:induction false} MethodSearchEnds(classes: seq<ClassDef>, c: nat, name: string)
    requires Linked(classes) && Grounded(classes) && c < |classes|
    ensures GetMethod(classes, c, name).Found?
    decreases c, 1, 0
  {
    assert EdgesBelow(classes[c], c) && EdgesUpTo(classes[c], c);
    if classes[c].parent.Some? {
      MethodSearchEnds(classes, classes[c].parent.value, name);
    }
    ImplsSearchEnds(classes, c, 0, name);
  }

  lemma {:induction false} ImplsSearchEnds(classes: seq<ClassDef>, c: nat, k: nat, name: string)
    requires Linked(classes) && Grounded(classes) && c < |classes| && k <= |classes[c].impls|
    ensures MethodOfImpls(classes, c, k, name).Found?
    decreases c, 0, |classes[c].impls| - k
  {
    assert EdgesBelow(classes[c], c) && EdgesUpTo(classes[c], c);
    if k < |classes[c].impls| {
      MethodSearchEnds(classes, classes[c].impls[k], name);
      ImplsSearchEnds(classes, c, k + 1, name);
    }
  }

  /** Only the name just registered resolves to the class it was registered for. */
  lemma {:induction false} ResolveAvoids(registry: map<string, nat>, n: string, names: seq<string>, c: nat)
    requires n !in names && forall m :: m in registry && m != n ==> registry[m] < c
    ensures c !in Resolve(registry, names)
    decreases |names|
  {
    if names != [] {
      ResolveAvoids(registry, n, names[1..], c);
    }
  }
}
