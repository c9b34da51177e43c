/** Method lookup and instance tests as searches along one preorder walk of the class graph. */
module ClassGraph {
  import opened Options
  import opened Ast
  import opened Values
  import opened Classes
  import opened Evaluation

  // ---------- the preorder walk ----------

  /** The classes in the order a search visits them; `None` stands for a walk that never comes back. */
  function Walk(classes: seq<ClassDef>, c: nat): seq<Option<nat>>
    requires Linked(classes) && c < |classes|
    decreases c, 1, 0
  {
    [Some(c)] + (WalkParent(classes, c) + WalkImpls(classes, c, 0))
  }

  function WalkParent(classes: seq<ClassDef>, c: nat): seq<Option<nat>>
    requires Linked(classes) && c < |classes|
    decreases c, 0, 0
  {
    match classes[c].parent
    case None => []
    case Some(p) => if p == c then [None] else Walk(classes, p)
  }

  function WalkImpls(classes: seq<ClassDef>, c: nat, k: nat): seq<Option<nat>>
    requires Linked(classes) && c < |classes| && k <= |classes[c].impls|
    decreases c, 0, |classes[c].impls| - k
  {
    if k == |classes[c].impls| then []
    else
      var p := classes[c].impls[k];
      (if p == c then [None] else Walk(classes, p)) + WalkImpls(classes, c, k + 1)
  }

  /** The method of the first class on the walk that has one; a walk that never comes back ends the search for ever. */
  function FirstMethod(classes: seq<ClassDef>, walk: seq<Option<nat>>, name: string): Search<Value> {
    if walk == [] then Found(NullV)
    else if walk[0].None? then Spins
    else if walk[0].value < |classes| && name in classes[walk[0].value].methods
    then Found(classes[walk[0].value].methods[name])
    else FirstMethod(classes, walk[1..], name)
  }

  /** Whether a class of that name comes on the walk. */
  function FirstNamed(classes: seq<ClassDef>, walk: seq<Option<nat>>, name: string): Search<bool> {
    if walk == [] then Found(false)
    else if walk[0].None? then Spins
    else if walk[0].value < |classes| && classes[walk[0].value].name == name then Found(true)
    else FirstNamed(classes, walk[1..], name)
  }

  lemma {:induction false} FirstMethodOn(classes: seq<ClassDef>, a: seq<Option<nat>>, b: seq<Option<nat>>, name: string)
    requires Solid(classes)
    ensures FirstMethod(classes, a + b, name) ==
      match FirstMethod(classes, a, name)
      case Spins => Spins
      case Found(v) => if v.NullV? then FirstMethod(classes, b, name) else Found(v)
  {
    if a == [] {
      assert a + b == b;
    } else {
      FirstMethodOn(classes, a[1..], b, name);
      assert (a + b)[1..] == a[1..] + b;
    }
  }

  lemma {:induction false} FirstNamedOn(classes: seq<ClassDef>, a: seq<Option<nat>>, b: seq<Option<nat>>, name: string)
    ensures FirstNamed(classes, a + b, name) ==
      match FirstNamed(classes, a, name)
      case Spins => Spins
      case Found(f) => if f then Found(true) else FirstNamed(classes, b, name)
  {
    if a == [] {
      assert a + b == b;
    } else {
      FirstNamedOn(classes, a[1..], b, name);
      assert (a + b)[1..] == a[1..] + b;
    }
  }

  /** `getMethod` is the first hit of the walk, and runs for ever exactly if the walk gets stuck before a hit. */
  lemma {:induction false} GetMethodIsFirstHit(classes: seq<ClassDef>, c: nat, name: string)
    requires Linked(classes) && Solid(classes) && c < |classes|
    ensures GetMethod(classes, c, name) == FirstMethod(classes, Walk(classes, c), name)
    decreases c, 1, 0
  {
    var p := classes[c].parent;
    assert EdgesUpTo(classes[c], c);
    var up, across := WalkParent(classes, c), WalkImpls(classes, c, 0);
    assert ([Some(c)] + (up + across))[1..] == up + across;
    if p.Some? && p.value != c {
      GetMethodIsFirstHit(classes, p.value, name);
    }
    assert MethodOfParent(classes, c, name) == FirstMethod(classes, up, name);
    ImplsMethodIsFirstHit(classes, c, 0, name);
    FirstMethodOn(classes, up, across, name);
  }

  lemma {:induction false} ImplsMethodIsFirstHit(classes: seq<ClassDef>, c: nat, k: nat, name: string)
    requires Linked(classes) && Solid(classes) && c < |classes| && k <= |classes[c].impls|
    ensures MethodOfImpls(classes, c, k, name) == FirstMethod(classes, WalkImpls(classes, c, k), name)
    decreases c, 0, |classes[c].impls| - k
  {
    if k < |classes[c].impls| {
      assert EdgesUpTo(classes[c], c);
      var p := classes[c].impls[k];
      if p != c {
        GetMethodIsFirstHit(classes, p, name);
      }
      ImplsMethodIsFirstHit(classes, c, k + 1, name);
      FirstMethodOn(classes, if p == c then [None] else Walk(classes, p), WalkImpls(classes, c, k + 1), name);
    }
  }

  lemma {:induction false} IsInstanceOfIsOnWalk(classes: seq<ClassDef>, c: nat, name: string)
    requires Linked(classes) && c < |classes|
    ensures IsInstanceOf(classes, c, name) == FirstNamed(classes, Walk(classes, c), name)
    decreases c, 1, 0
  {
    var p := classes[c].parent;
    assert EdgesUpTo(classes[c], c);
    var up, across := WalkParent(classes, c), WalkImpls(classes, c, 0);
    assert ([Some(c)] + (up + across))[1..] == up + across;
    if p.Some? && p.value != c {
      IsInstanceOfIsOnWalk(classes, p.value, name);
    }
    assert InstanceByParent(classes, c, name) == FirstNamed(classes, up, name);
    ImplsInstanceIsOnWalk(classes, c, 0, name);
    FirstNamedOn(classes, up, across, name);
  }

  lemma {:induction false} ImplsInstanceIsOnWalk(classes: seq<ClassDef>, c: nat, k: nat, name: string)
    requires Linked(classes) && c < |classes| && k <= |classes[c].impls|
    ensures InstanceByImpls(classes, c, k, name) == FirstNamed(classes, WalkImpls(classes, c, k), name)
    decreases c, 0, |classes[c].impls| - k
  {
    if k < |classes[c].impls| {
      assert EdgesUpTo(classes[c], c);
      var p := classes[c].impls[k];
      if p != c {
        IsInstanceOfIsOnWalk(classes, p, name);
      }
      ImplsInstanceIsOnWalk(classes, c, k + 1, name);
      FirstNamedOn(classes, if p == c then [None] else Walk(classes, p), WalkImpls(classes, c, k + 1), name);
    }
  }

  // ---------- reachability ----------

  predicate IsEdge(classes: seq<ClassDef>, c: nat, d: nat)
    requires c < |classes|
  {
    classes[c].parent == Some(d) || d in classes[c].impls
  }

  /** `d` is reached from `c` over the edges of `path`. */
  ghost predicate IsPath(classes: seq<ClassDef>, c: nat, path: seq<nat>, d: nat)
    requires c < |classes|
    decreases |path|
  {
    if path == [] then c == d
    else path[0] < |classes| && IsEdge(classes, c, path[0]) && IsPath(classes, path[0], path[1..], d)
  }

  ghost predicate Reachable(classes: seq<ClassDef>, c: nat, d: nat)
    requires c < |classes|
  {
    exists path :: IsPath(classes, c, path, d)
  }

  lemma {:induction false} WalkEdge(classes: seq<ClassDef>, c: nat, k: nat, p: nat)
    requires Linked(classes) && c < |classes| && k <= |classes[c].impls| && p != c
    ensures p in classes[c].impls[k..] ==> p < |classes| && forall d :: d in Walk(classes, p) ==> d in WalkImpls(classes, c, k)
    decreases |classes[c].impls| - k
  {
    assert EdgesUpTo(classes[c], c);
    if k < |classes[c].impls| {
      WalkEdge(classes, c, k + 1, p);
    }
  }

  /** Every class a path leads to comes on the walk. */
  lemma {:induction false} PathIsOnWalk(classes: seq<ClassDef>, c: nat, path: seq<nat>, d: nat)
    requires Linked(classes) && Grounded(classes) && c < |classes| && IsPath(classes, c, path, d)
    ensures Some(d) in Walk(classes, c)
    decreases |path|
  {
    if path != [] {
      var p := path[0];
      assert EdgesBelow(classes[c], c) && EdgesUpTo(classes[c], c);
      PathIsOnWalk(classes, p, path[1..], d);
      WalkEdge(classes, c, 0, p);
      assert classes[c].impls[0..] == classes[c].impls;
    }
  }

  /** Whatever comes on the walk is a class some path leads to. */
  lemma {:induction false} WalkIsReached(classes: seq<ClassDef>, c: nat, x: Option<nat>)
    requires Linked(classes) && Grounded(classes) && c < |classes| && x in Walk(classes, c)
    ensures x.Some? && x.value < |classes| && Reachable(classes, c, x.value)
    decreases c, 1, 0
  {
    assert EdgesBelow(classes[c], c) && EdgesUpTo(classes[c], c);
    if x == Some(c) {
      assert IsPath(classes, c, [], c);
    } else if x in WalkParent(classes, c) {
      var p := classes[c].parent.value;
      WalkIsReached(classes, p, x);
      StepThenReach(classes, c, p, x.value);
    } else {
      ImplsWalkIsReached(classes, c, 0, x);
    }
  }

  lemma {:induction false} ImplsWalkIsReached(classes: seq<ClassDef>, c: nat, k: nat, x: Option<nat>)
    requires Linked(classes) && Grounded(classes) && c < |classes| && k <= |classes[c].impls|
    requires x in WalkImpls(classes, c, k)
    ensures x.Some? && x.value < |classes| && Reachable(classes, c, x.value)
    decreases c, 0, |classes[c].impls| - k
  {
    assert EdgesBelow(classes[c], c) && EdgesUpTo(classes[c], c);
    var p := classes[c].impls[k];
    if x in Walk(classes, p) {
      WalkIsReached(classes, p, x);
      StepThenReach(classes, c, p, x.value);
    } else {
      ImplsWalkIsReached(classes, c, k + 1, x);
    }
  }

  lemma {:induction false} StepThenReach(classes: seq<ClassDef>, c: nat, p: nat, d: nat)
    requires c < |classes| && p < |classes| && IsEdge(classes, c, p) && Reachable(classes, p, d)
    ensures Reachable(classes, c, d)
  {
    var path :| IsPath(classes, p, path, d);
    assert ([p] + path)[1..] == path;
    assert IsPath(classes, c, [p] + path, d);
  }

  ghost predicate IsNamed(classes: seq<ClassDef>, c: nat, name: string) {
    c < |classes| && classes[c].name == name
  }

  lemma {:induction false} NamedOnWalk(classes: seq<ClassDef>, walk: seq<Option<nat>>, name: string)
    requires forall x :: x in walk ==> x.Some? && x.value < |classes|
    ensures FirstNamed(classes, walk, name) == Found(exists c: nat :: Some(c) in walk && IsNamed(classes, c, name))
  {
    if walk != [] {
      var head := walk[0].value;
      assert walk[0] in walk && walk[0] == Some(head);
      assert forall x :: x in walk <==> x == walk[0] || x in walk[1..];
      NamedOnWalk(classes, walk[1..], name);
      if IsNamed(classes, head, name) {
        assert Some(head) in walk && IsNamed(classes, head, name);
      } else {
        assert forall c: nat :: Some(c) in walk && IsNamed(classes, c, name) <==> Some(c) in walk[1..] && IsNamed(classes, c, name);
      }
    }
  }

  /** Without a class below itself, an instance test says whether a class of that name can be reached. */
  lemma {:induction false} IsInstanceOfIsReachability(classes: seq<ClassDef>, c: nat, name: string)
    requires Linked(classes) && Grounded(classes) && c < |classes|
    ensures IsInstanceOf(classes, c, name) == Found(exists d: nat :: Reachable(classes, c, d) && IsNamed(classes, d, name))
  {
    hide Walk, FirstNamed, Reachable;
    IsInstanceOfIsOnWalk(classes, c, name);
    forall x | x in Walk(classes, c) ensures x.Some? && x.value < |classes| && Reachable(classes, c, x.value) {
      WalkIsReached(classes, c, x);
    }
    forall d: nat | IsNamed(classes, d, name) ensures Reachable(classes, c, d) <==> Some(d) in Walk(classes, c) {
      if Reachable(classes, c, d) {
        OnWalk(classes, c, d);
      }
    }
    NamedOnWalk(classes, Walk(classes, c), name);
  }

  lemma {:induction false} OnWalk(classes: seq<ClassDef>, c: nat, d: nat)
    requires Linked(classes) && Grounded(classes) && c < |classes| && Reachable(classes, c, d)
    ensures Some(d) in Walk(classes, c)
  {
    var path :| IsPath(classes, c, path, d);
    PathIsOnWalk(classes, c, path, d);
  }

  // ---------- declarations ----------

  datatype Decl = Decl(name: string, parent: string, impls: seq<string>)

  /** The classes and the registry after declarations in that order, redeclarations included. */
  function Declared(decls: seq<Decl>): (r: (seq<ClassDef>, map<string, nat>))
    ensures |r.0| == |decls| && Linked(r.0) && Registered(r.1, r.0)
  {
    if decls == [] then ([], map[])
    else
      var (classes, registry) := Declared(decls[..|decls| - 1]);
      var d := decls[|decls| - 1];
      var more := registry[d.name := |classes|];
      RegisteredEdges(more, d.name, d.parent, d.impls, |classes|);
      (classes + [NewClass(more, d.name, d.parent, d.impls)], more)
  }

  predicate NamesItself(d: Decl) {
    d.name != "" && (d.parent == d.name || d.name in d.impls)
  }

  lemma {:induction false} ResolveFinds(registry: map<string, nat>, n: string, names: seq<string>)
    requires n in names && n in registry
    ensures registry[n] in Resolve(registry, names)
    decreases |names|
  {
    if names[0] != n {
      ResolveFinds(registry, n, names[1..]);
    }
  }

  /**
   * After any declarations, every edge leads to a class created before, except that a class which names
   * itself is its own parent or implements itself: its name is registered first.
   */
  lemma {:induction false} EdgesLeadBack(decls: seq<Decl>, c: nat)
    requires c < |decls| && decls[c].name != ""
    ensures EdgesBelow(Declared(decls).0[c], c) <==> !NamesItself(decls[c])
    decreases |decls|
  {
    var prefix := decls[..|decls| - 1];
    var (classes, registry) := Declared(prefix);
    if c < |decls| - 1 {
      EdgesLeadBack(prefix, c);
    } else {
      var d := decls[c];
      var more := registry[d.name := |classes|];
      if d.name in d.impls {
        ResolveFinds(more, d.name, d.impls);
      } else {
        ResolveAvoids(more, d.name, d.impls, |classes|);
      }
    }
  }

  /** If no class names itself, every search in the graph of all declarations ends. */
  lemma {:induction false} SearchesEnd(decls: seq<Decl>, c: nat, name: string)
    requires c < |decls| && forall k :: 0 <= k < |decls| ==> decls[k].name != "" && !NamesItself(decls[k])
    ensures GetMethod(Declared(decls).0, c, name).Found? && ChainEnds(Declared(decls).0, c)
  {
    var classes := Declared(decls).0;
    forall k: nat | k < |classes| ensures EdgesBelow(classes[k], k) { EdgesLeadBack(decls, k); }
    MethodSearchEnds(classes, c, name);
    ParentChainEnds(classes, c);
  }

  lemma {:induction false} ParentChainEnds(classes: seq<ClassDef>, c: nat)
    requires Linked(classes) && Grounded(classes) && c < |classes|
    ensures ChainEnds(classes, c)
    decreases c
  {
    assert EdgesBelow(classes[c], c) && EdgesUpTo(classes[c], c);
    if classes[c].parent.Some? {
      ParentChainEnds(classes, classes[c].parent.value);
    }
  }

  // ---------- the chain of parents ----------

  /** `k` is `c` itself or one of the classes it extends, directly or not. */
  predicate OnChain(classes: seq<ClassDef>, c: nat, k: nat): (r: bool)
    requires Linked(classes) && c < |classes|
    ensures r ==> k <= c
    decreases c
  {
    k == c ||
    (classes[c].parent.Some? && classes[c].parent.value != c &&
      (assert EdgesUpTo(classes[c], c); OnChain(classes, classes[c].parent.value, k)))
  }

  lemma {:induction false} ChainEndsWithoutSelf(classes: seq<ClassDef>, c: nat)
    requires Linked(classes) && c < |classes|
    ensures ChainEnds(classes, c) <==> forall k: nat :: OnChain(classes, c, k) ==> classes[k].parent != Some(k)
    decreases c
  {
    assert EdgesUpTo(classes[c], c);
    assert OnChain(classes, c, c);
    var p := classes[c].parent;
    if p.Some? && p.value != c {
      ChainEndsWithoutSelf(classes, p.value);
      assert forall k: nat :: OnChain(classes, c, k) <==> k == c || OnChain(classes, p.value, k);
    }
  }

  predicate ExtendsItself(d: Decl) { d.name != "" && d.parent == d.name }

  lemma {:induction false} SelfParent(decls: seq<Decl>, k: nat)
    requires k < |decls|
    ensures Declared(decls).0[k].parent == Some(k) <==> ExtendsItself(decls[k])
    decreases |decls|
  {
    var prefix := decls[..|decls| - 1];
    if k < |decls| - 1 {
      SelfParent(prefix, k);
    }
  }

  /** After any declarations the walk up the parents of a class ends exactly if none of them extends itself. */
  lemma {:induction false} ChainEndsExactly(decls: seq<Decl>, c: nat)
    requires c < |decls|
    ensures var classes := Declared(decls).0;
      ChainEnds(classes, c) <==> forall k: nat :: OnChain(classes, c, k) ==> !ExtendsItself(decls[k])
  {
    var classes := Declared(decls).0;
    ChainEndsWithoutSelf(classes, c);
    forall k: nat | OnChain(classes, c, k) ensures classes[k].parent == Some(k) <==> ExtendsItself(decls[k]) {
      SelfParent(decls, k);
    }
  }

  /** The constructor an instantiation runs, the state it starts from; none if neither class nor parent has one. */
  function Chosen(c: nat, s: State): (r: Option<(Code, State)>)
    requires Sound(s) && c < |s.classes|
    ensures r.Some? ==> Sound(r.value.1)
  {
    var d := s.classes[c];
    var t := s.(instances := s.instances + [Instance(c, map[])]);
    if Constructor(d).Some? then Some((Constructor(d).value, t.(current := d.name)))
    else if d.parent.Some? && Constructor(s.classes[d.parent.value]).Some? then
      Some((Constructor(s.classes[d.parent.value]).value, t))
    else None
  }

  ghost predicate ConstructorEnds(h: Host, c: nat, args: seq<Value>, s: State)
    requires Sound(s) && c < |s.classes|
  {
    Chosen(c, s).Some? ==>
      var (code, t) := Chosen(c, s).value;
      exists fuel: nat :: !Apply(h, code, BindParams(Receiver(InstanceV(|s.instances|)), code.params, args), t, fuel).Timeout?
  }

  /** With this fuel an instantiation times out exactly if the chain does not end or the chosen constructor times out. */
  lemma {:induction false} InstantiateIsConstructor(h: Host, c: nat, args: seq<Value>, s: State, fuel: nat)
    requires Sound(s) && c < |s.classes|
    ensures Instantiate(h, c, args, s, fuel).Timeout? <==>
              !ChainEnds(s.classes, c) ||
              (Chosen(c, s).Some? &&
                var (code, t) := Chosen(c, s).value;
                Apply(h, code, BindParams(Receiver(InstanceV(|s.instances|)), code.params, args), t, fuel).Timeout?)
  {
    hide Apply, BindParams, ChainEnds, Solid;
  }

  /**
   * Whatever its constructor does, provided that ends: a class can be instantiated exactly if no class on its chain is
   * its own parent.
   */
  lemma {:induction false} InstantiationEnds(h: Host, c: nat, args: seq<Value>, s: State)
    requires Sound(s) && c < |s.classes| && ConstructorEnds(h, c, args, s)
    ensures (exists fuel: nat :: !Instantiate(h, c, args, s, fuel).Timeout?)
            <==> forall k: nat :: OnChain(s.classes, c, k) ==> s.classes[k].parent != Some(k)
  {
    hide Instantiate, Apply, BindParams, ChainEnds, OnChain, Linked, Solid, Registered;
    ChainEndsWithoutSelf(s.classes, c);
    if ChainEnds(s.classes, c) {
      var some: nat := 0;
      if Chosen(c, s).Some? {
        var (code, t) := Chosen(c, s).value;
        var fuel: nat :| !Apply(h, code, BindParams(Receiver(InstanceV(|s.instances|)), code.params, args), t, fuel).Timeout?;
        some := fuel;
      }
      InstantiateIsConstructor(h, c, args, s, some);
      assert !Instantiate(h, c, args, s, some).Timeout?;
    } else {
      forall fuel: nat ensures Instantiate(h, c, args, s, fuel).Timeout? {
        InstantiateIsConstructor(h, c, args, s, fuel);
      }
    }
  }

  /** In terms of the declarations: exactly if none of the classes on its chain names itself behind `extends`. */
  lemma {:induction false} InstantiableExactly(h: Host, decls: seq<Decl>, c: nat, args: seq<Value>, s: State)
    requires Sound(s) && c < |s.classes| == |decls| && ConstructorEnds(h, c, args, s)
    requires forall k :: 0 <= k < |decls| ==> s.classes[k].parent == Declared(decls).0[k].parent
    ensures (exists fuel: nat :: !Instantiate(h, c, args, s, fuel).Timeout?)
            <==> forall k: nat :: OnChain(s.classes, c, k) ==> !ExtendsItself(decls[k])
  {
    hide ConstructorEnds, Instantiate, OnChain;
    InstantiationEnds(h, c, args, s);
    forall k: nat | OnChain(s.classes, c, k) ensures s.classes[k].parent == Some(k) <==> ExtendsItself(decls[k]) {
      SelfParent(decls, k);
    }
  }
}
