/** The chain of scopes: where a name is bound, and what defining and setting it change. */
module Environments {
  import opened Options
  import opened Values

  /** Every parent link leads to a scope that was created earlier. */
  ghost predicate Chained(scopes: seq<Scope>) {
    forall k :: 0 <= k < |scopes| && scopes[k].parent.Some? ==> scopes[k].parent.value < k
  }

  /** The nearest scope, from `at` outwards, that binds the name. */
  function Binder(scopes: seq<Scope>, at: nat, name: string): (r: Option<nat>)
    requires Chained(scopes) && at < |scopes|
    ensures r.Some? ==> r.value <= at && name in scopes[r.value].vars
    decreases at
  {
    if name in scopes[at].vars then Some(at)
    else if scopes[at].parent.Some? then Binder(scopes, scopes[at].parent.value, name)
    else None
  }

  function Bind(scopes: seq<Scope>, at: nat, name: string, v: Value): (r: seq<Scope>)
    requires at < |scopes|
    ensures |r| == |scopes|
  {
    scopes[at := Scope(scopes[at].vars[name := v], scopes[at].parent)]
  }
}
