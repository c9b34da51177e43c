/**
 * A value as text. Dictionaries are shared, so one can be put into itself; the recursion that renders it
 * never comes back then.
 */
module Rendering {
  import opened Options
  import opened Values
  import Json

  /** Whole numbers as integers, others in the format of the host. */
  function NumberText(h: Host, r: real): string {
    if r == r.Floor as real && -0x8000_0000_0000_0000 <= r.Floor < 0x8000_0000_0000_0000
    then Json.IntText(r.Floor) else h.number(r)
  }

  predicate IsIndex(o: nat, n: nat) { o < n }

  function Indices(objects: seq<Record>): set<nat> { set o: nat | o < |objects| && IsIndex(o, |objects|) }

  /** The text; `None` where the recursion comes back to a dictionary on its own path and so never ends. */
  function Text(h: Host, v: Value, objects: seq<Record>, path: set<nat>): Option<string>
    decreases Indices(objects) - path, 0, v
  {
    match v
    case NullV => Some("null")
    case NumberV(n) => Some(NumberText(h, n))
    case StringV(t) => Some(t)
    case BoolV(b) => Some(if b then "true" else "false")
    case FunctionV(_) => Some("<function>")
    case NativeV(_, _) => Some("<native function>")
    case InstanceV(_) => Some("<instance>")
    case ClassV(_) => Some("<class>")
    case ObjectV(o) =>
      if o >= |objects| then Some("{}")
      else if o in path then None
      else Bracketed("{", Members(h, h.order(objects[o].Keys), objects[o], objects, path + {o}), "}")
    case ListV(items) => Bracketed("[", Items(h, items, objects, path), "]")
  }

  function Bracketed(open: string, inside: Option<string>, close: string): Option<string> {
    if inside.Some? then Some(open + inside.value + close) else None
  }

  function Separator(n: nat): string { if n > 1 then ", " else "" }

  function Items(h: Host, items: seq<Value>, objects: seq<Record>, path: set<nat>): Option<string>
    decreases Indices(objects) - path, 0, items
  {
    if items == [] then Some("")
    else
      var t := Text(h, items[0], objects, path);
      var more := Items(h, items[1..], objects, path);
      if t.None? || more.None? then None else Some(t.value + Separator(|items|) + more.value)
  }

  /** The members of a record with those keys, in that order. */
  function Members(h: Host, keys: seq<string>, m: Record, objects: seq<Record>, path: set<nat>): Option<string>
    decreases Indices(objects) - path, 1, |keys|
  {
    if keys == [] then Some("")
    else
      var t := if keys[0] in m then Text(h, m[keys[0]], objects, path) else Some("");
      var more := Members(h, keys[1..], m, objects, path);
      if t.None? || more.None? then None else Some(keys[0] + ": " + t.value + Separator(|keys|) + more.value)
  }

  // ---------- knots ----------

  /** The dictionary occurs in the value, lists looked through. */
  ghost predicate Mentions(v: Value, o: nat) {
    match v
    case ObjectV(at) => at == o
    case ListV(items) => exists k :: 0 <= k < |items| && Mentions(items[k], o)
    case _ => false
  }

  ghost predicate Edge(objects: seq<Record>, o: nat, p: nat) {
    o < |objects| && exists k :: k in objects[o] && Mentions(objects[o][k], p)
  }

  /** Each dictionary is a member of the one before. */
  ghost predicate Trail(objects: seq<Record>, t: seq<nat>) {
    forall i :: 0 <= i < |t| - 1 ==> Edge(objects, t[i], t[i + 1])
  }

  /** A trail from the value that comes back to a dictionary it has passed. */
  ghost predicate IsKnot(v: Value, objects: seq<Record>, t: seq<nat>, i: nat) {
    i + 1 < |t| && Mentions(v, t[0]) && Trail(objects, t) && t[i] == t[|t| - 1]
  }

  /** A dictionary that can be reached from the value reaches itself. */
  ghost predicate Knotted(v: Value, objects: seq<Record>) {
    exists t: seq<nat>, i: nat :: IsKnot(v, objects, t, i)
  }

  /** The host lists every key of a dictionary. */
  ghost predicate Orderly(h: Host) {
    forall keys: set<string>, k: string :: k in keys ==> k in h.order(keys)
  }

  // ---------- where rendering does not end there is a knot ----------

  /** A trail from the value to the path, or back to itself. */
  ghost predicate Caught(v: Value, objects: seq<Record>, path: set<nat>, t: seq<nat>) {
    && t != [] && Mentions(v, t[0]) && Trail(objects, t)
    && (t[|t| - 1] in path || exists i: nat :: i + 1 < |t| && t[i] == t[|t| - 1])
  }

  lemma {:induction false} NoTextIsCaught(h: Host, v: Value, objects: seq<Record>, path: set<nat>) returns (t: seq<nat>)
    requires Text(h, v, objects, path).None?
    ensures Caught(v, objects, path, t)
    decreases Indices(objects) - path, 0, v
  {
    if v.ListV? {
      var k := NoItems(h, v.items, objects, path);
      t := NoTextIsCaught(h, v.items[k], objects, path);
    } else if v.at in path {
      t := [v.at];
    } else {
      var m := objects[v.at];
      var k := NoMembers(h, h.order(m.Keys), m, objects, path + {v.at});
      var u := NoTextIsCaught(h, m[k], objects, path + {v.at});
      t := [v.at] + u;
      LongerTrail(objects, v.at, u);
      if u[|u| - 1] == v.at {
        assert t[0] == t[|t| - 1];
      } else if u[|u| - 1] !in path {
        var i: nat :| i + 1 < |u| && u[i] == u[|u| - 1];
        assert t[i + 1] == t[|t| - 1];
      }
    }
  }

  lemma {:induction false} LongerTrail(objects: seq<Record>, o: nat, t: seq<nat>)
    requires t != [] && Edge(objects, o, t[0]) && Trail(objects, t)
    ensures Trail(objects, [o] + t)
  {
    hide Edge;
    var u := [o] + t;
    forall i | 0 <= i < |u| - 1 ensures Edge(objects, u[i], u[i + 1]) {
      if i > 0 {
        assert Edge(objects, t[i - 1], t[i]);
      }
    }
  }

  lemma {:induction false} NoItems(h: Host, items: seq<Value>, objects: seq<Record>, path: set<nat>) returns (k: nat)
    requires Items(h, items, objects, path).None?
    ensures k < |items| && Text(h, items[k], objects, path).None?
    decreases |items|
  {
    if Text(h, items[0], objects, path).None? {
      k := 0;
    } else {
      k := NoItems(h, items[1..], objects, path);
      k := k + 1;
    }
  }

  lemma {:induction false} NoMembers(h: Host, keys: seq<string>, m: Record, objects: seq<Record>, path: set<nat>)
    returns (k: string)
    requires Members(h, keys, m, objects, path).None?
    ensures k in m && Text(h, m[k], objects, path).None?
    decreases |keys|
  {
    if keys[0] in m && Text(h, m[keys[0]], objects, path).None? {
      k := keys[0];
    } else {
      k := NoMembers(h, keys[1..], m, objects, path);
    }
  }

  lemma {:induction false} EndlessIsKnotted(h: Host, v: Value, objects: seq<Record>)
    ensures Text(h, v, objects, {}).None? ==> Knotted(v, objects)
  {
    if Text(h, v, objects, {}).None? {
      var t := NoTextIsCaught(h, v, objects, {});
      var i: nat :| i + 1 < |t| && t[i] == t[|t| - 1];
      assert IsKnot(v, objects, t, i);
    }
  }

  // ---------- where there is a knot rendering does not end ----------

  ghost predicate Distinct(t: seq<nat>) {
    forall i, j :: 0 <= i < j < |t| ==> t[i] != t[j]
  }

  lemma {:induction false} TrailsAreFree(h: Host, v: Value, objects: seq<Record>, path: set<nat>, t: seq<nat>)
    requires Orderly(h) && Text(h, v, objects, path).Some? && path <= Indices(objects)
    requires t != [] && Mentions(v, t[0]) && Trail(objects, t)
    ensures Distinct(t) && forall i :: 0 <= i < |t| ==> t[i] !in path
    decreases |t|, v
  {
    if v.ListV? {
      var k :| 0 <= k < |v.items| && Mentions(v.items[k], t[0]);
      AllItems(h, v.items, objects, path, k);
      TrailsAreFree(h, v.items[k], objects, path, t);
    } else if |t| > 1 {
      assert Edge(objects, t[0], t[1]);
      var m := objects[t[0]];
      var k :| k in m && Mentions(m[k], t[1]);
      AllMembers(h, h.order(m.Keys), m, objects, path + {t[0]}, k);
      var rest := t[1..];
      forall i | 0 <= i < |rest| - 1 ensures Edge(objects, rest[i], rest[i + 1]) {
        assert Edge(objects, t[i + 1], t[i + 2]);
      }
      TrailsAreFree(h, m[k], objects, path + {t[0]}, rest);
      assert forall i :: 1 <= i < |t| ==> t[i] == rest[i - 1];
    }
  }

  lemma {:induction false} AllItems(h: Host, items: seq<Value>, objects: seq<Record>, path: set<nat>, k: nat)
    requires Items(h, items, objects, path).Some? && k < |items|
    ensures Text(h, items[k], objects, path).Some?
    decreases |items|
  {
    if k > 0 {
      AllItems(h, items[1..], objects, path, k - 1);
    }
  }

  lemma {:induction false} AllMembers(h: Host, keys: seq<string>, m: Record, objects: seq<Record>, path: set<nat>, k: string)
    requires Members(h, keys, m, objects, path).Some? && k in keys && k in m
    ensures Text(h, m[k], objects, path).Some?
    decreases |keys|
  {
    if k != keys[0] {
      AllMembers(h, keys[1..], m, objects, path, k);
    }
  }

  /** Rendering ends exactly if no dictionary that can be reached from the value reaches itself. */
  lemma {:induction false} RenderingEnds(h: Host, v: Value, objects: seq<Record>)
    requires Orderly(h)
    ensures Text(h, v, objects, {}).Some? <==> !Knotted(v, objects)
  {
    EndlessIsKnotted(h, v, objects);
    if Knotted(v, objects) && Text(h, v, objects, {}).Some? {
      var t: seq<nat>, i: nat :| IsKnot(v, objects, t, i);
      TrailsAreFree(h, v, objects, {}, t);
      assert false;
    }
  }

  lemma {:induction false} NoObjectsNoKnot(v: Value)
    ensures !Knotted(v, [])
  {
    forall t: seq<nat>, i: nat ensures !IsKnot(v, [], t, i) {
      if i + 1 < |t| {
        assert !Edge([], t[0], t[1]);
      }
    }
  }

  // ---------- the recursion as it is written ----------

  /** The recursion that looks at no path, cut off at a depth of dictionaries. */
  function Unrolled(h: Host, v: Value, objects: seq<Record>, depth: nat): Option<string>
    decreases depth, 0, v
  {
    match v
    case ObjectV(o) =>
      if o >= |objects| then Some("{}")
      else if depth == 0 then None
      else Bracketed("{", UnrolledMembers(h, h.order(objects[o].Keys), objects[o], objects, depth - 1), "}")
    case ListV(items) => Bracketed("[", UnrolledItems(h, items, objects, depth), "]")
    case _ => Text(h, v, objects, {})
  }

  function UnrolledItems(h: Host, items: seq<Value>, objects: seq<Record>, depth: nat): Option<string>
    decreases depth, 0, items
  {
    if items == [] then Some("")
    else
      var t := Unrolled(h, items[0], objects, depth);
      var more := UnrolledItems(h, items[1..], objects, depth);
      if t.None? || more.None? then None else Some(t.value + Separator(|items|) + more.value)
  }

  function UnrolledMembers(h: Host, keys: seq<string>, m: Record, objects: seq<Record>, depth: nat): Option<string>
    decreases depth, 1, |keys|
  {
    if keys == [] then Some("")
    else
      var t := if keys[0] in m then Unrolled(h, m[keys[0]], objects, depth) else Some("");
      var more := UnrolledMembers(h, keys[1..], m, objects, depth);
      if t.None? || more.None? then None else Some(keys[0] + ": " + t.value + Separator(|keys|) + more.value)
  }

  lemma {:induction false} TextUnrolls(h: Host, v: Value, objects: seq<Record>, path: set<nat>, depth: nat)
    requires Text(h, v, objects, path).Some? && depth >= |Indices(objects) - path|
    ensures Unrolled(h, v, objects, depth) == Text(h, v, objects, path)
    decreases Indices(objects) - path, 0, v
  {
    if v.ListV? {
      ItemsUnroll(h, v.items, objects, path, depth);
    } else if v.ObjectV? && v.at < |objects| {
      var m := objects[v.at];
      assert Indices(objects) - path == (Indices(objects) - (path + {v.at})) + {v.at};
      MembersUnroll(h, h.order(m.Keys), m, objects, path + {v.at}, depth - 1);
    }
  }

  lemma {:induction false} ItemsUnroll(h: Host, items: seq<Value>, objects: seq<Record>, path: set<nat>, depth: nat)
    requires Items(h, items, objects, path).Some? && depth >= |Indices(objects) - path|
    ensures UnrolledItems(h, items, objects, depth) == Items(h, items, objects, path)
    decreases Indices(objects) - path, 0, items
  {
    if items != [] {
      TextUnrolls(h, items[0], objects, path, depth);
      ItemsUnroll(h, items[1..], objects, path, depth);
    }
  }

  lemma {:induction false} MembersUnroll(h: Host, keys: seq<string>, m: Record, objects: seq<Record>, path: set<nat>, depth: nat)
    requires Members(h, keys, m, objects, path).Some? && depth >= |Indices(objects) - path|
    ensures UnrolledMembers(h, keys, m, objects, depth) == Members(h, keys, m, objects, path)
    decreases Indices(objects) - path, 1, |keys|
  {
    if keys != [] {
      if keys[0] in m {
        TextUnrolls(h, m[keys[0]], objects, path, depth);
      }
      MembersUnroll(h, keys[1..], m, objects, path, depth);
    }
  }

  /** What fits some depth fits any greater one, with the same text. */
  lemma {:induction false} DeeperIsSame(h: Host, v: Value, objects: seq<Record>, depth: nat)
    requires Unrolled(h, v, objects, depth).Some?
    ensures Unrolled(h, v, objects, depth + 1) == Unrolled(h, v, objects, depth)
    decreases depth, 0, v
  {
    if v.ListV? {
      DeeperItems(h, v.items, objects, depth);
    } else if v.ObjectV? && v.at < |objects| {
      DeeperMembers(h, h.order(objects[v.at].Keys), objects[v.at], objects, depth - 1);
    }
  }

  lemma {:induction false} DeeperItems(h: Host, items: seq<Value>, objects: seq<Record>, depth: nat)
    requires UnrolledItems(h, items, objects, depth).Some?
    ensures UnrolledItems(h, items, objects, depth + 1) == UnrolledItems(h, items, objects, depth)
    decreases depth, 0, items
  {
    if items != [] {
      DeeperIsSame(h, items[0], objects, depth);
      DeeperItems(h, items[1..], objects, depth);
    }
  }

  lemma {:induction false} DeeperMembers(h: Host, keys: seq<string>, m: Record, objects: seq<Record>, depth: nat)
    requires UnrolledMembers(h, keys, m, objects, depth).Some?
    ensures UnrolledMembers(h, keys, m, objects, depth + 1) == UnrolledMembers(h, keys, m, objects, depth)
    decreases depth, 1, |keys|
  {
    if keys != [] {
      if keys[0] in m {
        DeeperIsSame(h, m[keys[0]], objects, depth);
      }
      DeeperMembers(h, keys[1..], m, objects, depth);
    }
  }

  /** None of the dictionaries on the path fits the depth. */
  ghost predicate Deep(h: Host, objects: seq<Record>, path: set<nat>, depth: nat) {
    forall p :: p in path ==> Unrolled(h, ObjectV(p), objects, depth).None?
  }

  lemma {:induction false} ShallowerIsDeep(h: Host, objects: seq<Record>, path: set<nat>, depth: nat)
    requires depth > 0 && Deep(h, objects, path, depth)
    ensures Deep(h, objects, path, depth - 1)
  {
    hide Unrolled;
    forall p | p in path ensures Unrolled(h, ObjectV(p), objects, depth - 1).None? {
      if Unrolled(h, ObjectV(p), objects, depth - 1).Some? {
        DeeperIsSame(h, ObjectV(p), objects, depth - 1);
      }
    }
  }

  lemma {:induction false} UnrolledIsText(h: Host, v: Value, objects: seq<Record>, path: set<nat>, depth: nat)
    requires Unrolled(h, v, objects, depth).Some? && Deep(h, objects, path, depth)
    ensures Text(h, v, objects, path) == Unrolled(h, v, objects, depth)
    decreases depth, 0, v
  {
    hide Deep;
    if v.ListV? {
      UnrolledIsItems(h, v.items, objects, path, depth);
    } else if v.ObjectV? && v.at < |objects| {
      ShallowerIsDeep(h, objects, path, depth);
      if Unrolled(h, v, objects, depth - 1).Some? {
        DeeperIsSame(h, v, objects, depth - 1);
        UnrolledIsText(h, v, objects, path, depth - 1);
      } else {
        assert v.at !in path by { NotDeep(h, v.at, objects, path, depth); }
        assert Deep(h, objects, path + {v.at}, depth - 1) by { OneDeeper(h, v.at, objects, path, depth - 1); }
        UnrolledIsMembers(h, h.order(objects[v.at].Keys), objects[v.at], objects, path + {v.at}, depth - 1);
      }
    }
  }

  lemma {:induction false} NotDeep(h: Host, o: nat, objects: seq<Record>, path: set<nat>, depth: nat)
    requires Unrolled(h, ObjectV(o), objects, depth).Some? && Deep(h, objects, path, depth)
    ensures o !in path
  {
  }

  lemma {:induction false} OneDeeper(h: Host, o: nat, objects: seq<Record>, path: set<nat>, depth: nat)
    requires Unrolled(h, ObjectV(o), objects, depth).None? && Deep(h, objects, path, depth)
    ensures Deep(h, objects, path + {o}, depth)
  {
    hide Unrolled;
  }

  lemma {:induction false} UnrolledIsItems(h: Host, items: seq<Value>, objects: seq<Record>, path: set<nat>, depth: nat)
    requires UnrolledItems(h, items, objects, depth).Some? && Deep(h, objects, path, depth)
    ensures Items(h, items, objects, path) == UnrolledItems(h, items, objects, depth)
    decreases depth, 0, items
  {
    hide Deep;
    if items != [] {
      UnrolledIsText(h, items[0], objects, path, depth);
      UnrolledIsItems(h, items[1..], objects, path, depth);
    }
  }

  lemma {:induction false} UnrolledIsMembers(h: Host, keys: seq<string>, m: Record, objects: seq<Record>, path: set<nat>, depth: nat)
    requires UnrolledMembers(h, keys, m, objects, depth).Some? && Deep(h, objects, path, depth)
    ensures Members(h, keys, m, objects, path) == UnrolledMembers(h, keys, m, objects, depth)
    decreases depth, 1, |keys|
  {
    hide Deep;
    if keys != [] {
      if keys[0] in m {
        UnrolledIsText(h, m[keys[0]], objects, path, depth);
      }
      UnrolledIsMembers(h, keys[1..], m, objects, path, depth);
    }
  }

  /** The text is what the plain recursion yields at some depth; where there is none it exceeds every depth. */
  lemma {:induction false} TextIsRecursion(h: Host, v: Value, objects: seq<Record>)
    ensures forall t :: Text(h, v, objects, {}) == Some(t) <==> exists depth: nat :: Unrolled(h, v, objects, depth) == Some(t)
    ensures Text(h, v, objects, {}).None? <==> forall depth: nat :: Unrolled(h, v, objects, depth).None?
  {
    hide Text, Unrolled;
    if Text(h, v, objects, {}).Some? {
      TextUnrolls(h, v, objects, {}, |Indices(objects) - {}|);
    }
    forall depth: nat | Unrolled(h, v, objects, depth).Some?
      ensures Text(h, v, objects, {}) == Unrolled(h, v, objects, depth)
    {
      UnrolledIsText(h, v, objects, {}, depth);
    }
  }

  // ---------- the program ----------

  /** The separator in front of element `i` of `n`, once there is one before it. */
  function Comma(i: nat, n: nat): string { if 0 < i < n then ", " else "" }

  lemma {:induction false} NextItem(h: Host, items: seq<Value>, i: nat, objects: seq<Record>, path: set<nat>, out: string)
    requires i < |items|
    ensures var t := Text(h, items[i], objects, path);
      var rest := Bracketed(out, Items(h, items[i..], objects, path), "]");
      if t.None? then rest == None
      else rest == Bracketed(out + t.value + Comma(i + 1, |items|), Items(h, items[i + 1..], objects, path), "]")
  {
    hide Text;
    assert items[i..][0] == items[i] && items[i..][1..] == items[i + 1..];
    assert Separator(|items[i..]|) == Comma(i + 1, |items|);
    var t, more := Text(h, items[i], objects, path), Items(h, items[i + 1..], objects, path);
    if t.Some? && more.Some? {
      Associate(out, t.value, Comma(i + 1, |items|), more.value);
    }
  }

  lemma {:induction false} NextMember(h: Host, keys: seq<string>, i: nat, m: Record, objects: seq<Record>, path: set<nat>, out: string)
    requires i < |keys|
    ensures var t := if keys[i] in m then Text(h, m[keys[i]], objects, path) else Some("");
      var rest := Bracketed(out, Members(h, keys[i..], m, objects, path), "}");
      if t.None? then rest == None
      else rest == Bracketed(out + (keys[i] + ": " + t.value) + Comma(i + 1, |keys|),
                             Members(h, keys[i + 1..], m, objects, path), "}")
  {
    hide Text;
    assert keys[i..][0] == keys[i] && keys[i..][1..] == keys[i + 1..];
    assert Separator(|keys[i..]|) == Comma(i + 1, |keys|);
    var t := if keys[i] in m then Text(h, m[keys[i]], objects, path) else Some("");
    var more := Members(h, keys[i + 1..], m, objects, path);
    if t.Some? && more.Some? {
      Associate(out, keys[i] + ": " + t.value, Comma(i + 1, |keys|), more.value);
    }
  }

  lemma {:induction false} Associate(a: string, b: string, c: string, d: string)
    ensures a + (b + c + d) == a + b + c + d
  {
  }

  /** The stream of a list, filled element by element. */
  method RenderItems(h: Host, items: seq<Value>, objects: seq<Record>, path: set<nat>) returns (r: Option<string>)
    ensures r == Bracketed("[", Items(h, items, objects, path), "]")
    decreases Indices(objects) - path, 0, items, 1
  {
    hide Text, Items;
    var out := "[";
    assert items[0..] == items && out + Comma(0, |items|) == out;
    for i := 0 to |items|
      invariant Bracketed("[", Items(h, items, objects, path), "]")
             == Bracketed(out + Comma(i, |items|), Items(h, items[i..], objects, path), "]")
    {
      NextItem(h, items, i, objects, path, out + Comma(i, |items|));
      ghost var before := out + Comma(i, |items|);
      if i > 0 {
        out := out + ", ";
      }
      assert out == before;
      var t := Render(h, items[i], objects, path);
      if t.None? {
        return None;
      }
      out := out + t.value;
    }
    assert Items(h, items[|items|..], objects, path) == Some("") by { NoItemsLeft(h, items, objects, path); }
    assert out + Comma(|items|, |items|) == out && out + "" == out;
    r := Some(out + "]");
  }

  lemma {:induction false} NoItemsLeft(h: Host, items: seq<Value>, objects: seq<Record>, path: set<nat>)
    ensures Items(h, items[|items|..], objects, path) == Some("")
  {
  }

  /** The stream of a dictionary, filled in the order its keys are walked. */
  method RenderMembers(h: Host, m: Record, objects: seq<Record>, path: set<nat>) returns (r: Option<string>)
    ensures r == Bracketed("{", Members(h, h.order(m.Keys), m, objects, path), "}")
    decreases Indices(objects) - path, 1
  {
    hide Text, Members;
    var keys := h.order(m.Keys);
    var out := "{";
    assert keys[0..] == keys && out + Comma(0, |keys|) == out;
    for i := 0 to |keys|
      invariant Bracketed("{", Members(h, keys, m, objects, path), "}")
             == Bracketed(out + Comma(i, |keys|), Members(h, keys[i..], m, objects, path), "}")
    {
      NextMember(h, keys, i, m, objects, path, out + Comma(i, |keys|));
      ghost var before := out + Comma(i, |keys|);
      if i > 0 {
        out := out + ", ";
      }
      assert out == before;
      var t := Some("");
      if keys[i] in m {
        t := Render(h, m[keys[i]], objects, path);
      }
      if t.None? {
        return None;
      }
      out := out + (keys[i] + ": " + t.value);
    }
    assert Members(h, keys[|keys|..], m, objects, path) == Some("") by { NoMembersLeft(h, keys, m, objects, path); }
    assert out + Comma(|keys|, |keys|) == out && out + "" == out;
    r := Some(out + "}");
  }

  lemma {:induction false} NoMembersLeft(h: Host, keys: seq<string>, m: Record, objects: seq<Record>, path: set<nat>)
    ensures Members(h, keys[|keys|..], m, objects, path) == Some("")
  {
  }

  /** `None` where the program never comes back: it would enter a dictionary it is in. */
  method Render(h: Host, v: Value, objects: seq<Record>, path: set<nat>) returns (r: Option<string>)
    ensures r == Text(h, v, objects, path)
    decreases Indices(objects) - path, 0, v, 0
  {
    hide Items, Members;
    match v {
      case NullV => r := Some("null");
      case NumberV(n) => r := Some(NumberText(h, n));
      case StringV(t) => r := Some(t);
      case BoolV(b) => r := Some(if b then "true" else "false");
      case FunctionV(_) => r := Some("<function>");
      case NativeV(_, _) => r := Some("<native function>");
      case InstanceV(_) => r := Some("<instance>");
      case ClassV(_) => r := Some("<class>");
      case ObjectV(o) =>
        if o >= |objects| {
          r := Some("{}");
        } else if o in path {
          r := None;
        } else {
          r := RenderMembers(h, objects[o], objects, path + {o});
        }
      case ListV(items) => r := RenderItems(h, items, objects, path);
    }
  }
}
