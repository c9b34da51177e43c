/** Occurrences of one sequence inside another. */
module Slices {

  /** `s` occurs in `t` at index `p`. */
  ghost predicate At<T>(t: seq<T>, p: nat, s: seq<T>) {
    p + |s| <= |t| && t[p..p + |s|] == s
  }

  lemma {:induction false} AtTail<T>(t: seq<T>, p: nat, a: seq<T>, b: seq<T>)
    requires At(t, p, a + b)
    ensures At(t, p, a) && At(t, p + |a|, b)
    ensures p + |a| + |b| <= |t|
  {
    assert t[p..p + |a| + |b|][..|a|] == (a + b)[..|a|] == a;
    assert t[p..p + |a| + |b|][|a|..] == (a + b)[|a|..] == b;
  }

  lemma {:induction false} AtIndex<T>(t: seq<T>, p: nat, s: seq<T>, k: nat)
    requires At(t, p, s) && k < |s|
    ensures p + k < |t| && t[p + k] == s[k]
  {
    assert t[p..p + |s|][k] == s[k];
  }

  lemma {:induction false} AtFront<T>(t: seq<T>, p: nat, a: seq<T>, k: nat, b: seq<T>)
    requires k <= |a| && At(t, p, a + b)
    ensures At(t, p + k, a[k..] + b)
  {
    assert a + b == a[..k] + (a[k..] + b);
    AtTail(t, p, a[..k], a[k..] + b);
  }

  /** One element in front of the rest. */
  lemma {:induction false} AtOne<T>(t: seq<T>, p: nat, x: T, b: seq<T>)
    requires At(t, p, [x] + b)
    ensures p < |t| && t[p] == x && At(t, p, [x]) && At(t, p + 1, b)
    ensures p + 1 + |b| <= |t|
  {
    AtIndex(t, p, [x] + b, 0);
    AtTail(t, p, [x], b);
  }

  lemma {:induction false} AtTwo<T>(t: seq<T>, p: nat, x: T, y: T, b: seq<T>)
    requires At(t, p, [x] + ([y] + b))
    ensures p + 2 + |b| <= |t| && t[p] == x && t[p + 1] == y && At(t, p + 2, b)
  {
    AtOne(t, p, x, [y] + b);
    hide At;
    AtOne(t, p + 1, y, b);
  }

  lemma {:induction false} AtFour<T>(t: seq<T>, p: nat, w: T, x: T, y: T, z: T, b: seq<T>)
    requires At(t, p, [w] + ([x] + ([y] + ([z] + b))))
    ensures p + 4 + |b| <= |t| && t[p] == w && t[p + 1] == x && t[p + 2] == y && t[p + 3] == z && At(t, p + 4, b)
  {
    AtTwo(t, p, w, x, [y] + ([z] + b));
    hide At;
    AtTwo(t, p + 2, y, z, b);
  }

  /** Something in front of a closing element. */
  lemma {:induction false} AtClosed<T>(t: seq<T>, p: nat, a: seq<T>, x: T)
    requires At(t, p, a + [x])
    ensures p + |a| < |t| && At(t, p, a) && t[p + |a|] == x
  {
    AtTail(t, p, a, [x]);
    AtIndex(t, p + |a|, [x], 0);
  }
}
