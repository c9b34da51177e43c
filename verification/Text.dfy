/** The `split` and `replace` builtins on non-empty separators. */
module Text {

  predicate Stands(s: string, p: nat, sep: string) {
    p + |sep| <= |s| && s[p..p + |sep|] == sep
  }

  /** The first occurrence of `sep` at `p` or behind it; the length of the text if there is none. */
  function Find(s: string, sep: string, p: nat): (q: nat)
    requires sep != "" && p <= |s|
    ensures p <= q <= |s|
    ensures q < |s| ==> Stands(s, q, sep)
    ensures forall k: nat :: p <= k < q ==> !Stands(s, k, sep)
    decreases |s| - p
  {
    if p == |s| || Stands(s, p, sep) then p else Find(s, sep, p + 1)
  }

  /** The pieces from `p` on, behind those found before. */
  function SplitOn(s: string, sep: string, p: nat, found: seq<string>): (r: seq<string>)
    requires sep != "" && p <= |s|
    decreases |s| - p
  {
    var q := Find(s, sep, p);
    if q == |s| then found + [s[p..]] else SplitOn(s, sep, q + |sep|, found + [s[p..q]])
  }

  function Split(s: string, sep: string): seq<string> {
    if sep == "" then [s] else SplitOn(s, sep, 0, [])
  }

  function ReplaceOn(s: string, from: string, to: string, p: nat, out: string): string
    requires from != "" && p <= |s|
    decreases |s| - p
  {
    var q := Find(s, from, p);
    if q == |s| then out + s[p..] else ReplaceOn(s, from, to, q + |from|, out + s[p..q] + to)
  }

  function Replace(s: string, from: string, to: string): string {
    if from == "" then s else ReplaceOn(s, from, to, 0, "")
  }

  function Join(pieces: seq<string>, sep: string): string
    requires pieces != []
  {
    if |pieces| == 1 then pieces[0] else Join(pieces[..|pieces| - 1], sep) + sep + pieces[|pieces| - 1]
  }

  /** Pieces put together again, with a separator behind each. */
  function Closed(pieces: seq<string>, sep: string): string {
    if pieces == [] then "" else Closed(pieces[..|pieces| - 1], sep) + pieces[|pieces| - 1] + sep
  }

  lemma {:induction false} ClosedSnoc(pieces: seq<string>, x: string, sep: string)
    ensures Closed(pieces + [x], sep) == Closed(pieces, sep) + x + sep
  {
    assert (pieces + [x])[..|pieces|] == pieces;
  }

  lemma {:induction false} JoinSnoc(pieces: seq<string>, x: string, sep: string)
    ensures Join(pieces + [x], sep) == Closed(pieces, sep) + x
  {
    assert (pieces + [x])[..|pieces|] == pieces;
    if pieces != [] {
      var n := |pieces| - 1;
      assert pieces == pieces[..n] + [pieces[n]];
      JoinSnoc(pieces[..n], pieces[n], sep);
    }
  }

  lemma {:induction false} SplitJoins(s: string, sep: string, p: nat, found: seq<string>)
    requires sep != "" && p <= |s| && Closed(found, sep) == s[..p]
    ensures SplitOn(s, sep, p, found) != [] && Join(SplitOn(s, sep, p, found), sep) == s
    decreases |s| - p
  {
    var q := Find(s, sep, p);
    if q == |s| {
      JoinSnoc(found, s[p..], sep);
      assert s[..p] + s[p..] == s;
    } else {
      ClosedSnoc(found, s[p..q], sep);
      assert s[..p] + s[p..q] + sep == s[..q + |sep|];
      SplitJoins(s, sep, q + |sep|, found + [s[p..q]]);
    }
  }

  ghost predicate Free(piece: string, sep: string) {
    forall k: nat :: k < |piece| ==> !Stands(piece, k, sep)
  }

  lemma {:induction false} SplitIsFree(s: string, sep: string, p: nat, found: seq<string>)
    requires sep != "" && p <= |s| && forall x :: x in found ==> Free(x, sep)
    ensures forall x :: x in SplitOn(s, sep, p, found) ==> Free(x, sep)
    decreases |s| - p
  {
    var q := Find(s, sep, p);
    var piece := s[p..q];
    forall k: nat | k < |piece| ensures !Stands(piece, k, sep) {
      if k + |sep| <= |piece| {
        assert piece[k..k + |sep|] == s[p + k..p + k + |sep|];
        assert !Stands(s, p + k, sep);
      }
    }
    assert s[p..] == s[p..|s|];
    if q < |s| {
      SplitIsFree(s, sep, q + |sep|, found + [piece]);
    }
  }

  /** Splitting loses nothing: the pieces hold no separator, and joined by it they are the text. */
  lemma {:induction false} SplitIsInvertible(s: string, sep: string)
    requires sep != ""
    ensures Split(s, sep) != [] && Join(Split(s, sep), sep) == s
    ensures forall x :: x in Split(s, sep) ==> Free(x, sep)
  {
    assert s[..0] == "";
    SplitJoins(s, sep, 0, []);
    SplitIsFree(s, sep, 0, []);
  }

  lemma {:induction false} ReplaceJoins(s: string, from: string, to: string, p: nat, found: seq<string>)
    requires from != "" && p <= |s|
    ensures SplitOn(s, from, p, found) != []
    ensures ReplaceOn(s, from, to, p, Closed(found, to)) == Join(SplitOn(s, from, p, found), to)
    decreases |s| - p
  {
    var q := Find(s, from, p);
    if q == |s| {
      JoinSnoc(found, s[p..], to);
    } else {
      ClosedSnoc(found, s[p..q], to);
      ReplaceJoins(s, from, to, q + |from|, found + [s[p..q]]);
    }
  }

  /** Replacing is splitting by the old text and joining by the new one. */
  lemma {:induction false} ReplaceIsSplitAndJoin(s: string, from: string, to: string)
    requires from != ""
    ensures Split(s, from) != [] && Replace(s, from, to) == Join(Split(s, from), to)
  {
    ReplaceJoins(s, from, to, 0, []);
  }

  // ---------- the builtins ----------

  method SplitText(s: string, sep: string) returns (out: seq<string>)
    ensures out == Split(s, sep)
  {
    if sep == "" {
      return [s];
    }
    out := [];
    var start := 0;
    var p := Find(s, sep, start);
    while p < |s|
      invariant start <= |s| && p == Find(s, sep, start)
      invariant SplitOn(s, sep, start, out) == Split(s, sep)
      decreases |s| - start
    {
      out := out + [s[start..p]];
      start := p + |sep|;
      p := Find(s, sep, start);
    }
    out := out + [s[start..]];
  }

  method ReplaceText(s: string, from: string, to: string) returns (r: string)
    ensures r == Replace(s, from, to)
  {
    if from == "" {
      return s;
    }
    r := "";
    var start := 0;
    var p := Find(s, from, start);
    while p < |s|
      invariant start <= |s| && p == Find(s, from, start)
      invariant ReplaceOn(s, from, to, start, r) == Replace(s, from, to)
      decreases |s| - start
    {
      r := r + s[start..p] + to;
      start := p + |from|;
      p := Find(s, from, start);
    }
    r := r + s[start..];
  }
}
