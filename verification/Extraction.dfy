/** Bracket counting finds the end of every object and list, however brackets and strings are nested. */
module Extraction {
  import opened Envelope
  import opened Slices
  import J = Json
  import R = JsonRoundTrip

  // ---------- texts with balanced brackets ----------

  /** A character without a role, a string, or what stands between two brackets of one kind. */
  datatype Chunk = Other(c: char) | Quoted(body: string) | Group(open: char, inside: seq<Chunk>)

  function ChunkText(k: Chunk): string
    decreases k, 1
  {
    match k
    case Other(c) => [c]
    case Quoted(body) => "\"" + (body + "\"")
    case Group(open, inside) => [open] + (ChunksText(inside) + [CloseOf(open)])
  }

  function ChunksText(ks: seq<Chunk>): string
    decreases ks
  {
    if ks == [] then "" else ChunkText(ks[0]) + ChunksText(ks[1..])
  }

  /** No quote but escaped ones, and no backslash left alone at the end. */
  predicate IsBody(body: string) {
    body == "" || (if body[0] == '\\' then |body| >= 2 && IsBody(body[2..]) else body[0] != '"' && IsBody(body[1..]))
  }

  predicate Balanced(k: Chunk) {
    match k
    case Other(c) => c !in "\"{}[]" && c != '\0'
    case Quoted(body) => IsBody(body) && IsCString(body)
    case Group(open, inside) => (open == '{' || open == '[') && AllBalanced(inside)
  }

  predicate AllBalanced(ks: seq<Chunk>) {
    ks != [] ==> Balanced(ks[0]) && AllBalanced(ks[1..])
  }

  // ---------- counting one kind of bracket ----------

  /** A string body is copied up to its own quote. */
  lemma {:induction false} BodyCopied(s: string, p: nat, body: string, out: string, max: nat)
    requires At(s, p, body + "\"") && IsBody(body) && |out| + |body| + 2 < max
    ensures CopyQuoted(s, p, out, max) == Copied(out + body, p + |body|)
    decreases |body|
  {
    AtIndex(s, p, body + "\"", 0);
    if body == "" {
      assert out + body == out;
    } else {
      AtIndex(s, p, body + "\"", 1);
      var k := if body[0] == '\\' then 2 else 1;
      AtFront(s, p, body, k, "\"");
      AtTail(s, p, body, "\"");
      AtTail(s, p, body[..k], body[k..]) by { assert body[..k] + body[k..] == body; }
      assert s[p..p + k] == body[..k];
      BodyCopied(s, p + k, body[k..], out + body[..k], max);
      assert out + body[..k] + body[k..] == out + body;
    }
  }

  predicate IsPair(open: char, close: char) {
    (open == '{' || open == '[') && close == CloseOf(open)
  }

  /** One character that is no quote, at a depth it does not bring to zero. */
  lemma {:induction false} CharCopied(s: string, p: nat, open: char, close: char, depth: int, out: string, max: nat)
    requires p < |s| && s[p] != '"' && |out| + 1 < max
    ensures var level := if s[p] == open then depth + 1 else if s[p] == close then depth - 1 else depth;
      CopyGroup(s, p, open, close, depth, out, max) ==
        if level == 0 then out + [s[p]] else CopyGroup(s, p + 1, open, close, level, out + [s[p]], max)
  {
  }

  lemma {:induction false} QuotedCopied(s: string, p: nat, body: string, open: char, close: char, depth: int, out: string, max: nat)
    requires At(s, p, "\"" + (body + "\"")) && IsBody(body) && |out| + |body| + 3 < max
    ensures CopyGroup(s, p, open, close, depth, out, max) ==
            CopyGroup(s, p + |body| + 2, open, close, depth, out + ("\"" + (body + "\"")), max)
  {
    AtOne(s, p, '"', body + "\"");
    AtClosed(s, p + 1, body, '"');
    BodyCopied(s, p + 1, body, out + ['"'], max);
    assert out + ['"'] + body + ['"'] == out + ("\"" + (body + "\""));
  }

  /** Inside a group, a balanced chunk of any kind leaves the count as it was. */
  lemma {:induction false} ChunkCopied(s: string, p: nat, k: Chunk, open: char, close: char, depth: int, out: string, max: nat)
    requires At(s, p, ChunkText(k)) && Balanced(k) && IsPair(open, close) && depth >= 1 && |out| + |ChunkText(k)| + 1 < max
    ensures CopyGroup(s, p, open, close, depth, out, max) ==
            CopyGroup(s, p + |ChunkText(k)|, open, close, depth, out + ChunkText(k), max)
    decreases k, 1
  {
    hide CopyGroup, At, AllBalanced, ChunksText;
    match k
    case Other(c) =>
      AtIndex(s, p, [c], 0);
      CharCopied(s, p, open, close, depth, out, max);
    case Quoted(body) => QuotedCopied(s, p, body, open, close, depth, out, max);
    case Group(o, inside) =>
      var text := ChunksText(inside);
      AtOne(s, p, o, text + [CloseOf(o)]);
      AtClosed(s, p + 1, text, CloseOf(o));
      CharCopied(s, p, open, close, depth, out, max);
      var level := if o == open then depth + 1 else depth;
      ChunksCopied(s, p + 1, inside, open, close, level, out + [o], max);
      CharCopied(s, p + 1 + |text|, open, close, level, out + [o] + text, max);
      assert out + [o] + text + [CloseOf(o)] == out + ChunkText(k);
  }

  lemma {:induction false} ChunksCopied(s: string, p: nat, ks: seq<Chunk>, open: char, close: char, depth: int, out: string, max: nat)
    requires At(s, p, ChunksText(ks)) && AllBalanced(ks) && IsPair(open, close) && depth >= 1 && |out| + |ChunksText(ks)| + 1 < max
    ensures CopyGroup(s, p, open, close, depth, out, max) ==
            CopyGroup(s, p + |ChunksText(ks)|, open, close, depth, out + ChunksText(ks), max)
    decreases ks, 0
  {
    hide CopyGroup, At, ChunkText, Balanced;
    if ks == [] {
      assert out + "" == out;
    } else {
      var first, rest := ChunkText(ks[0]), ChunksText(ks[1..]);
      AtTail(s, p, first, rest);
      ChunkCopied(s, p, ks[0], open, close, depth, out, max);
      ChunksCopied(s, p + |first|, ks[1..], open, close, depth, out + first, max);
      assert out + first + rest == out + ChunksText(ks);
    }
  }

  /** From its first bracket on, a balanced group is copied exactly up to its own last bracket. */
  lemma {:induction false} GroupCopied(s: string, p: nat, k: Chunk, max: nat)
    requires At(s, p, ChunkText(k)) && Balanced(k) && k.Group? && |ChunkText(k)| < max
    ensures p < |s| && s[p] == k.open
    ensures CopyGroup(s, p, k.open, CloseOf(k.open), 0, "", max) == ChunkText(k)
  {
    hide CopyGroup, At, AllBalanced, ChunksText;
    var o, text := k.open, ChunksText(k.inside);
    AtOne(s, p, o, text + [CloseOf(o)]);
    AtClosed(s, p + 1, text, CloseOf(o));
    CharCopied(s, p, o, CloseOf(o), 0, "", max);
    ChunksCopied(s, p + 1, k.inside, o, CloseOf(o), 1, "" + [o], max);
    CharCopied(s, p + 1 + |text|, o, CloseOf(o), 1, "" + [o] + text, max);
    assert "" + [o] + text + [CloseOf(o)] == ChunkText(k);
  }

  // ---------- printed JSON is balanced ----------

  function Plain(text: string): seq<Chunk> {
    seq(|text|, i requires 0 <= i < |text| => Other(text[i]))
  }

  /** A printed tree as balanced chunks. */
  function Chunks(t: J.Tree): seq<Chunk>
    decreases t, 1
  {
    match t
    case TNull => Plain("null")
    case TOpaque => Plain("null")
    case TBool(b) => Plain(if b then "true" else "false")
    case TNumber(n) => Plain(J.IntText(n))
    case TString(s) => [Quoted(J.Escape(s))]
    case TList(items) => [Group('[', ItemChunks(items))]
    case TObject(members) => [Group('{', MembersChunks(members))]
  }

  function ItemChunks(items: seq<J.Tree>): seq<Chunk>
    decreases items
  {
    if items == [] then []
    else if |items| == 1 then Chunks(items[0])
    else Chunks(items[0]) + ([Other(',')] + ItemChunks(items[1..]))
  }

  function MembersChunks(members: seq<J.Member>): seq<Chunk>
    decreases members, 1
  {
    if members == [] then []
    else if |members| == 1 then MemberChunks(members[0])
    else MemberChunks(members[0]) + ([Other(',')] + MembersChunks(members[1..]))
  }

  function MemberChunks(m: J.Member): seq<Chunk>
    decreases m
  {
    [Quoted(m.key)] + ([Other(':')] + Chunks(m.value))
  }

  ghost predicate IsPlainKey(key: string) { R.PlainKey(key) && IsCString(key) }

  /** Keys that are written unescaped must not need an escape. */
  ghost predicate PlainKeys(t: J.Tree) {
    match t
    case TNull => true
    case TOpaque => true
    case TBool(_) => true
    case TNumber(_) => true
    case TString(_) => true
    case TList(items) => forall k :: 0 <= k < |items| ==> PlainKeys(items[k])
    case TObject(members) => forall k :: 0 <= k < |members| ==> IsPlainKey(members[k].key) && PlainKeys(members[k].value)
  }

  lemma {:induction false} TextsJoin(a: seq<Chunk>, b: seq<Chunk>)
    ensures ChunksText(a + b) == ChunksText(a) + ChunksText(b)
    ensures AllBalanced(a + b) <==> AllBalanced(a) && AllBalanced(b)
  {
    hide ChunkText, Balanced;
    if a == [] {
      assert a + b == b;
    } else {
      assert (a + b)[1..] == a[1..] + b;
      TextsJoin(a[1..], b);
    }
  }

  lemma {:induction false} PlainText(text: string)
    requires forall i :: 0 <= i < |text| ==> text[i] !in "\"{}[]" && text[i] != '\0'
    ensures ChunksText(Plain(text)) == text && AllBalanced(Plain(text))
    decreases |text|
  {
    if text != "" {
      PlainText(text[1..]);
      assert Plain(text)[1..] == Plain(text[1..]);
      assert text == [text[0]] + text[1..];
    }
  }

  lemma {:induction false} OneChunk(k: Chunk)
    ensures ChunksText([k]) == ChunkText(k) && (AllBalanced([k]) <==> Balanced(k))
  {
    hide ChunkText, Balanced;
    assert ChunksText([k][1..]) == "";
  }

  lemma {:induction false} BodiesJoin(a: string, b: string)
    requires IsBody(a) && IsBody(b)
    ensures IsBody(a + b)
    decreases |a|
  {
    if a == "" {
      assert a + b == b;
    } else {
      var k := if a[0] == '\\' then 2 else 1;
      BodiesJoin(a[k..], b);
      assert (a + b)[k..] == a[k..] + b;
    }
  }

  lemma {:induction false} EscapeIsBody(s: string)
    ensures IsBody(J.Escape(s)) && IsCString(J.Escape(s))
  {
    if s != "" {
      EscapeIsBody(s[1..]);
      EscapeCharIsBody(s[0]);
      BodiesJoin(J.EscapeChar(s[0]), J.Escape(s[1..]));
    }
  }

  lemma {:induction false} PairIsBody(c: char)
    ensures IsBody(['\\', c])
  {
    assert ['\\', c][2..] == "" && IsBody("");
  }

  lemma {:induction false} OneIsBody(c: char)
    requires c != '"' && c != '\\'
    ensures IsBody([c])
  {
    assert [c][1..] == "" && IsBody("");
  }

  lemma {:induction false} EscapeCharIsBody(c: char)
    ensures IsBody(J.EscapeChar(c)) && IsCString(J.EscapeChar(c))
  {
    hide IsBody;
    var e := J.EscapeChar(c);
    if |e| == 2 {
      PairIsBody(e[1]);
      assert e == ['\\', e[1]];
    } else if |e| == 6 {
      PairIsBody('u');
      OneIsBody('0');
      OneIsBody(e[4]);
      OneIsBody(e[5]);
      BodiesJoin([e[4]], [e[5]]);
      BodiesJoin(['0'], [e[4]] + [e[5]]);
      BodiesJoin(['0'], ['0'] + ([e[4]] + [e[5]]));
      BodiesJoin(['\\', 'u'], ['0'] + (['0'] + ([e[4]] + [e[5]])));
      assert e == ['\\', 'u'] + (['0'] + (['0'] + ([e[4]] + [e[5]])));
    } else {
      OneIsBody(c);
    }
  }

  lemma {:induction false} PlainKeyIsBody(key: string)
    requires IsPlainKey(key)
    ensures IsBody(key) && IsCString(key)
    decreases |key|
  {
    if key != "" {
      PlainKeyIsBody(key[1..]);
    }
  }

  lemma {:induction false} TreeIsBalanced(t: J.Tree)
    requires PlainKeys(t)
    ensures ChunksText(Chunks(t)) == J.Show(t) && AllBalanced(Chunks(t))
    decreases t, 1
  {
    hide AllBalanced, J.IntText, J.Escape, IsBody, ItemChunks, MembersChunks, J.ShowItems, J.ShowMembers, ChunksText, Plain;
    match t
    case TNull => PlainText("null");
    case TOpaque => PlainText("null");
    case TBool(b) => PlainText(if b then "true" else "false");
    case TNumber(n) => NumberIsPlain(n); PlainText(J.IntText(n));
    case TString(text) => EscapeIsBody(text); OneChunk(Quoted(J.Escape(text)));
    case TList(items) => ItemsAreBalanced(items); OneChunk(Group('[', ItemChunks(items)));
    case TObject(members) => MembersAreBalanced(members); OneChunk(Group('{', MembersChunks(members)));
  }

  lemma {:induction false} NumberIsPlain(n: int)
    ensures forall i :: 0 <= i < |J.IntText(n)| ==> J.IntText(n)[i] !in "\"{}[]" && J.IntText(n)[i] != '\0'
  {
    hide J.IntText;
    R.IntTextReads(n);
  }

  lemma {:induction false} ItemsAreBalanced(items: seq<J.Tree>)
    requires forall k :: 0 <= k < |items| ==> PlainKeys(items[k])
    ensures ChunksText(ItemChunks(items)) == J.ShowItems(items) && AllBalanced(ItemChunks(items))
    decreases items
  {
    hide AllBalanced, Chunks, J.Show, ChunksText, PlainKeys;
    if items == [] {
      PlainText("");
      assert Plain("") == [];
    } else {
      TreeIsBalanced(items[0]);
      if |items| > 1 {
        ItemsAreBalanced(items[1..]);
        OneChunk(Other(','));
        TextsJoin([Other(',')], ItemChunks(items[1..]));
        TextsJoin(Chunks(items[0]), [Other(',')] + ItemChunks(items[1..]));
      }
    }
  }

  lemma {:induction false} MemberIsBalanced(m: J.Member)
    requires IsPlainKey(m.key) && PlainKeys(m.value)
    ensures ChunksText(MemberChunks(m)) == J.ShowMember(m) && AllBalanced(MemberChunks(m))
    decreases m
  {
    hide AllBalanced, Chunks, J.Show, ChunksText, PlainKeys, IsBody;
    PlainKeyIsBody(m.key);
    TreeIsBalanced(m.value);
    OneChunk(Quoted(m.key));
    OneChunk(Other(':'));
    TextsJoin([Other(':')], Chunks(m.value));
    TextsJoin([Quoted(m.key)], [Other(':')] + Chunks(m.value));
    assert "\"" + (m.key + "\"") + (":" + J.Show(m.value)) == J.ShowMember(m);
  }

  lemma {:induction false} MembersAreBalanced(members: seq<J.Member>)
    requires forall k :: 0 <= k < |members| ==> IsPlainKey(members[k].key) && PlainKeys(members[k].value)
    ensures ChunksText(MembersChunks(members)) == J.ShowMembers(members) && AllBalanced(MembersChunks(members))
    decreases members, 1
  {
    hide AllBalanced, MemberChunks, J.ShowMember, ChunksText, PlainKeys, IsPlainKey;
    if members == [] {
      PlainText("");
      assert Plain("") == [];
    } else {
      MemberIsBalanced(members[0]);
      if |members| > 1 {
        MembersAreBalanced(members[1..]);
        OneChunk(Other(','));
        TextsJoin([Other(',')], MembersChunks(members[1..]));
        TextsJoin(MemberChunks(members[0]), [Other(',')] + MembersChunks(members[1..]));
      }
    }
  }

  /** A printed object or list, wherever it stands in a text, is copied exactly. */
  lemma {:induction false} PrintedTreeCopied(s: string, p: nat, t: J.Tree, max: nat)
    requires (t.TList? || t.TObject?) && PlainKeys(t) && At(s, p, J.Show(t)) && |J.Show(t)| < max
    ensures p < |s| && (s[p] == '{' || s[p] == '[')
    ensures CopyGroup(s, p, s[p], CloseOf(s[p]), 0, "", max) == J.Show(t)
  {
    hide ItemChunks, MembersChunks, J.ShowItems, J.ShowMembers, CopyGroup, At;
    TreeIsBalanced(t);
    var k := Chunks(t)[0];
    assert Chunks(t) == [k];
    OneChunk(k);
    GroupCopied(s, p, k, max);
  }
}
