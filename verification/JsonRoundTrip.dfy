/** Parsing printed JSON gives the tree back; for strings and keys, exactly when that works. */
module JsonRoundTrip {
  import opened Options
  import opened Json
  import opened Slices
  import D = Decimals

  // ---------- what a tree means ----------

  /** Later members of the same key win, as in the parser. What has no JSON form is `null`. */
  function Meaning(t: Tree): Json
    decreases t, 1
  {
    match t
    case TNull => JNull
    case TOpaque => JNull
    case TBool(b) => JBool(b)
    case TNumber(n) => JNumber(n as real)
    case TString(s) => JString(s)
    case TList(items) => JList(Meanings(items))
    case TObject(members) => JObject(Collect(map[], members))
  }

  function Meanings(items: seq<Tree>): seq<Json>
    decreases items
  {
    if items == [] then [] else [Meaning(items[0])] + Meanings(items[1..])
  }

  function Collect(found: map<string, Json>, members: seq<Member>): map<string, Json>
    decreases members
  {
    if members == [] then found else Collect(found[members[0].key := Meaning(members[0].value)], members[1..])
  }

  /** No control character but the five that have an escape of their own. */
  predicate CleanChar(c: char) {
    c >= ' ' || c == '\n' || c == '\r' || c == '\t' || c == BACKSPACE || c == FORM_FEED
  }

  ghost predicate CleanString(s: string) {
    forall k :: 0 <= k < |s| ==> CleanChar(s[k])
  }

  ghost predicate PlainKey(k: string) {
    forall i :: 0 <= i < |k| ==> k[i] != '"' && k[i] != '\\'
  }

  ghost predicate Clean(t: Tree) {
    match t
    case TNull => true
    case TOpaque => true
    case TBool(_) => true
    case TNumber(_) => true
    case TString(s) => CleanString(s)
    case TList(items) => forall k :: 0 <= k < |items| ==> Clean(items[k])
    case TObject(members) => forall k :: 0 <= k < |members| ==> PlainKey(members[k].key) && Clean(members[k].value)
  }

  // ---------- numbers ----------

  lemma {:induction false} NatTextReads(n: nat)
    ensures NatText(n) != "" && D.AllDigits(NatText(n)) && D.NatOf(NatText(n)) == n
  {
    if n < 10 {
      assert NatText(n)[..0] == "";
      assert D.NatOf("") == 0;
    } else {
      NatTextReads(n / 10);
      var head := NatText(n / 10);
      assert NatText(n)[..|head|] == head;
    }
  }

  lemma {:induction false} DigitsRead(text: string)
    requires text != "" && D.AllDigits(text)
    ensures D.Stod(text) == Some(D.NatOf(text) as real) && D.Stod("-" + text) == Some(-(D.NatOf(text) as real))
  {
    assert D.IsDigit(text[0]) && D.NatOf("") == 0 && D.PowerOfTen(0) == 1;
    D.DigitsEndIs(text, 0, |text|);
    assert text[0..|text|] == text;
    var minus := "-" + text;
    D.DigitsEndIs(minus, 1, |minus|);
    assert minus[1..|minus|] == text;
  }

  lemma {:induction false} IntTextReads(n: int)
    ensures NumberOf(IntText(n)) == JNumber(n as real)
    ensures IntText(n) != "" && (IntText(n)[0] == '-' || D.IsDigit(IntText(n)[0]))
    ensures forall k :: 0 <= k < |IntText(n)| ==> IsNumberChar(IntText(n)[k])
  {
    hide NatText, D.Stod;
    var digits := NatText(if n < 0 then -n else n);
    NatTextReads(if n < 0 then -n else n);
    DigitsRead(digits);
  }

  lemma {:induction false} NumberEndAt(s: string, p: nat, text: string, k: nat)
    requires At(s, p, text) && k <= |text| && forall j :: 0 <= j < |text| ==> IsNumberChar(text[j])
    requires p + |text| < |s| ==> !IsNumberChar(s[p + |text|])
    ensures NumberEnd(s, p + k) == p + |text|
    decreases |text| - k
  {
    if k < |text| {
      AtIndex(s, p, text, k);
      NumberEndAt(s, p, text, k + 1);
    }
  }

  // ---------- strings ----------

  lemma {:induction false} EscapeCharReads(s: string, p: nat, c: char, out: string)
    requires At(s, p, EscapeChar(c)) && CleanChar(c)
    ensures StringOn(s, p, out) == StringOn(s, p + |EscapeChar(c)|, out + [c])
  {
    AtIndex(s, p, EscapeChar(c), 0);
    if |EscapeChar(c)| == 2 {
      AtIndex(s, p, EscapeChar(c), 1);
    }
  }

  lemma {:induction false} EscapeSplits(text: string)
    ensures text == "" ==> Escape(text) == "" && Escape(text) + "\"" == "\""
    ensures text != "" ==>
      && Escape(text) + "\"" == EscapeChar(text[0]) + (Escape(text[1..]) + "\"")
      && |Escape(text)| == |EscapeChar(text[0])| + |Escape(text[1..])|
  {
    hide EscapeChar;
  }

  /** An escaped string up to its quote is read back. */
  lemma {:induction false} StringAt(s: string, p: nat, text: string, out: string)
    requires At(s, p, Escape(text) + "\"") && CleanString(text)
    ensures StringOn(s, p, out) == Piece(out + text, p + |Escape(text)| + 1)
    decreases |text|
  {
    hide At, EscapeChar, Escape;
    EscapeSplits(text);
    if text == "" {
      AtIndex(s, p, "\"", 0);
      assert out + text == out;
    } else {
      AtTail(s, p, EscapeChar(text[0]), Escape(text[1..]) + "\"");
      EscapeCharReads(s, p, text[0], out);
      StringAt(s, p + |EscapeChar(text[0])|, text[1..], out + [text[0]]);
      assert out + [text[0]] + text[1..] == out + text;
    }
  }

  /** A key up to its quote is read back as it is. */
  lemma {:induction false} KeyAt(s: string, p: nat, key: string, out: string)
    requires At(s, p, key + "\"") && PlainKey(key)
    ensures StringOn(s, p, out) == Piece(out + key, p + |key| + 1)
    decreases |key|
  {
    AtIndex(s, p, key + "\"", 0);
    if key == "" {
      assert out + key == out;
    } else {
      AtFront(s, p, key, 1, "\"");
      KeyAt(s, p + 1, key[1..], out + [key[0]]);
      assert out + [key[0]] + key[1..] == out + key;
    }
  }

  // ---------- trees ----------

  predicate Ends(s: string, p: nat) {
    p < |s| ==> !IsNumberChar(s[p])
  }

  lemma {:induction false} ShowBegins(t: Tree)
    ensures Show(t) != "" && !IsWs(Show(t)[0]) && Show(t)[0] != ']' && Show(t)[0] != '}'
  {
    if t.TNumber? {
      IntTextReads(t.number);
    }
  }

  lemma {:induction false} NoWs(s: string, p: nat)
    requires p < |s| && !IsWs(s[p])
    ensures SkipWs(s, p) == p
  {
  }

  lemma {:induction false} WordIsAt(s: string, p: nat, word: string)
    requires At(s, p, word) && word != ""
    ensures WordAt(s, p, word) && p < |s| && s[p] == word[0]
  {
    AtIndex(s, p, word, 0);
  }

  lemma {:induction false} OtherWord(s: string, p: nat, word: string)
    requires p < |s| && word != "" && s[p] != word[0]
    ensures !WordAt(s, p, word)
  {
  }

  lemma {:induction false} AtomAt(s: string, p: nat, t: Tree)
    requires At(s, p, Show(t)) && (t.TNull? || t.TOpaque? || t.TBool?)
    ensures ParseValue(s, p) == Parsed(Meaning(t), p + |Show(t)|)
  {
    WordIsAt(s, p, Show(t));
    if t != TBool(true) {
      OtherWord(s, p, "true");
    }
    if !t.TBool? {
      OtherWord(s, p, "false");
    }
  }

  lemma {:induction false} NumberAt(s: string, p: nat, n: int)
    requires At(s, p, IntText(n)) && Ends(s, p + |IntText(n)|)
    ensures ParseValue(s, p) == Parsed(JNumber(n as real), p + |IntText(n)|)
  {
    hide IntText, NumberOf;
    IntTextReads(n);
    AtIndex(s, p, IntText(n), 0);
    NumberEndAt(s, p, IntText(n), 1);
    OtherWord(s, p, "true");
    OtherWord(s, p, "false");
    OtherWord(s, p, "null");
  }

  lemma {:induction false} QuotedAt(s: string, p: nat, text: string)
    requires At(s, p, ShowString(text)) && CleanString(text)
    ensures ParseString(s, p) == Piece(text, p + |ShowString(text)|) && p < |s| && s[p] == '"'
  {
    AtOne(s, p, '"', Escape(text) + "\"");
    StringAt(s, p + 1, text, "");
    assert "" + text == text;
  }

  /** The printed tree, in front of something that cannot continue a number, is read back. */
  lemma {:induction false} ValueAt(s: string, p: nat, t: Tree)
    requires At(s, p, Show(t)) && Clean(t) && Ends(s, p + |Show(t)|)
    ensures ParseValue(s, p) == Parsed(Meaning(t), p + |Show(t)|)
    decreases t, 1
  {
    hide ParseObject, ParseList, ParseString, IntText, ShowString, ShowItems, ShowMembers, At, CleanString;
    match t
    case TNull => AtomAt(s, p, t);
    case TOpaque => AtomAt(s, p, t);
    case TBool(_) => AtomAt(s, p, t);
    case TNumber(n) => NumberAt(s, p, n);
    case TString(text) => QuotedAt(s, p, text);
    case TList(items) =>
      AtOne(s, p, '[', ShowItems(items) + "]");
      ListAt(s, p + 1, items);
    case TObject(members) =>
      AtOne(s, p, '{', ShowMembers(members) + "}");
      ObjectAt(s, p + 1, members);
  }

  lemma {:induction false} ListAt(s: string, p: nat, items: seq<Tree>)
    requires At(s, p, ShowItems(items) + "]") && forall k :: 0 <= k < |items| ==> Clean(items[k])
    ensures ParseList(s, p) == Parsed(JList(Meanings(items)), p + |ShowItems(items)| + 1)
    decreases items, 1
  {
    hide Show, At, ParseItems;
    if items == [] {
      assert ShowItems(items) + "]" == "]";
      AtIndex(s, p, "]", 0);
    } else {
      FirstItem(items);
      AtIndex(s, p, ShowItems(items) + "]", 0);
      NoWs(s, p);
      ItemsAt(s, p, items, []);
      assert [] + Meanings(items) == Meanings(items);
    }
  }

  lemma {:induction false} FirstItem(items: seq<Tree>)
    requires items != []
    ensures ShowItems(items) != "" && !IsWs(ShowItems(items)[0]) && ShowItems(items)[0] != ']'
  {
    hide Show;
    ShowBegins(items[0]);
  }

  lemma {:induction false} ItemsStep(s: string, p: nat, found: seq<Json>, v: Parsed)
    requires p < |s| && ParseValue(s, p) == v && v.next < |s|
    ensures s[v.next] == ',' ==> ParseItems(s, p, found) == ParseItems(s, v.next + 1, found + [v.value])
    ensures s[v.next] == ']' ==> ParseItems(s, p, found) == Parsed(JList(found + [v.value]), v.next + 1)
  {
    hide ParseValue;
  }

  lemma {:induction false} ItemsAt(s: string, p: nat, items: seq<Tree>, found: seq<Json>)
    requires items != [] && At(s, p, ShowItems(items) + "]") && forall k :: 0 <= k < |items| ==> Clean(items[k])
    ensures ParseItems(s, p, found) == Parsed(JList(found + Meanings(items)), p + |ShowItems(items)| + 1)
    decreases items, 0
  {
    hide Show, At, ParseItems, ParseValue, Meaning;
    var first := Show(items[0]);
    ShowBegins(items[0]);
    if |items| == 1 {
      AtClosed(s, p, first, ']');
      ValueAt(s, p, items[0]);
      ItemsStep(s, p, found, Parsed(Meaning(items[0]), p + |first|));
      assert Meanings(items) == [Meaning(items[0])] by { assert Meanings(items[1..]) == []; }
    } else {
      assert ShowItems(items) + "]" == first + ("," + (ShowItems(items[1..]) + "]"));
      AtTail(s, p, first, "," + (ShowItems(items[1..]) + "]"));
      AtOne(s, p + |first|, ',', ShowItems(items[1..]) + "]");
      ValueAt(s, p, items[0]);
      ItemsStep(s, p, found, Parsed(Meaning(items[0]), p + |first|));
      ItemsAt(s, p + |first| + 1, items[1..], found + [Meaning(items[0])]);
      assert found + [Meaning(items[0])] + Meanings(items[1..]) == found + Meanings(items);
    }
  }

  lemma {:induction false} ObjectAt(s: string, p: nat, members: seq<Member>)
    requires At(s, p, ShowMembers(members) + "}")
    requires forall k :: 0 <= k < |members| ==> PlainKey(members[k].key) && Clean(members[k].value)
    ensures ParseObject(s, p) == Parsed(JObject(Collect(map[], members)), p + |ShowMembers(members)| + 1)
    decreases members, 1
  {
    hide Show, At, ParseMembers;
    if members == [] {
      assert ShowMembers(members) + "}" == "}";
      AtIndex(s, p, "}", 0);
    } else {
      FirstMember(members);
      AtIndex(s, p, ShowMembers(members) + "}", 0);
      NoWs(s, p);
      MembersAt(s, p, members, map[]);
    }
  }

  lemma {:induction false} FirstMember(members: seq<Member>)
    requires members != []
    ensures ShowMembers(members) != "" && ShowMembers(members)[0] == '"'
  {
  }

  lemma {:induction false} MembersStep(s: string, p: nat, found: map<string, Json>, key: Piece, v: Parsed)
    requires p < |s| && ParseKey(s, p) == key && ParseValue(s, key.next) == v && v.next < |s|
    ensures s[v.next] == ',' ==> ParseMembers(s, p, found) == ParseMembers(s, v.next + 1, found[key.text := v.value])
    ensures s[v.next] == '}' ==> ParseMembers(s, p, found) == Parsed(JObject(found[key.text := v.value]), v.next + 1)
  {
    hide ParseValue, ParseKey;
  }

  lemma {:induction false} MemberKeyAt(s: string, p: nat, m: Member)
    requires At(s, p, ShowMember(m)) && PlainKey(m.key)
    ensures p < |s| && ParseKey(s, p) == Piece(m.key, p + |m.key| + 3) && At(s, p + |m.key| + 3, Show(m.value))
    ensures |ShowMember(m)| == |m.key| + 3 + |Show(m.value)|
  {
    hide Show, At, StringOn;
    assert ShowMember(m) == "\"" + ((m.key + "\"") + (":" + Show(m.value)));
    AtOne(s, p, '"', (m.key + "\"") + (":" + Show(m.value)));
    AtTail(s, p + 1, m.key + "\"", ":" + Show(m.value));
    AtOne(s, p + |m.key| + 2, ':', Show(m.value));
    KeyAt(s, p + 1, m.key, "");
    assert "" + m.key == m.key;
  }

  lemma {:induction false} MembersAt(s: string, p: nat, members: seq<Member>, found: map<string, Json>)
    requires members != [] && At(s, p, ShowMembers(members) + "}")
    requires forall k :: 0 <= k < |members| ==> PlainKey(members[k].key) && Clean(members[k].value)
    ensures ParseMembers(s, p, found) == Parsed(JObject(Collect(found, members)), p + |ShowMembers(members)| + 1)
    decreases members, 0
  {
    hide Show, ShowMember, At, ParseMembers, ParseValue, ParseKey, Meaning;
    var m := members[0];
    var first := ShowMember(m);
    var v := Parsed(Meaning(m.value), p + |first|);
    var key := Piece(m.key, p + |m.key| + 3);
    if |members| == 1 {
      AtClosed(s, p, first, '}');
      MemberKeyAt(s, p, m);
      ValueAt(s, key.next, m.value);
      MembersStep(s, p, found, key, v);
      assert members[1..] == [];
    } else {
      assert ShowMembers(members) + "}" == first + ("," + (ShowMembers(members[1..]) + "}"));
      AtTail(s, p, first, "," + (ShowMembers(members[1..]) + "}"));
      AtOne(s, p + |first|, ',', ShowMembers(members[1..]) + "}");
      MemberKeyAt(s, p, m);
      ValueAt(s, key.next, m.value);
      MembersStep(s, p, found, key, v);
      MembersAt(s, p + |first| + 1, members[1..], found[m.key := v.value]);
    }
  }

  /**
   * Printing and parsing a tree of clean strings and plain keys, in front of any text that does not continue
   * a number, yields its meaning and stops exactly behind what was printed.
   */
  lemma {:induction false} RoundTrip(t: Tree, rest: string)
    requires Clean(t) && (rest != "" ==> !IsNumberChar(rest[0]))
    ensures ParseValue(Show(t) + rest, 0) == Parsed(Meaning(t), |Show(t)|)
  {
    hide Show, ParseValue;
    var s := Show(t) + rest;
    assert s[0..0 + |Show(t)|] == Show(t);
    ValueAt(s, 0, t);
  }

  // ---------- the order of members does not matter ----------

  ghost predicate Distinct(members: seq<Member>) {
    forall j, k :: 0 <= j < k < |members| ==> members[j].key != members[k].key
  }

  lemma {:induction false} CollectHolds(found: map<string, Json>, members: seq<Member>)
    requires Distinct(members)
    ensures var all := Collect(found, members);
      && (forall k :: 0 <= k < |members| ==> members[k].key in all && all[members[k].key] == Meaning(members[k].value))
      && (forall key :: (forall k :: 0 <= k < |members| ==> members[k].key != key) ==>
            (key in all <==> key in found) && (key in found ==> all[key] == found[key]))
    decreases |members|
  {
    hide Meaning;
    if members != [] {
      var rest := members[1..];
      assert forall k :: 0 <= k < |rest| ==> rest[k] == members[k + 1];
      CollectHolds(found[members[0].key := Meaning(members[0].value)], rest);
    }
  }

  /** Two objects with the same members, in whatever order they are printed, mean the same. */
  lemma {:induction false} OrderDoesNotMatter(a: seq<Member>, b: seq<Member>)
    requires Distinct(a) && Distinct(b) && forall m :: m in a <==> m in b
    ensures Meaning(TObject(a)) == Meaning(TObject(b))
  {
    hide Collect;
    CollectHolds(map[], a);
    CollectHolds(map[], b);
    var x, y := Collect(map[], a), Collect(map[], b);
    SubCollect(a, b);
    SubCollect(b, a);
    assert x == y;
  }

  lemma {:induction false} SubCollect(a: seq<Member>, b: seq<Member>)
    requires Distinct(a) && Distinct(b) && forall m :: m in a ==> m in b
    ensures var x, y := Collect(map[], a), Collect(map[], b); forall key :: key in x ==> key in y && y[key] == x[key]
  {
    hide Collect, Meaning;
    CollectHolds(map[], a);
    CollectHolds(map[], b);
    var x, y := Collect(map[], a), Collect(map[], b);
    forall key | key in x ensures key in y && y[key] == x[key] {
      var k :| 0 <= k < |a| && a[k].key == key;
      assert a[k] in b;
      var j :| 0 <= j < |b| && b[j] == a[k];
    }
  }

  // ---------- exactly when strings and keys survive ----------

  lemma {:induction false} EscapeIsPrintable(text: string)
    ensures forall k :: 0 <= k < |Escape(text)| ==> Escape(text)[k] >= ' '
  {
    if text != "" {
      EscapeIsPrintable(text[1..]);
    }
  }

  lemma {:induction false} OutIsClean(s: string, p: nat, out: string)
    requires p <= |s| + 1 && CleanString(out) && forall k :: 0 <= k < |s| ==> s[k] >= ' '
    ensures CleanString(StringOn(s, p, out).text)
    decreases |s| + 1 - p
  {
    if p < |s| && s[p] != '"' {
      if s[p] == '\\' && p + 1 < |s| {
        if s[p + 1] == 'u' {
          OutIsClean(s, if p + 5 < |s| then p + 7 else p + 2, out);
        } else {
          OutIsClean(s, p + 2, out + [Unescape(s[p + 1])]);
        }
      } else {
        OutIsClean(s, p + 1, out + [s[p]]);
      }
    }
  }

  /** A string survives exactly if its only control characters are the five with an escape of their own. */
  lemma {:induction false} StringSurvives(text: string)
    ensures ParseString(ShowString(text), 0) == Piece(text, |ShowString(text)|) <==> CleanString(text)
  {
    var s := ShowString(text);
    if CleanString(text) {
      assert s[0..0 + |s|] == s;
      QuotedAt(s, 0, text);
    } else {
      EscapeIsPrintable(text);
      OutIsClean(s, 1, "");
    }
  }

  /** A string body never yields more characters than it takes. */
  lemma {:induction false} TakesAtLeast(s: string, p: nat, out: string)
    requires p <= |s| + 1
    ensures var r := StringOn(s, p, out);
            r.next - p >= |r.text| - |out| && |out| <= |r.text| && r.text[..|out|] == out
    decreases |s| + 1 - p
  {
    if p < |s| && s[p] != '"' {
      if s[p] == '\\' && p + 1 < |s| {
        if s[p + 1] == 'u' {
          TakesAtLeast(s, if p + 5 < |s| then p + 7 else p + 2, out);
        } else {
          TakesAtLeast(s, p + 2, out + [Unescape(s[p + 1])]);
          assert (out + [Unescape(s[p + 1])])[..|out|] == out;
        }
      } else {
        TakesAtLeast(s, p + 1, out + [s[p]]);
        assert (out + [s[p]])[..|out|] == out;
      }
    }
  }

  lemma {:induction false} NoSurplus(s: string, p: nat, key: string, out: string)
    requires At(s, p, key + "\"")
    ensures var r := StringOn(s, p, out); r.next == p + |key| + 1 ==> |r.text| <= |out| + |key|
    decreases |key|
  {
    AtIndex(s, p, key + "\"", 0);
    if key != "" && s[p] != '"' {
      if s[p] == '\\' {
        AtIndex(s, p, key + "\"", 1);
        if s[p + 1] == 'u' {
          TakesAtLeast(s, if p + 5 < |s| then p + 7 else p + 2, out);
        } else {
          TakesAtLeast(s, p + 2, out + [Unescape(s[p + 1])]);
        }
      } else {
        AtFront(s, p, key, 1, "\"");
        NoSurplus(s, p + 1, key[1..], out + [s[p]]);
      }
    }
  }

  /** A backslash at the end of a key takes the closing quote for its escape. */
  lemma {:induction false} EscapedQuote(s: string, p: nat, out: string)
    requires At(s, p, "\\\"")
    ensures StringOn(s, p, out).text != out + "\\"
  {
    AtIndex(s, p, "\\\"", 0);
    AtIndex(s, p, "\\\"", 1);
    var r := StringOn(s, p, out);
    TakesAtLeast(s, p + 2, out + ['"']);
    assert r.text[..|out| + 1][|out|] == '"';
    assert (out + "\\")[|out|] == '\\';
  }

  lemma {:induction false} SurvivorIsPlain(s: string, p: nat, key: string, out: string)
    requires At(s, p, key + "\"") && StringOn(s, p, out) == Piece(out + key, p + |key| + 1)
    ensures PlainKey(key)
    decreases |key|
  {
    AtIndex(s, p, key + "\"", 0);
    if key != "" {
      if s[p] == '\\' {
        AtIndex(s, p, key + "\"", 1);
        if s[p + 1] == 'u' {
          TakesAtLeast(s, if p + 5 < |s| then p + 7 else p + 2, out);
        } else {
          var more := out + [Unescape(s[p + 1])];
          TakesAtLeast(s, p + 2, more);
          if |key| == 1 {
            EscapedQuote(s, p, out);
          } else {
            AtFront(s, p, key, 2, "\"");
            NoSurplus(s, p + 2, key[2..], more);
          }
        }
        assert false;
      } else {
        AtFront(s, p, key, 1, "\"");
        assert out + key == out + [key[0]] + key[1..];
        SurvivorIsPlain(s, p + 1, key[1..], out + [key[0]]);
      }
    }
  }

  /** A key, which is printed unescaped, survives exactly if it holds no quote and no backslash. */
  lemma {:induction false} KeySurvives(key: string, rest: string)
    ensures ParseString("\"" + (key + "\"") + rest, 0) == Piece(key, |key| + 2) <==> PlainKey(key)
  {
    var s := "\"" + (key + "\"") + rest;
    assert s[1..1 + |key| + 1] == key + "\"";
    assert "" + key == key;
    if PlainKey(key) {
      KeyAt(s, 1, key, "");
    } else if StringOn(s, 1, "") == Piece(key, |key| + 2) {
      SurvivorIsPlain(s, 1, key, "");
    }
  }

  // ---------- the cursor ----------

  /** The text ends in `\u` and exactly four characters. */
  predicate EndsInUnicodeEscape(s: string) {
    |s| >= 6 && s[|s| - 6] == '\\' && s[|s| - 5] == 'u'
  }

  lemma {:induction false} StringStaysInside(s: string, p: nat, out: string)
    requires p <= |s| && !EndsInUnicodeEscape(s)
    ensures StringOn(s, p, out).next <= |s|
    decreases |s| - p
  {
    if p < |s| && s[p] != '"' {
      if s[p] == '\\' && p + 1 < |s| {
        if s[p + 1] == 'u' {
          StringStaysInside(s, if p + 5 < |s| then p + 7 else p + 2, out);
        } else {
          StringStaysInside(s, p + 2, out + [Unescape(s[p + 1])]);
        }
      } else {
        StringStaysInside(s, p + 1, out + [s[p]]);
      }
    }
  }

  lemma {:induction false} WsStaysInside(s: string, p: nat)
    requires p <= |s|
    ensures SkipWs(s, p) <= |s|
    decreases |s| - p
  {
    if p < |s| && IsWs(s[p]) {
      WsStaysInside(s, p + 1);
    }
  }

  /** The cursor ends inside the text, unless the text ends in a `\u` escape. */
  lemma {:induction false} ValueStaysInside(s: string, p: nat)
    requires p <= |s| && !EndsInUnicodeEscape(s)
    ensures ParseValue(s, p).next <= |s|
    decreases |s| + 1 - p, 1
  {
    hide EndsInUnicodeEscape, ParseObject, ParseList, NumberOf;
    WsStaysInside(s, p);
    var q := SkipWs(s, p);
    if q < |s| {
      StringStaysInside(s, q + 1, "");
      if s[q] == '{' {
        ObjectStaysInside(s, q + 1);
      } else if s[q] == '[' {
        ListStaysInside(s, q + 1);
      }
    }
  }

  lemma {:induction false} ObjectStaysInside(s: string, p: nat)
    requires p <= |s| && !EndsInUnicodeEscape(s)
    ensures ParseObject(s, p).next <= |s|
    decreases |s| + 1 - p, 3
  {
    hide EndsInUnicodeEscape, ParseMembers;
    WsStaysInside(s, p);
    MembersStayInside(s, SkipWs(s, p), map[]);
  }

  lemma {:induction false} ListStaysInside(s: string, p: nat)
    requires p <= |s| && !EndsInUnicodeEscape(s)
    ensures ParseList(s, p).next <= |s|
    decreases |s| + 1 - p, 3
  {
    hide EndsInUnicodeEscape, ParseItems;
    WsStaysInside(s, p);
    ItemsStayInside(s, SkipWs(s, p), []);
  }

  lemma {:induction false} KeyStaysInside(s: string, p: nat)
    requires p <= |s| && !EndsInUnicodeEscape(s)
    ensures ParseKey(s, p).next <= |s|
  {
    hide EndsInUnicodeEscape, StringOn;
    WsStaysInside(s, p);
    var q := SkipWs(s, p);
    if q < |s| {
      StringStaysInside(s, q + 1, "");
    }
    WsStaysInside(s, ParseString(s, q).next);
  }

  lemma {:induction false} MembersStayInside(s: string, p: nat, found: map<string, Json>)
    requires p <= |s| && !EndsInUnicodeEscape(s)
    ensures ParseMembers(s, p, found).next <= |s|
    decreases |s| + 1 - p, 2
  {
    hide EndsInUnicodeEscape, ParseKey, ParseValue;
    if p < |s| {
      var key := ParseKey(s, p);
      KeyStaysInside(s, p);
      var v := ParseValue(s, key.next);
      ValueStaysInside(s, key.next);
      WsStaysInside(s, v.next);
      var q := SkipWs(s, v.next);
      if q < |s| && s[q] == ',' {
        MembersStayInside(s, q + 1, found[key.text := v.value]);
      }
    }
  }

  lemma {:induction false} ItemsStayInside(s: string, p: nat, found: seq<Json>)
    requires p <= |s| && !EndsInUnicodeEscape(s)
    ensures ParseItems(s, p, found).next <= |s|
    decreases |s| + 1 - p, 2
  {
    hide EndsInUnicodeEscape, ParseValue;
    if p < |s| {
      var v := ParseValue(s, p);
      ValueStaysInside(s, p);
      WsStaysInside(s, v.next);
      var q := SkipWs(s, v.next);
      if q < |s| && s[q] == ',' {
        ItemsStayInside(s, q + 1, found + [v.value]);
      }
    }
  }

  /** Reading a string body from `p` on comes by `q`, before its quote. */
  predicate ComesBy(s: string, p: nat, q: nat)
    requires p <= |s| + 1
    decreases |s| + 1 - p
  {
    p == q || (p < q && p < |s| && s[p] != '"' &&
      if s[p] == '\\' && p + 1 < |s| then ComesBy(s, if s[p + 1] == 'u' && p + 5 < |s| then p + 7 else p + 2, q)
      else ComesBy(s, p + 1, q))
  }

  lemma {:induction false} BodyRunsOver(s: string, p: nat, out: string)
    requires p <= |s|
    ensures StringOn(s, p, out).next == |s| + 1 <==> EndsInUnicodeEscape(s) && ComesBy(s, p, |s| - 6)
    decreases |s| - p
  {
    if p < |s| && s[p] != '"' {
      if s[p] == '\\' && p + 1 < |s| {
        if s[p + 1] == 'u' {
          if p + 6 != |s| {
            BodyRunsOver(s, if p + 5 < |s| then p + 7 else p + 2, out);
          }
        } else {
          BodyRunsOver(s, p + 2, out + [Unescape(s[p + 1])]);
        }
      } else {
        BodyRunsOver(s, p + 1, out + [s[p]]);
      }
    }
  }

  /** A string leads behind the end exactly if it is still open at a `\u` with exactly four characters behind it. */
  lemma {:induction false} StringRunsOver(s: string, p: nat)
    requires p < |s| && s[p] == '"'
    ensures ParseValue(s, p).next == |s| + 1 <==> EndsInUnicodeEscape(s) && ComesBy(s, p + 1, |s| - 6)
  {
    BodyRunsOver(s, p + 1, "");
  }

  /** The bound of one behind the end is reached: an open string that ends in a `\u` escape. */
  lemma {:induction false} OneBehindTheEnd(hex: string)
    requires |hex| == 4
    ensures var s := "\"\\u" + hex; ParseValue(s, 0) == Parsed(JString(""), |s| + 1)
  {
    var s := "\"\\u" + hex;
    assert s[0] == '"' && s[1] == '\\' && s[2] == 'u';
    assert StringOn(s, 8, "") == Piece("", 8);
    assert StringOn(s, 1, "") == StringOn(s, 8, "");
  }
}
