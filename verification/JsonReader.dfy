/** The JSON printer as append loops and the JSON parser as an object with a cursor. */
module JsonReader {
  import opened Json

  // ---------- printing ----------

  method StringifyString(s: string) returns (out: string)
    ensures out == ShowString(s)
  {
    hide EscapeChar;
    out := "\"";
    for i := 0 to |s|
      invariant out + (Escape(s[i..]) + "\"") == ShowString(s)
    {
      assert s[i..][1..] == s[i + 1..];
      assert out + (Escape(s[i..]) + "\"") == out + EscapeChar(s[i]) + (Escape(s[i + 1..]) + "\"");
      out := out + EscapeChar(s[i]);
    }
    out := out + "\"";
  }

  method Stringify(t: Tree) returns (out: string)
    ensures out == Show(t)
    decreases t, 1
  {
    match t {
      case TNull => out := "null";
      case TOpaque => out := "null";
      case TBool(b) => out := if b then "true" else "false";
      case TNumber(n) => out := IntText(n);
      case TString(s) => out := StringifyString(s);
      case TList(items) => out := StringifyList(items);
      case TObject(members) => out := StringifyObject(members);
    }
  }

  /** What is still missing behind the first `i` items. */
  function ItemsLeft(items: seq<Tree>, i: nat): string
    requires i <= |items|
  {
    if 0 < i < |items| then "," + ShowItems(items[i..]) else ShowItems(items[i..])
  }

  lemma {:induction false} NextItem(items: seq<Tree>, i: nat, out: string)
    requires i < |items|
    ensures var sep := if i > 0 then out + "," else out;
            out + ItemsLeft(items, i) == sep + Show(items[i]) + ItemsLeft(items, i + 1)
  {
    hide Show;
    var rest := items[i..];
    assert rest[0] == items[i] && rest[1..] == items[i + 1..];
    assert ShowItems(rest) == Show(items[i]) + ItemsLeft(items, i + 1);
  }

  lemma {:induction false} NoItemsLeft(items: seq<Tree>)
    ensures ItemsLeft(items, |items|) == "" && ItemsLeft(items, 0) == ShowItems(items)
  {
    assert items[|items|..] == [] && items[0..] == items;
  }

  method StringifyList(items: seq<Tree>) returns (out: string)
    ensures out == Show(TList(items))
    decreases items, 0
  {
    hide ItemsLeft, ShowItems;
    out := "[";
    NoItemsLeft(items);
    for i := 0 to |items|
      invariant out + ItemsLeft(items, i) == "[" + ShowItems(items)
    {
      NextItem(items, i, out);
      var text := Stringify(items[i]);
      if i > 0 {
        out := out + ",";
      }
      out := out + text;
    }
    assert out == "[" + ShowItems(items);
    out := out + "]";
  }

  function MembersLeft(members: seq<Member>, i: nat): string
    requires i <= |members|
  {
    if 0 < i < |members| then "," + ShowMembers(members[i..]) else ShowMembers(members[i..])
  }

  lemma {:induction false} NextMember(members: seq<Member>, i: nat, out: string)
    requires i < |members|
    ensures var sep := if i > 0 then out + "," else out;
            out + MembersLeft(members, i) == sep + ShowMember(members[i]) + MembersLeft(members, i + 1)
  {
    hide ShowMember;
    var rest := members[i..];
    assert rest[0] == members[i] && rest[1..] == members[i + 1..];
    assert ShowMembers(rest) == ShowMember(members[i]) + MembersLeft(members, i + 1);
  }

  lemma {:induction false} NoMembersLeft(members: seq<Member>)
    ensures MembersLeft(members, |members|) == "" && MembersLeft(members, 0) == ShowMembers(members)
  {
    assert members[|members|..] == [] && members[0..] == members;
  }

  method StringifyMember(m: Member) returns (out: string)
    ensures out == ShowMember(m)
    decreases m, 0
  {
    var value := Stringify(m.value);
    out := "\"" + m.key + "\":" + value;
  }

  method StringifyObject(members: seq<Member>) returns (out: string)
    ensures out == Show(TObject(members))
    decreases members, 0
  {
    hide MembersLeft, ShowMembers, ShowMember;
    out := "{";
    NoMembersLeft(members);
    for i := 0 to |members|
      invariant out + MembersLeft(members, i) == "{" + ShowMembers(members)
    {
      NextMember(members, i, out);
      var text := StringifyMember(members[i]);
      if i > 0 {
        out := out + ",";
      }
      out := out + text;
    }
    assert out == "{" + ShowMembers(members);
    out := out + "}";
  }

  // ---------- parsing ----------

  class Reader {
    const text: string
    var pos: nat

    /** The cursor may stand one behind the end. */
    ghost predicate Valid()
      reads this
    {
      pos <= |text| + 1
    }

    constructor (text: string)
      ensures Valid() && this.text == text && pos == 0
    {
      this.text := text;
      pos := 0;
    }

    predicate Sees(c: char)
      requires Valid()
      reads this
    {
      pos < |text| && text[pos] == c
    }

    method SkipSpace()
      requires Valid()
      modifies this`pos
      ensures Valid() && pos == SkipWs(text, old(pos))
    {
      while pos < |text| && IsWs(text[pos])
        invariant Valid() && SkipWs(text, pos) == SkipWs(text, old(pos))
        decreases |text| - pos
      {
        pos := pos + 1;
      }
    }

    method ReadString() returns (out: string)
      requires Valid()
      modifies this`pos
      ensures Valid() && Piece(out, pos) == ParseString(text, old(pos))
    {
      out := "";
      if !Sees('"') {
        return;
      }
      pos := pos + 1;
      while pos < |text| && text[pos] != '"'
        invariant Valid() && StringOn(text, pos, out) == ParseString(text, old(pos))
        decreases |text| + 1 - pos
      {
        if text[pos] == '\\' && pos + 1 < |text| {
          if text[pos + 1] == 'u' {
            if pos + 5 < |text| {
              pos := pos + 5;
            }
          } else {
            out := out + [Unescape(text[pos + 1])];
          }
          pos := pos + 2;
        } else {
          out := out + [text[pos]];
          pos := pos + 1;
        }
      }
      if pos < |text| {
        pos := pos + 1;
      }
    }

    method ReadNumber() returns (v: Json)
      requires Valid() && pos < |text|
      modifies this`pos
      ensures Valid() && pos == NumberEnd(text, old(pos) + 1) && v == NumberOf(text[old(pos)..pos])
    {
      var start := pos;
      pos := pos + 1;
      while pos < |text| && IsNumberChar(text[pos])
        invariant start < pos <= |text| && NumberEnd(text, pos) == NumberEnd(text, old(pos) + 1)
        decreases |text| - pos
      {
        pos := pos + 1;
      }
      v := NumberOf(text[start..pos]);
    }

    method ReadValue() returns (v: Json)
      requires Valid()
      modifies this`pos
      ensures Valid() && Parsed(v, pos) == ParseValue(text, old(pos))
      decreases |text| + 1 - pos, 1
    {
      SkipSpace();
      if pos >= |text| {
        return JNull;
      }
      var c := text[pos];
      if c == '"' {
        var s := ReadString();
        return JString(s);
      }
      if c == '{' {
        pos := pos + 1;
        v := ReadObject();
        return;
      }
      if c == '[' {
        pos := pos + 1;
        v := ReadList();
        return;
      }
      if WordAt(text, pos, "true") {
        pos := pos + 4;
        return JBool(true);
      }
      if WordAt(text, pos, "false") {
        pos := pos + 5;
        return JBool(false);
      }
      if WordAt(text, pos, "null") {
        pos := pos + 4;
        return JNull;
      }
      if c == '-' || '0' <= c <= '9' {
        v := ReadNumber();
        return;
      }
      v := JNull;
    }

    /** A key and the colon behind it, if there is one. */
    method ReadKey() returns (key: string)
      requires Valid()
      modifies this`pos
      ensures Valid() && Piece(key, pos) == ParseKey(text, old(pos))
    {
      SkipSpace();
      key := ReadString();
      SkipSpace();
      if Sees(':') {
        pos := pos + 1;
      }
    }

    method ReadObject() returns (v: Json)
      requires Valid() && pos <= |text|
      modifies this`pos
      ensures Valid() && Parsed(v, pos) == ParseObject(text, old(pos))
      decreases |text| + 1 - pos, 3
    {
      hide ParseValue, ParseKey, SkipWs;
      SkipSpace();
      var found := map[];
      if Sees('}') {
        pos := pos + 1;
        return JObject(found);
      }
      ghost var start := pos;
      while pos < |text|
        invariant Valid() && old(pos) <= start <= pos
        invariant ParseMembers(text, pos, found) == ParseMembers(text, start, map[])
        decreases |text| + 1 - pos
      {
        var key := ReadKey();
        var value := ReadValue();
        found := found[key := value];
        SkipSpace();
        if Sees(',') {
          pos := pos + 1;
          continue;
        }
        if Sees('}') {
          pos := pos + 1;
        }
        return JObject(found);
      }
      v := JObject(found);
    }

    method ReadList() returns (v: Json)
      requires Valid() && pos <= |text|
      modifies this`pos
      ensures Valid() && Parsed(v, pos) == ParseList(text, old(pos))
      decreases |text| + 1 - pos, 3
    {
      hide ParseValue, SkipWs;
      SkipSpace();
      var found := [];
      if Sees(']') {
        pos := pos + 1;
        return JList(found);
      }
      ghost var start := pos;
      while pos < |text|
        invariant Valid() && old(pos) <= start <= pos
        invariant ParseItems(text, pos, found) == ParseItems(text, start, [])
        decreases |text| + 1 - pos
      {
        var value := ReadValue();
        found := found + [value];
        SkipSpace();
        if Sees(',') {
          pos := pos + 1;
          continue;
        }
        if Sees(']') {
          pos := pos + 1;
        }
        return JList(found);
      }
      v := JList(found);
    }
  }
}
