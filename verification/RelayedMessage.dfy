/** From the sender's object to the receiver's: what is posted as JSON arrives as JSON with the same data. */
module RelayedMessage {
  import opened Options
  import J = Json
  import R = JsonRoundTrip
  import opened Envelope
  import opened Extraction
  import opened EnvelopeRoundTrip
  import WebSocket
  import Text

  /** The text the relay composes for the receiver. */
  function MessageText(f: Forwarded): string {
    "{\"type\":\"" + (f.kind + ("\",\"from\":" + (J.IntText(if f.from > 0 then f.from else 0)
      + (",\"fromName\":\"\",\"data\":" + (f.data + "}")))))
  }

  const MSG_BUF := 65536

  /** What fits the buffer the message is composed in, with the zero behind it. */
  function Composed(text: string): string {
    if |text| < MSG_BUF then text else text[..MSG_BUF - 1]
  }

  function Posted(to: int, from: int, kind: string, data: J.Tree): J.Tree {
    J.TObject([J.Member("to", J.TNumber(to)), J.Member("from", J.TNumber(from)),
               J.Member("type", J.TString(kind)), J.Member("data", data)])
  }

  function Relayed(from: int, kind: string, data: J.Tree): J.Tree {
    J.TObject([J.Member("type", J.TString(kind)), J.Member("from", J.TNumber(from)),
               J.Member("fromName", J.TString("")), J.Member("data", data)])
  }

  /** A type without quotes, backslashes and control characters. */
  predicate IsPlainKind(kind: string) {
    IsKind(kind) && forall k :: 0 <= k < |kind| ==> kind[k] >= ' '
  }

  lemma {:induction false} PlainIsUnescaped(text: string)
    requires forall k :: 0 <= k < |text| ==> text[k] >= ' ' && text[k] != '"' && text[k] != '\\'
    ensures J.Escape(text) == text && R.CleanString(text)
  {
    if text != "" {
      PlainIsUnescaped(text[1..]);
      assert J.EscapeChar(text[0]) == [text[0]];
      assert [text[0]] + text[1..] == text;
    }
  }

  lemma {:induction false} FourMembers(a: J.Member, b: J.Member, c: J.Member, d: J.Member)
    ensures J.Show(J.TObject([a, b, c, d])) ==
      "{" + (J.ShowMember(a) + ("," + (J.ShowMember(b) + ("," + (J.ShowMember(c) + ("," + J.ShowMember(d)))))) + "}")
  {
    hide J.ShowMember;
    assert [a, b, c, d][1..] == [b, c, d] && [b, c, d][1..] == [c, d] && [c, d][1..] == [d];
    assert J.ShowMembers([c, d]) == J.ShowMember(c) + ("," + J.ShowMember(d));
    assert J.ShowMembers([b, c, d]) == J.ShowMember(b) + ("," + J.ShowMembers([c, d]));
  }

  /** A member in front of more members, with the key apart from its value. */
  lemma {:induction false} MemberThenMore(key: string, v: string, more: string)
    ensures ("\"" + (key + ("\":" + v))) + ("," + more) == "\"" + (key + ("\"" + (":" + v + "," + more)))
  {
  }

  lemma {:induction false} KindThenMore(kind: string, more: string)
    ensures ("\"" + ("type" + ("\":" + ("\"" + (kind + "\""))))) + ("," + more)
         == "\"" + ("type" + ("\"" + (":" + ("\"" + (kind + ("\"" + ("," + more)))))))
  {
  }

  lemma {:induction false} LastMember(key: string, v: string)
    ensures "\"" + (key + ("\":" + v)) + "}" == "\"" + (key + ("\"" + (":" + v + "}")))
  {
  }

  lemma {:induction false} CloseInside(a: string, b: string, c: string, d: string)
    ensures a + ("," + (b + ("," + (c + ("," + d))))) + "}" == a + ("," + (b + ("," + (c + ("," + (d + "}"))))))
  {
  }

  /** The concatenations alone: four members between braces, key by key. */
  lemma {:induction false} Assembled(t: string, f: string, kind: string, d: string)
    ensures var first, second := "\"" + ("to" + ("\":" + t)), "\"" + ("from" + ("\":" + f));
      var third, fourth := "\"" + ("type" + ("\":" + ("\"" + (kind + "\"")))), "\"" + ("data" + ("\":" + d));
      "{" + (first + ("," + (second + ("," + (third + ("," + fourth))))) + "}") ==
        Words("{", "to", Words(":" + t + ",", "from", Words(":" + f + ",", "type",
          Words(":", kind, Words(",", "data", ":" + d + "}")))))
  {
    var first, second := "\"" + ("to" + ("\":" + t)), "\"" + ("from" + ("\":" + f));
    var third, fourth := "\"" + ("type" + ("\":" + ("\"" + (kind + "\"")))), "\"" + ("data" + ("\":" + d));
    CloseInside(first, second, third, fourth);
    LastMember("data", d);
    var last := "\"" + ("data" + ("\"" + (":" + d + "}")));
    KindThenMore(kind, last);
    var more := "\"" + ("type" + ("\"" + (":" + ("\"" + (kind + ("\"" + ("," + last)))))));
    MemberThenMore("from", f, more);
    MemberThenMore("to", t, "\"" + ("from" + ("\"" + (":" + f + "," + more))));
  }

  /** The posted object printed as JSON is the envelope. */
  lemma {:induction false} PostedText(to: int, from: int, kind: string, data: J.Tree)
    requires IsId(to) && IsId(from) && IsPlainKind(kind)
    ensures J.Show(Posted(to, from, kind, data)) == EnvelopeText(to, from, kind, J.Show(data))
  {
    PlainIsUnescaped(kind);
    hide J.NatText, J.Escape, Words;
    FourMembers(J.Member("to", J.TNumber(to)), J.Member("from", J.TNumber(from)),
                J.Member("type", J.TString(kind)), J.Member("data", data));
    Assembled(J.NatText(to), J.NatText(from), kind, J.Show(data));
  }

  lemma {:induction false} TypeOpens(x: string)
    ensures "{\"type\":\"" + x == "{" + ("\"" + ("type" + ("\":" + ("\"" + x))))
  {
  }

  lemma {:induction false} FromFollows(x: string)
    ensures "\",\"from\":" + x == "\"" + ("," + ("\"" + ("from" + ("\":" + x))))
  {
  }

  lemma {:induction false} DataFollows(x: string)
    ensures ",\"fromName\":\"\",\"data\":" + x ==
      "," + (("\"" + ("fromName" + ("\":" + ("\"" + ("" + "\""))))) + ("," + ("\"" + ("data" + ("\":" + x)))))
  {
    var name := "\"" + ("fromName" + ("\":" + ("\"" + ("" + "\""))));
    var data := "\"" + ("data" + ("\":" + x));
    assert name == "\"fromName\":\"\"";
    assert data == "\"data\":" + x;
    assert ",\"fromName\":\"\",\"data\":" == "," + "\"fromName\":\"\"" + "," + "\"data\":";
    assert "," + (name + ("," + data)) == "," + name + "," + data;
  }

  lemma {:induction false} KeyThen(key: string, v: string, x: string)
    ensures "\"" + (key + ("\":" + (v + x))) == ("\"" + (key + ("\":" + v))) + x
  {
  }

  lemma {:induction false} KindThen(kind: string, x: string)
    ensures "\"" + ("type" + ("\":" + ("\"" + (kind + ("\"" + x)))))
         == ("\"" + ("type" + ("\":" + ("\"" + (kind + "\""))))) + x
  {
  }

  lemma {:induction false} MessageAssembled(kind: string, f: string, d: string)
    ensures var first, second := "\"" + ("type" + ("\":" + ("\"" + (kind + "\"")))), "\"" + ("from" + ("\":" + f));
      var third, fourth := "\"" + ("fromName" + ("\":" + ("\"" + ("" + "\"")))), "\"" + ("data" + ("\":" + d));
      "{\"type\":\"" + (kind + ("\",\"from\":" + (f + (",\"fromName\":\"\",\"data\":" + (d + "}"))))) ==
        "{" + (first + ("," + (second + ("," + (third + ("," + fourth))))) + "}")
  {
    var first, second := "\"" + ("type" + ("\":" + ("\"" + (kind + "\"")))), "\"" + ("from" + ("\":" + f));
    var third, fourth := "\"" + ("fromName" + ("\":" + ("\"" + ("" + "\"")))), "\"" + ("data" + ("\":" + d));
    var data := ",\"fromName\":\"\",\"data\":" + (d + "}");
    TypeOpens(kind + ("\",\"from\":" + (f + data)));
    FromFollows(f + data);
    DataFollows(d + "}");
    KeyThen("data", d, "}");
    KeyThen("from", f, data);
    KindThen(kind, "," + (second + data));
    CloseInside(first, second, third, fourth);
  }

  /** The composed text is the relayed object printed as JSON. */
  lemma {:induction false} RelayedText(to: int, from: int, kind: string, data: J.Tree)
    requires IsId(from) && IsPlainKind(kind)
    ensures MessageText(Forwarded(to, kind, from, J.Show(data))) == J.Show(Relayed(from, kind, data))
  {
    PlainIsUnescaped(kind);
    PlainIsUnescaped("");
    hide J.IntText, J.Escape;
    FourMembers(J.Member("type", J.TString(kind)), J.Member("from", J.TNumber(from)),
                J.Member("fromName", J.TString("")), J.Member("data", data));
    MessageAssembled(kind, J.IntText(from), J.Show(data));
  }

  lemma {:induction false} RelayedIsClean(from: int, kind: string, data: J.Tree)
    requires IsPlainKind(kind) && R.Clean(data)
    ensures R.Clean(Relayed(from, kind, data))
  {
    PlainIsUnescaped(kind);
    var members := Relayed(from, kind, data).members;
    forall k | 0 <= k < |members| ensures R.PlainKey(members[k].key) && R.Clean(members[k].value) {
      assert members[k].key in {"type", "from", "fromName", "data"};
    }
  }

  /** Whether the relay hands on all of the data: not if the type is taken for its key, nor a string with a quote. */
  predicate Survives(kind: string, data: J.Tree) {
    if kind == "data" then J.Show(data) == "null" else !(data.TString? && '"' in data.text)
  }

  /** The message up to its data. */
  function Front(f: Forwarded): string {
    "{\"type\":\"" + (f.kind + ("\",\"from\":" + (J.IntText(if f.from > 0 then f.from else 0)
      + ",\"fromName\":\"\",\"data\":")))
  }

  lemma {:induction false} MessageInParts(f: Forwarded)
    ensures MessageText(f) == Front(f) + (f.data + "}")
  {
    hide J.IntText;
  }

  lemma {:induction false} OtherDataOtherMessage(f: Forwarded, data: string)
    ensures MessageText(f) == MessageText(f.(data := data)) ==> f.data == data
  {
    hide J.IntText;
    var front := Front(f);
    MessageInParts(f);
    MessageInParts(f.(data := data));
    if MessageText(f) == MessageText(f.(data := data)) {
      assert (front + (f.data + "}"))[|front|..] == f.data + "}" && (front + (data + "}"))[|front|..] == data + "}";
      assert (f.data + "}")[..|f.data|] == f.data && (data + "}")[..|data|] == data;
    }
  }

  /**
   * A posted object with any clean data is composed for the receiver as the JSON text of the same type, sender and
   * data exactly if the type is not spelled `data` and the data is no string with a quote, provided that its frame
   * can be sent. Parsing the text then gives them back. A longer text, cut to the buffer it is composed in or not,
   * overruns the buffer it is sent from.
   */
  lemma {:induction false} RelayKeepsTheMessage(to: int, from: int, kind: string, data: J.Tree)
    requires IsId(to) && IsId(from) && IsPlainKind(kind)
    requires R.Clean(data) && PlainKeys(data) && |J.Show(data)| < DATA_BUF
    ensures var r := Forward(J.Show(Posted(to, from, kind, data)));
      && r.Some? && r.value.to == to
      && var (m, whole) := (Composed(MessageText(r.value)), J.Show(Relayed(from, kind, data)));
         && (WebSocket.CanSend(|m|) ==> (m == whole <==> Survives(kind, data)))
         && (Survives(kind, data) ==> (WebSocket.CanSend(|m|) <==> WebSocket.CanSend(|whole|)))
         && J.ParseValue(whole, 0) == J.Parsed(R.Meaning(Relayed(from, kind, data)), |whole|)
  {
    hide J.Show, Forward, MessageText, R.Clean, IsPayload, Arriving, IsCut, EnvelopeText, IsPlainKind;
    PlainKindIsKind(kind);
    PostedText(to, from, kind, data);
    PrintedIsPayload(data);
    EnvelopeReads(to, from, kind, J.Show(data));
    PrintedIsCut(data);
    RelayedText(to, from, kind, data);
    RelayedIsClean(from, kind, data);
    R.RoundTrip(Relayed(from, kind, data), "");
    var whole := J.Show(Relayed(from, kind, data));
    assert whole + "" == whole;
    var f := Forward(J.Show(Posted(to, from, kind, data))).value;
    OtherDataOtherMessage(f, J.Show(data));
    assert f.(data := J.Show(data)) == Forwarded(to, kind, from, J.Show(data));
  }

  lemma {:induction false} PlainKindIsKind(kind: string)
    requires IsPlainKind(kind)
    ensures IsKind(kind)
  {
  }

  // ---------- messages between sockets ----------

  /** The first opening brace at `p` or behind it, the length of the text if there is none. */
  function BraceAt(s: string, p: nat): nat
    requires p <= |s|
    decreases |s| - p
  {
    if p < |s| && s[p] != '{' then BraceAt(s, p + 1) else p
  }

  /** The sender's number and name, put in front of what the sender wrote behind the first brace. */
  function Tagged(user: int, name: string, rest: string): string {
    "{\"from\":" + (J.IntText(user) + (",\"fromName\":\"" + (name + ("\"," + rest))))
  }

  function ChatText(user: int, name: string, payload: string): string {
    var b := BraceAt(payload, 0);
    Composed(Tagged(user, name, if b + 1 < |payload| then payload[b + 1..] else "\"data\":" + payload + "}"))
  }

  function Sender(user: int, name: string): seq<J.Member> {
    [J.Member("from", J.TNumber(user)), J.Member("fromName", J.TString(name))]
  }

  lemma {:induction false} SenderText(user: int, name: string)
    ensures J.ShowMember(Sender(user, name)[0]) == "\"" + ("from" + ("\":" + J.IntText(user)))
    ensures J.ShowMember(Sender(user, name)[1]) == "\"" + ("fromName" + ("\":" + ("\"" + (J.Escape(name) + "\""))))
  {
    hide J.IntText, J.Escape;
  }

  lemma {:induction false} TaggedText(user: int, name: string, members: seq<J.Member>)
    requires members != []
    ensures Tagged(user, J.Escape(name), J.ShowMembers(members) + "}") == J.Show(J.TObject(Sender(user, name) + members))
  {
    hide J.IntText, J.Escape, J.ShowMember;
    var (a, b) := (Sender(user, name)[0], Sender(user, name)[1]);
    var more := [b] + members;
    SenderText(user, name);
    assert Sender(user, name) + members == [a] + more;
    assert ([a] + more)[1..] == more && more[1..] == members;
    assert J.ShowMembers(more) == J.ShowMember(b) + ("," + J.ShowMembers(members));
    assert J.ShowMembers([a] + more) == J.ShowMember(a) + ("," + J.ShowMembers(more));
    TaggedAssembled(J.IntText(user), J.Escape(name), J.ShowMembers(members));
  }

  lemma {:induction false} TaggedAssembled(n: string, name: string, more: string)
    ensures var first, second := "\"" + ("from" + ("\":" + n)), "\"" + ("fromName" + ("\":" + ("\"" + (name + "\""))));
      "{\"from\":" + (n + (",\"fromName\":\"" + (name + ("\"," + (more + "}"))))) ==
        "{" + ((first + ("," + (second + ("," + more)))) + "}")
  {
    var first, second := "\"" + ("from" + ("\":" + n)), "\"" + ("fromName" + ("\":" + ("\"" + (name + "\""))));
    assert "{" + (first + ",") == "{\"from\":" + n + ",";
    assert second + "," == "\"fromName\":\"" + name + "\",";
    assert "{" + ((first + ("," + (second + ("," + more)))) + "}") == ("{" + (first + ",")) + (second + ",") + (more + "}");
  }

  lemma {:induction false} SenderCollected(user: int, name: string, members: seq<J.Member>)
    ensures R.Collect(map[], Sender(user, name) + members) ==
            R.Collect(map["from" := J.JNumber(user as real), "fromName" := J.JString(name)], members)
  {
    var all := Sender(user, name) + members;
    var first: map<string, J.Json> := map["from" := J.JNumber(user as real)];
    assert R.Collect(map[], all) == R.Collect(first, all[1..]);
    assert R.Collect(first, all[1..]) == R.Collect(first["fromName" := J.JString(name)], all[1..][1..]);
    assert all[1..][1..] == members;
  }

  lemma {:induction false} ChatIsWhole(user: int, name: string, members: seq<J.Member>)
    requires members != [] && IsPlainName(name)
    ensures ChatText(user, name, J.Show(J.TObject(members))) == Composed(J.Show(J.TObject(Sender(user, name) + members)))
  {
    hide J.IntText, J.Escape, J.ShowMembers;
    PlainIsUnescaped(name);
    TaggedText(user, name, members);
    assert J.Show(J.TObject(members))[1..] == J.ShowMembers(members) + "}";
  }

  /** A name without quotes, backslashes and control characters, which is written unescaped. */
  predicate IsPlainName(name: string) {
    forall k :: 0 <= k < |name| ==> name[k] >= ' ' && name[k] != '"' && name[k] != '\\'
  }

  /** Only what needs no escapes is as long as its escaped text. */
  lemma {:induction false} EscapesAddLength(name: string)
    ensures |J.Escape(name)| >= |name| && (|J.Escape(name)| == |name| <==> IsPlainName(name))
  {
    if name != "" {
      EscapesAddLength(name[1..]);
    }
  }

  lemma {:induction false} ChatIsNotWhole(user: int, name: string, members: seq<J.Member>)
    requires members != [] && !IsPlainName(name)
    ensures |ChatText(user, name, J.Show(J.TObject(members)))| < |J.Show(J.TObject(Sender(user, name) + members))|
  {
    hide J.IntText, J.Escape, J.ShowMembers, IsPlainName;
    EscapesAddLength(name);
    TaggedText(user, name, members);
    var rest := J.ShowMembers(members) + "}";
    assert J.Show(J.TObject(members))[1..] == rest;
    TaggedLength(user, name, rest);
    TaggedLength(user, J.Escape(name), rest);
  }

  /**
   * A message an object is written in, whose frame can be sent, reaches its receiver as the same object with the
   * sender in front exactly if the name of the sender needs no escapes. For such a name the frame can be sent
   * exactly if that of the whole object can, and the receiver reads the number of the sender exactly if the object
   * itself says nothing else about it.
   */
  lemma {:induction false} ChatKeepsTheMessage(user: int, name: string, members: seq<J.Member>)
    requires members != [] && R.Distinct(members) && R.Clean(J.TObject(members)) && PlainKeys(J.TObject(members))
    ensures var (m, whole) := (ChatText(user, name, J.Show(J.TObject(members))), J.Show(J.TObject(Sender(user, name) + members)));
      && (WebSocket.CanSend(|m|) ==> (m == whole <==> IsPlainName(name)))
      && (IsPlainName(name) ==> (WebSocket.CanSend(|m|) <==> WebSocket.CanSend(|whole|)))
      && (IsPlainName(name) && WebSocket.CanSend(|m|) ==> SaysTheSame(m, user, members))
  {
    hide SaysTheSame, J.Show, IsPlainName;
    if IsPlainName(name) {
      ChatIsWhole(user, name, members);
      WholeSaysTheSame(user, name, members);
    } else {
      ChatIsNotWhole(user, name, members);
    }
  }

  /** The text is an object with all the members, and with the number of the sender unless a member says otherwise. */
  ghost predicate SaysTheSame(m: string, user: int, members: seq<J.Member>) {
    var r := J.ParseValue(m, 0);
    && r.next == |m| && r.value.JObject?
    && (forall k :: 0 <= k < |members| ==>
          members[k].key in r.value.members && r.value.members[members[k].key] == R.Meaning(members[k].value))
    && "from" in r.value.members
    && (r.value.members["from"] == J.JNumber(user as real) <==>
          forall k :: 0 <= k < |members| && members[k].key == "from" ==> R.Meaning(members[k].value) == J.JNumber(user as real))
  }

  lemma {:induction false} WholeSaysTheSame(user: int, name: string, members: seq<J.Member>)
    requires members != [] && R.Distinct(members) && R.Clean(J.TObject(members)) && IsPlainName(name)
    ensures SaysTheSame(J.Show(J.TObject(Sender(user, name) + members)), user, members)
  {
    hide J.IntText, J.Escape, J.ShowMembers;
    PlainIsUnescaped(name);
    var whole := J.TObject(Sender(user, name) + members);
    var text := J.Show(whole);
    forall k | 0 <= k < |whole.members| ensures R.PlainKey(whole.members[k].key) && R.Clean(whole.members[k].value) {
      if k >= 2 {
        assert whole.members[k] == members[k - 2];
      }
    }
    R.RoundTrip(whole, "");
    assert text + "" == text;
    var found := map["from" := J.JNumber(user as real), "fromName" := J.JString(name)];
    SenderCollected(user, name, members);
    R.CollectHolds(found, members);
  }

  // ---------- a message that cannot be sent ----------

  /** `{"to":1,"text":"xx..x"}` */
  function LongChat(n: nat): seq<J.Member> {
    [J.Member("to", J.TNumber(1)), J.Member("text", J.TString(seq(n, _ => 'x')))]
  }

  lemma {:induction false} LongChatLength(n: nat)
    ensures |J.Show(J.TObject(LongChat(n)))| == n + 18
    ensures J.Show(J.TObject(LongChat(n)))[..8] == "{\"to\":1,"
  {
    var (a, b) := (LongChat(n)[0], LongChat(n)[1]);
    PlainIsUnescaped(b.value.text);
    hide J.Escape;
    assert J.NatText(1) == "1";
    assert J.ShowMember(a) == "\"to\":1";
    assert |J.ShowMember(b)| == n + 9;
    assert LongChat(n)[1..] == [b];
    assert J.ShowMembers(LongChat(n)) == J.ShowMember(a) + ("," + J.ShowMember(b));
  }

  /**
   * Any client can receive such an object in its buffer and pass it on: with a text of the right length the frame
   * is larger than the buffer it is put together in.
   */
  lemma {:induction false} ChatCanOverrun(user: int, name: string) returns (n: nat)
    requires IsId(user) && IsPlainName(name) && |name| < 128
    ensures var payload := J.Show(J.TObject(LongChat(n)));
      && |payload| < WebSocket.WS_BUF_SIZE
      && GetInt(payload, "to") == 1
      && !WebSocket.CanSend(|ChatText(user, name, payload)|)
  {
    var base := |Tagged(user, name, "")|;
    IdText(user);
    TaggedLength(user, name, "");
    n := 65517 - base;
    LongChatLength(n);
    var payload := J.Show(J.TObject(LongChat(n)));
    ChatIsWhole(user, name, LongChat(n));
    TaggedLength(user, name, payload[1..]);
    OneRecipient(n);
  }

  lemma {:induction false} TaggedLength(user: int, name: string, rest: string)
    ensures |Tagged(user, name, rest)| == 23 + |J.IntText(user)| + |name| + |rest|
  {
    hide J.IntText;
  }

  lemma {:induction false} OneRecipient(n: nat)
    ensures GetInt(J.Show(J.TObject(LongChat(n))), "to") == 1
  {
    hide Text.Find, GetInt, J.NatText;
    var s := J.Show(J.TObject(LongChat(n)));
    LongChatLength(n);
    assert J.NatText(1) == "1" by { OneIsOne(); }
    var rest := ":" + ("1" + s[7..]);
    assert s[0..] == s == s[..7] + s[7..] && s[..7] == s[..8][..7] && s[7] == s[..8][7];
    assert s == Words("{", "to", rest);
    HitWord(s, 0, "{", "to", rest);
    IntReads(s, "to", 1, 1, "{", s[7..]);
  }

  lemma {:induction false} OneIsOne()
    ensures J.NatText(1) == "1"
  {
  }
}
