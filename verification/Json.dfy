/** JSON text: what the printer writes and what the parser reads, as functions of the text and a cursor. */
module Json {
  import opened Options
  import D = Decimals

  /** What the printer is given. Members are in the order in which they are printed. */
  datatype Tree =
    | TNull
    | TOpaque
    | TBool(truth: bool)
    | TNumber(number: int)
    | TString(text: string)
    | TList(items: seq<Tree>)
    | TObject(members: seq<Member>)

  datatype Member = Member(key: string, value: Tree)

  /** What the parser returns. */
  datatype Json =
    | JNull
    | JBool(truth: bool)
    | JNumber(number: real)
    | JString(text: string)
    | JList(items: seq<Json>)
    | JObject(members: map<string, Json>)

  // ---------- printing ----------

  function DigitChar(d: nat): char
    requires d < 10
  {
    '0' + d as char
  }

  function NatText(n: nat): string {
    if n < 10 then [DigitChar(n)] else NatText(n / 10) + [DigitChar(n % 10)]
  }

  function IntText(n: int): string {
    if n < 0 then "-" + NatText(-n) else NatText(n)
  }

  const BACKSPACE := 8 as char
  const FORM_FEED := 12 as char

  function HexDigit(d: nat): char
    requires d < 16
  {
    if d < 10 then '0' + d as char else 'a' + (d - 10) as char
  }

  function EscapeChar(c: char): string {
    if c == '"' then "\\\""
    else if c == '\\' then "\\\\"
    else if c == '\n' then "\\n"
    else if c == '\r' then "\\r"
    else if c == '\t' then "\\t"
    else if c == BACKSPACE then "\\b"
    else if c == FORM_FEED then "\\f"
    else if c < ' ' then "\\u00" + [HexDigit(c as nat / 16), HexDigit(c as nat % 16)]
    else [c]
  }

  function Escape(s: string): string {
    if s == "" then "" else EscapeChar(s[0]) + Escape(s[1..])
  }

  function ShowString(s: string): string { "\"" + (Escape(s) + "\"") }

  function Show(t: Tree): string
    decreases t, 1
  {
    match t
    case TNull => "null"
    case TOpaque => "null"
    case TBool(b) => if b then "true" else "false"
    case TNumber(n) => IntText(n)
    case TString(s) => ShowString(s)
    case TList(items) => "[" + (ShowItems(items) + "]")
    case TObject(members) => "{" + (ShowMembers(members) + "}")
  }

  function ShowItems(items: seq<Tree>): string
    decreases items
  {
    if items == [] then ""
    else if |items| == 1 then Show(items[0])
    else Show(items[0]) + ("," + ShowItems(items[1..]))
  }

  /** Keys are written as they are. */
  function ShowMembers(members: seq<Member>): string
    decreases members, 1
  {
    if members == [] then ""
    else if |members| == 1 then ShowMember(members[0])
    else ShowMember(members[0]) + ("," + ShowMembers(members[1..]))
  }

  function ShowMember(m: Member): string
    decreases m
  {
    "\"" + (m.key + ("\":" + Show(m.value)))
  }

  // ---------- parsing ----------

  datatype Piece = Piece(text: string, next: nat)

  datatype Parsed = Parsed(value: Json, next: nat)

  predicate IsWs(c: char) { c == ' ' || c == '\t' || c == '\n' || c == '\r' }

  function SkipWs(s: string, p: nat): (q: nat)
    requires p <= |s| + 1
    ensures p <= q <= |s| + 1
    ensures q < |s| ==> !IsWs(s[q])
    decreases |s| + 1 - p
  {
    if p < |s| && IsWs(s[p]) then SkipWs(s, p + 1) else p
  }

  function Unescape(c: char): char {
    if c == 'n' then '\n'
    else if c == 'r' then '\r'
    else if c == 't' then '\t'
    else if c == 'b' then BACKSPACE
    else if c == 'f' then FORM_FEED
    else c
  }

  /**
   * The rest of a string body behind `out`. A `\u` escape is dropped together with the character behind it,
   * which can move the cursor one behind the end of the text.
   */
  function StringOn(s: string, p: nat, out: string): (r: Piece)
    requires p <= |s| + 1
    ensures p <= r.next <= |s| + 1
    ensures p < |s| ==> p < r.next
    decreases |s| + 1 - p
  {
    if p < |s| && s[p] != '"' then
      if s[p] == '\\' && p + 1 < |s| then
        if s[p + 1] == 'u' then StringOn(s, if p + 5 < |s| then p + 7 else p + 2, out)
        else StringOn(s, p + 2, out + [Unescape(s[p + 1])])
      else StringOn(s, p + 1, out + [s[p]])
    else Piece(out, if p < |s| then p + 1 else p)
  }

  /** A string, or nothing where no quote stands. */
  function ParseString(s: string, p: nat): (r: Piece)
    requires p <= |s| + 1
    ensures p <= r.next <= |s| + 1
  {
    if p < |s| && s[p] == '"' then StringOn(s, p + 1, "") else Piece("", p)
  }

  predicate IsNumberChar(c: char) {
    '0' <= c <= '9' || c == '.' || c == 'e' || c == 'E' || c == '+' || c == '-'
  }

  function NumberEnd(s: string, p: nat): (q: nat)
    requires p <= |s|
    ensures p <= q <= |s|
    ensures forall k :: p <= k < q ==> IsNumberChar(s[k])
    ensures q < |s| ==> !IsNumberChar(s[q])
    decreases |s| - p
  {
    if p < |s| && IsNumberChar(s[p]) then NumberEnd(s, p + 1) else p
  }

  function NumberOf(text: string): Json {
    match D.Stod(text)
    case Some(r) => JNumber(r)
    case None => JNull
  }

  predicate WordAt(s: string, p: nat, word: string) {
    p + |word| <= |s| && s[p..p + |word|] == word
  }

  /** A value behind white space; `null` without moving where none begins. */
  function ParseValue(s: string, p: nat): (r: Parsed)
    requires p <= |s| + 1
    ensures p <= r.next <= |s| + 1
    decreases |s| + 1 - p, 1
  {
    var q := SkipWs(s, p);
    if q >= |s| then Parsed(JNull, q)
    else
      var c := s[q];
      if c == '"' then var str := ParseString(s, q); Parsed(JString(str.text), str.next)
      else if c == '{' then ParseObject(s, q + 1)
      else if c == '[' then ParseList(s, q + 1)
      else if WordAt(s, q, "true") then Parsed(JBool(true), q + 4)
      else if WordAt(s, q, "false") then Parsed(JBool(false), q + 5)
      else if WordAt(s, q, "null") then Parsed(JNull, q + 4)
      else if c == '-' || '0' <= c <= '9' then
        var end := NumberEnd(s, q + 1); Parsed(NumberOf(s[q..end]), end)
      else Parsed(JNull, q)
  }

  function ParseObject(s: string, p: nat): (r: Parsed)
    requires p <= |s|
    ensures p <= r.next <= |s| + 1
    decreases |s| + 1 - p, 3
  {
    var q := SkipWs(s, p);
    if q < |s| && s[q] == '}' then Parsed(JObject(map[]), q + 1) else ParseMembers(s, q, map[])
  }

  function ParseList(s: string, p: nat): (r: Parsed)
    requires p <= |s|
    ensures p <= r.next <= |s| + 1
    decreases |s| + 1 - p, 3
  {
    var q := SkipWs(s, p);
    if q < |s| && s[q] == ']' then Parsed(JList([]), q + 1) else ParseItems(s, q, [])
  }

  /** Where the value of a member begins, and its key. */
  function ParseKey(s: string, p: nat): (r: Piece)
    requires p <= |s| + 1
    ensures p <= r.next <= |s| + 1
  {
    var key := ParseString(s, SkipWs(s, p));
    var q := SkipWs(s, key.next);
    Piece(key.text, if q < |s| && s[q] == ':' then q + 1 else q)
  }

  function ParseMembers(s: string, p: nat, found: map<string, Json>): (r: Parsed)
    requires p <= |s| + 1
    ensures p <= r.next <= |s| + 1
    decreases |s| + 1 - p, 2
  {
    if p >= |s| then Parsed(JObject(found), p)
    else
      var key := ParseKey(s, p);
      var v := ParseValue(s, key.next);
      var all := found[key.text := v.value];
      var q := SkipWs(s, v.next);
      if q < |s| && s[q] == ',' then ParseMembers(s, q + 1, all)
      else Parsed(JObject(all), if q < |s| && s[q] == '}' then q + 1 else q)
  }

  function ParseItems(s: string, p: nat, found: seq<Json>): (r: Parsed)
    requires p <= |s| + 1
    ensures p <= r.next <= |s| + 1
    decreases |s| + 1 - p, 2
  {
    if p >= |s| then Parsed(JList(found), p)
    else
      var v := ParseValue(s, p);
      var all := found + [v.value];
      var q := SkipWs(s, v.next);
      if q < |s| && s[q] == ',' then ParseItems(s, q + 1, all)
      else Parsed(JList(all), if q < |s| && s[q] == ']' then q + 1 else q)
  }
}
