/**
 * How the relay reads a message without parsing it: it looks for a key in quotes and copies what stands
 * behind it. Texts are C strings, so their end is the end of what can be read.
 */
module Envelope {
  import opened Options
  import D = Decimals
  import opened Text

  /** No character that would end a C string. */
  predicate IsCString(s: string) { forall k :: 0 <= k < |s| ==> s[k] != '\0' }

  // ---------- values copied as text ----------

  predicate IsSeparator(c: char) { c == ' ' || c == ':' || c == '\t' }

  function SkipSeparators(s: string, p: nat): (q: nat)
    requires p <= |s|
    ensures p <= q <= |s|
    ensures q < |s| ==> !IsSeparator(s[q])
    decreases |s| - p
  {
    if p < |s| && IsSeparator(s[p]) then SkipSeparators(s, p + 1) else p
  }

  /** Where the value of the first occurrence of the key begins. */
  function ValueStart(s: string, key: string): Option<nat> {
    var search := "\"" + key + "\"";
    var p := Find(s, search, 0);
    if p == |s| then None else Some(SkipSeparators(s, p + |search|))
  }

  /** One or two characters further: a backslash takes the next character along, if there is room. */
  predicate Escapes(s: string, p: nat, i: nat, max: nat)
    requires p < |s|
  {
    s[p] == '\\' && p + 1 < |s| && i + 2 < max
  }

  /** A string behind its first quote. It ends at any quote, even at an escaped one. */
  function CopyString(s: string, p: nat, out: string, max: nat): string
    requires p <= |s|
    decreases |s| - p
  {
    if p == |s| || |out| + 1 >= max then out
    else
      var q := if Escapes(s, p, |out|, max) then p + 1 else p;
      var more := out + s[p..q + 1];
      if s[q] == '"' then more else CopyString(s, q + 1, more, max)
  }

  datatype Copied = Copied(out: string, next: nat)

  /** A string inside an object or a list, up to its closing quote. */
  function CopyQuoted(s: string, p: nat, out: string, max: nat): (r: Copied)
    requires p <= |s|
    ensures p <= r.next <= |s|
    decreases |s| - p
  {
    if p == |s| || s[p] == '"' || |out| + 1 >= max then Copied(out, p)
    else
      var q := if Escapes(s, p, |out|, max) then p + 1 else p;
      CopyQuoted(s, q + 1, out + s[p..q + 1], max)
  }

  /** Objects and lists: one kind of bracket is counted outside strings, until the count is back at zero. */
  function CopyGroup(s: string, p: nat, open: char, close: char, depth: int, out: string, max: nat): string
    requires p <= |s|
    decreases |s| - p
  {
    if p == |s| || |out| + 1 >= max then out
    else if s[p] == '"' then
      var body := CopyQuoted(s, p + 1, out + [s[p]], max);
      if body.next < |s| && |body.out| + 1 < max
      then CopyGroup(s, body.next + 1, open, close, depth, body.out + [s[body.next]], max)
      else CopyGroup(s, body.next, open, close, depth, body.out, max)
    else
      var level := if s[p] == open then depth + 1 else if s[p] == close then depth - 1 else depth;
      if level == 0 then out + [s[p]] else CopyGroup(s, p + 1, open, close, level, out + [s[p]], max)
  }

  predicate EndsScalar(c: char) {
    c == ',' || c == '}' || c == ']' || c == ' ' || c == '\n' || c == '\r'
  }

  function CopyScalar(s: string, p: nat, out: string, max: nat): string
    requires p <= |s|
    decreases |s| - p
  {
    if p == |s| || EndsScalar(s[p]) || |out| + 1 >= max then out else CopyScalar(s, p + 1, out + [s[p]], max)
  }

  function CloseOf(open: char): char { if open == '{' then '}' else ']' }

  /** The text of the value that begins here, cut to the size of the buffer. */
  function CopyValue(s: string, p: nat, max: nat): string
    requires p <= |s| && max >= 2
  {
    if p < |s| && s[p] == '"' then CopyString(s, p + 1, [s[p]], max)
    else if p < |s| && (s[p] == '{' || s[p] == '[') then CopyGroup(s, p, s[p], CloseOf(s[p]), 0, "", max)
    else CopyScalar(s, p, "", max)
  }

  /** Nothing where the key does not occur. */
  function ExtractValue(s: string, key: string, max: nat): Option<string>
    requires max >= 2
  {
    match ValueStart(s, key)
    case None => None
    case Some(p) => Some(CopyValue(s, p, max))
  }

  // ---------- integers ----------

  const INT_BUF := 64

  /** A quoted number without its escapes. */
  function CopyPlain(s: string, p: nat, out: string): string
    requires p <= |s|
    decreases |s| - p
  {
    if p == |s| || s[p] == '"' || |out| + 1 >= INT_BUF then out
    else
      var q := if s[p] == '\\' && p + 1 < |s| then p + 1 else p;
      CopyPlain(s, q + 1, out + [s[q]])
  }

  function CopyDigits(s: string, p: nat, out: string): string
    requires p <= |s|
    decreases |s| - p
  {
    if p == |s| || !D.IsDigit(s[p]) || |out| + 1 >= INT_BUF then out else CopyDigits(s, p + 1, out + [s[p]])
  }

  predicate IsSpace(c: char) { c == ' ' || '\t' <= c <= '\r' }

  /** `atoi`: white space, a sign, digits; 0 if there are none. */
  function Atoi(t: string): int {
    if t != "" && IsSpace(t[0]) then Atoi(t[1..])
    else if t != "" && t[0] == '-' then -(D.NatOf(t[1..D.DigitsEnd(t, 1)]) as int)
    else if t != "" && t[0] == '+' then D.NatOf(t[1..D.DigitsEnd(t, 1)])
    else D.NatOf(t[..D.DigitsEnd(t, 0)])
  }

  function GetInt(s: string, key: string): int {
    match ValueStart(s, key)
    case None => 0
    case Some(p) =>
      if p < |s| && s[p] == '"' then Atoi(CopyPlain(s, p + 1, ""))
      else if p < |s| && s[p] == '-' then Atoi(CopyDigits(s, p + 1, "-"))
      else if p < |s| && D.IsDigit(s[p]) then Atoi(CopyDigits(s, p, ""))
      else 0
  }

  // ---------- forwarding ----------

  const TYPE_BUF := 64
  const DATA_BUF := 65536

  /** The type without its quotes, `message` where it is missing, empty or not a string. */
  function TypeOf(body: string): string {
    match ExtractValue(body, "type", TYPE_BUF)
    case None => "message"
    case Some(t) =>
      if |t| > 2 && t[0] == '"' && t[|t| - 1] == '"' then t[1..|t| - 1] else "message"
  }

  /** The data as text, `null` where there is none. */
  function DataOf(body: string): string {
    match ExtractValue(body, "data", DATA_BUF)
    case None => "null"
    case Some(t) => if t == "" then "null" else t
  }

  datatype Forwarded = Forwarded(to: int, kind: string, from: int, data: string)

  /** What a posted message is taken apart into; nothing without a recipient. */
  function Forward(body: string): Option<Forwarded> {
    if GetInt(body, "to") <= 0 then None
    else Some(Forwarded(GetInt(body, "to"), TypeOf(body), GetInt(body, "from"), DataOf(body)))
  }
}
