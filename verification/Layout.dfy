/**
 * Every way of writing a token list down: each token in any of its spellings, any mix of blanks and
 * comments behind it, as long as neighbours do not run together. The lexer gets the token list back.
 */
module Layout {
  import opened Decimals
  import opened Options
  import opened Tokens
  import opened Scanning
  import opened Slices

  // ---------- blanks and comments ----------

  datatype Trivium = Blank(c: char) | LineComment(body: string) | BlockComment(body: string)

  function Spelling(t: Trivium): string {
    match t
    case Blank(c) => [c]
    case LineComment(body) => "//" + body + "\n"
    case BlockComment(body) => "/*" + body + "*/"
  }

  ghost predicate ClosesAt(s: string, k: nat) {
    k + 1 < |s| && s[k] == '*' && s[k + 1] == '/'
  }

  /** A comment must not contain its own end. */
  ghost predicate OkTrivium(t: Trivium) {
    match t
    case Blank(c) => IsSpace(c)
    case LineComment(body) => forall k :: 0 <= k < |body| ==> body[k] != '\n'
    case BlockComment(body) => forall k: nat :: k < |body| ==> !ClosesAt(body + "*/", k)
  }

  function Gap(ts: seq<Trivium>): string {
    if ts == [] then "" else Spelling(ts[0]) + Gap(ts[1..])
  }

  ghost predicate OkGap(ts: seq<Trivium>) {
    forall k :: 0 <= k < |ts| ==> OkTrivium(ts[k])
  }

  // ---------- spellings of a token ----------

  /** The value of a string body, if no quote ends it early and no escape is left open. */
  function DecodeBody(body: string, quote: char): Option<string> {
    if body == "" then Some("")
    else if body[0] == quote then None
    else if body[0] == '\\' then
      if |body| == 1 then None
      else match DecodeBody(body[2..], quote)
        case None => None
        case Some(v) => Some([Unescape(body[1])] + v)
    else match DecodeBody(body[1..], quote)
      case None => None
      case Some(v) => Some([body[0]] + v)
  }

  ghost predicate IsQuoted(text: string, value: string) {
    && |text| >= 2
    && (text[0] == '"' || text[0] == '\'')
    && text[|text| - 1] == text[0]
    && DecodeBody(text[1..|text| - 1], text[0]) == Some(value)
  }

  /** Digits, possibly with one point between digits. */
  ghost predicate IsNumberLexeme(s: string) {
    && s != ""
    && IsDigit(s[0]) && IsDigit(s[|s| - 1])
    && (forall k :: 0 <= k < |s| ==> IsDigit(s[k]) || s[k] == '.')
    && (forall j, k :: 0 <= j < k < |s| ==> s[j] != '.' || s[k] != '.')
  }

  function OperatorType(text: string): TokenType {
    if |text| == 1 then CharToTokenType(text[0])
    else if |text| == 2 then TwoCharType(text)
    else if |text| == 3 then ThreeCharType(text)
    else UnrecognizedT
  }

  /** `text` is one of the ways to write the token. */
  ghost predicate Renders(text: string, t: Token) {
    if t.kind.StringT? then IsQuoted(text, t.value)
    else if t.kind.NumberT? then text == t.value && IsNumberLexeme(text)
    else if t.kind.DeclaratorT? then text == t.value == "$"
    else
      && !t.kind.UnrecognizedT?
      && text == t.value
      && if IsWord(text) then KeywordToTokenType(text) == t.kind else OperatorType(text) == t.kind
  }

  /** The character `c` behind the spelling `text` does not lengthen the token. */
  ghost predicate StopsBefore(text: string, kind: TokenType, c: char) {
    if kind.StringT? || kind.DeclaratorT? then true
    else if kind.NumberT? then !IsDigit(c) && c != '.'
    else
      if IsWord(text) then !IsWordChar(c)
      else if |text| == 1 then TwoCharType(text + [c]) == UnrecognizedT && !(text == "/" && (c == '/' || c == '*'))
      else if |text| == 2 then ThreeCharType(text + [c]) == UnrecognizedT
      else true
  }

  ghost predicate Stops(text: string, kind: TokenType, rest: string) {
    rest == "" || StopsBefore(text, kind, rest[0])
  }

  // ---------- layouts ----------

  /** A token, the spelling chosen for it, and what stands between it and the next one. */
  datatype Written = Written(token: Token, text: string, gap: seq<Trivium>)

  function Weave(ws: seq<Written>): string {
    if ws == [] then "" else ws[0].text + (Gap(ws[0].gap) + Weave(ws[1..]))
  }

  ghost predicate Fits(ws: seq<Written>) {
    ws != [] ==>
      && Renders(ws[0].text, ws[0].token)
      && OkGap(ws[0].gap)
      && Stops(ws[0].text, ws[0].token.kind, Gap(ws[0].gap) + Weave(ws[1..]))
      && Fits(ws[1..])
  }

  function TokensOf(ws: seq<Written>): seq<Token> {
    seq(|ws|, k requires 0 <= k < |ws| => ws[k].token)
  }

  function LexedTokens(ls: seq<Lexeme>): seq<Token> {
    seq(|ls|, k requires 0 <= k < |ls| => ls[k].token)
  }

  // ---------- the lexer skips trivia ----------

  /** One turn of the main loop at a character that is not white space. */
  lemma {:induction false} OneTurn(src: string, p: nat, found: Scan, s: Step)
    requires p < |src| && !IsSpace(src[p]) && s == StepAt(src, p)
    ensures LexOn(src, p, found) == LexOn(src, s.next, After(found, s))
  {
    hide StepAt;
    assert SkipSpace(src, p) == p;
  }

  lemma {:induction false} SkipBlank(src: string, p: nat, found: Scan)
    requires p < |src| && IsSpace(src[p])
    ensures LexOn(src, p, found) == LexOn(src, p + 1, found)
  {
    hide StepAt;
    assert SkipSpace(src, p) == SkipSpace(src, p + 1);
  }

  lemma {:induction false} LineCommentEndAt(src: string, p: nat, end: nat)
    requires p <= end < |src| && src[end] == '\n'
    requires forall k :: p <= k < end ==> src[k] != '\n'
    ensures LineCommentEnd(src, p) == end
    decreases end - p
  {
    if p < end {
      LineCommentEndAt(src, p + 1, end);
    }
  }

  lemma {:induction false} BlockCommentEndAt(src: string, p: nat, end: nat)
    requires p <= end && ClosesAt(src, end)
    requires forall k: nat :: p <= k < end ==> !ClosesAt(src, k)
    ensures BlockCommentEnd(src, p) == (end + 2, false)
    decreases end - p
  {
    if p < end {
      assert !ClosesAt(src, p);
      BlockCommentEndAt(src, p + 1, end);
    }
  }

  lemma {:induction false} SkipLineCommentAt(src: string, p: nat, body: string, found: Scan)
    requires OkTrivium(LineComment(body)) && At(src, p, "//" + body + "\n")
    ensures LexOn(src, p, found) == LexOn(src, p + |body| + 3, found)
  {
    hide LexOn, OperatorAt, KeywordToTokenType;
    var text := "//" + body + "\n";
    forall k | 0 <= k < |text| ensures src[p + k] == text[k] { AtIndex(src, p, text, k); }
    var end := p + 2 + |body|;
    assert text[2 + |body|] == '\n';
    forall k | p <= k < end ensures src[k] != '\n' {
      assert src[k] == text[k - p];
    }
    LineCommentEndAt(src, p, end);
    assert StepAt(src, p) == Skip(end, false);
    OneTurn(src, p, found, Skip(end, false));
    SkipBlank(src, end, found);
  }

  lemma {:induction false} SkipBlockCommentAt(src: string, p: nat, body: string, found: Scan)
    requires OkTrivium(BlockComment(body)) && At(src, p, "/*" + body + "*/")
    ensures LexOn(src, p, found) == LexOn(src, p + |body| + 4, found)
  {
    hide LexOn, OperatorAt, KeywordToTokenType;
    var text := "/*" + body + "*/";
    forall k | 0 <= k < |text| ensures src[p + k] == text[k] { AtIndex(src, p, text, k); }
    assert src[p] == text[0] && src[p + 1] == text[1];
    var end := p + 2 + |body|;
    assert src[end] == text[2 + |body|] && src[end + 1] == text[3 + |body|];
    assert text[2 + |body|] == '*' && text[3 + |body|] == '/';
    forall k: nat | p + 2 <= k < end ensures !ClosesAt(src, k) {
      var j := k - p - 2;
      assert !ClosesAt(body + "*/", j);
      assert (body + "*/")[j] == text[j + 2] == src[k];
      assert (body + "*/")[j + 1] == text[j + 3] == src[k + 1];
    }
    BlockCommentEndAt(src, p + 2, end);
    assert StepAt(src, p) == Skip(end + 2, false);
    OneTurn(src, p, found, Skip(end + 2, false));
  }

  lemma {:induction false} SkipTrivium(src: string, p: nat, t: Trivium, found: Scan)
    requires OkTrivium(t) && At(src, p, Spelling(t))
    ensures LexOn(src, p, found) == LexOn(src, p + |Spelling(t)|, found)
  {
    hide LexOn;
    match t {
      case Blank(c) => AtIndex(src, p, [c], 0); SkipBlank(src, p, found);
      case LineComment(body) => SkipLineCommentAt(src, p, body, found);
      case BlockComment(body) => SkipBlockCommentAt(src, p, body, found);
    }
  }

  /** Blanks and comments leave what has been found as it is. */
  lemma {:induction false} SkipGap(src: string, p: nat, g: seq<Trivium>, found: Scan)
    requires OkGap(g) && At(src, p, Gap(g))
    ensures LexOn(src, p, found) == LexOn(src, p + |Gap(g)|, found)
    decreases |g|
  {
    hide LexOn, At, OkTrivium, Spelling;
    if g != [] {
      assert forall k :: 0 <= k < |g[1..]| ==> g[1..][k] == g[k + 1];
      AtTail(src, p, Spelling(g[0]), Gap(g[1..]));
      SkipTrivium(src, p, g[0], found);
      SkipGap(src, p + |Spelling(g[0])|, g[1..], found);
    }
  }

  // ---------- the lexer reads every spelling of a token ----------

  lemma {:induction false} ReadStringAt(src: string, p: nat, body: string, quote: char, value: string)
    requires quote != '\\'
    requires DecodeBody(body, quote).Some? && At(src, p, body + [quote])
    ensures ReadString(src, p, quote, value) == Piece(value + DecodeBody(body, quote).value, p + |body| + 1)
    decreases |body|
  {
    AtIndex(src, p, body + [quote], 0);
    if body == "" {
      assert value + "" == value;
    } else {
      AtIndex(src, p, body + [quote], 1);
      hide At;
      var (k, c) := if body[0] == '\\' then (2, Unescape(body[1])) else (1, body[0]);
      AtFront(src, p, body, k, [quote]);
      ReadStringAt(src, p + k, body[k..], quote, value + [c]);
      var rest := DecodeBody(body[k..], quote).value;
      assert value + [c] + rest == value + ([c] + rest);
    }
  }

  lemma {:induction false} NumberEndAt(src: string, p: nat, k: nat, s: string)
    requires IsNumberLexeme(s) && At(src, p, s) && k <= |s|
    requires p + |s| < |src| ==> !IsDigit(src[p + |s|]) && src[p + |s|] != '.'
    ensures NumberEnd(src, p + k, exists j :: 0 <= j < k && s[j] == '.') == p + |s|
    decreases |s| - k
  {
    var seen := exists j :: 0 <= j < k && s[j] == '.';
    if k < |s| {
      AtIndex(src, p, s, k);
      if s[k] == '.' {
        assert k + 1 < |s|;
        AtIndex(src, p, s, k + 1);
      }
      assert ExtendsNumber(src, p + k, seen);
      NumberEndAt(src, p, k + 1, s);
      assert (seen || s[k] == '.') == exists j :: 0 <= j < k + 1 && s[j] == '.';
    }
  }

  lemma {:induction false} WordEndAt(src: string, p: nat, k: nat, s: string)
    requires At(src, p, s) && k <= |s| && forall j :: 0 <= j < |s| ==> IsWordChar(s[j])
    requires p + |s| < |src| ==> !IsWordChar(src[p + |s|])
    ensures WordEnd(src, p + k) == p + |s|
    decreases |s| - k
  {
    if k < |s| {
      AtIndex(src, p, s, k);
      WordEndAt(src, p, k + 1, s);
    }
  }

  /** At `p` stands the spelling of a token, and what follows does not lengthen it. */
  ghost predicate Stands(src: string, p: nat, t: Token, text: string) {
    && Renders(text, t)
    && At(src, p, text)
    && Stops(text, t.kind, src[p + |text|..])
  }

  lemma {:induction false} StepWord(src: string, p: nat, t: Token, text: string)
    requires Stands(src, p, t, text) && IsWord(text) && !t.kind.StringT? && !t.kind.NumberT? && !t.kind.DeclaratorT?
    ensures p < |src| && !IsSpace(src[p])
    ensures StepAt(src, p) == Emit(Lexeme(t, p), p + |text|)
  {
    hide KeywordToTokenType, OperatorAt, OperatorType, IsQuoted, IsNumberLexeme, ReadString, NumberEnd;
    AtIndex(src, p, text, 0);
    if p + |text| < |src| {
      assert src[p + |text|..][0] == src[p + |text|];
    }
    WordEndAt(src, p, 0, text);
  }

  lemma {:induction false} StepNumber(src: string, p: nat, t: Token, text: string)
    requires Stands(src, p, t, text) && t.kind.NumberT?
    ensures p < |src| && !IsSpace(src[p])
    ensures StepAt(src, p) == Emit(Lexeme(t, p), p + |text|)
  {
    hide KeywordToTokenType, OperatorAt, OperatorType, IsQuoted, ReadString, WordEnd;
    AtIndex(src, p, text, 0);
    if p + |text| < |src| {
      assert src[p + |text|..][0] == src[p + |text|];
    }
    NumberEndAt(src, p, 0, text);
  }

  lemma {:induction false} StepString(src: string, p: nat, t: Token, text: string)
    requires Stands(src, p, t, text) && t.kind.StringT?
    ensures p < |src| && !IsSpace(src[p])
    ensures StepAt(src, p) == Emit(Lexeme(t, p), p + |text|)
  {
    var quote, body := text[0], text[1..|text| - 1];
    assert text == [quote] + (body + [quote]);
    AtTail(src, p, [quote], body + [quote]);
    AtIndex(src, p, text, 0);
    ReadStringAt(src, p + 1, body, quote, "");
    assert "" + t.value == t.value;
  }

  lemma {:induction false} OperatorFirst(text: string)
    requires OperatorType(text) != UnrecognizedT
    ensures 1 <= |text| <= 3
    ensures !IsSpace(text[0]) && !IsDigit(text[0]) && !IsWordStart(text[0])
    ensures text[0] != '$' && text[0] != '"' && text[0] != '\''
    ensures |text| >= 2 ==> !(text[0] == '/' && (text[1] == '/' || text[1] == '*'))
  {
  }

  lemma {:induction false} OperatorOfOne(src: string, p: nat)
    requires p < |src| && CharToTokenType(src[p]) != UnrecognizedT
    requires p + 1 < |src| ==> TwoCharType([src[p], src[p + 1]]) == UnrecognizedT
    ensures OperatorAt(src, p) == Emit(Lexeme(Token(CharToTokenType(src[p]), [src[p]]), p), p + 1)
  {
    if p + 1 < |src| {
      assert src[p..p + 2] == [src[p], src[p + 1]];
    }
    if p + 2 < |src| {
      assert src[p..p + 3] == [src[p], src[p + 1], src[p + 2]];
      assert src[p..p + 3][..2] == [src[p], src[p + 1]];
      assert "==="[..2] == "==" && "!=="[..2] == "!=";
    }
  }

  lemma {:induction false} OperatorOfTwo(src: string, p: nat)
    requires p + 1 < |src| && TwoCharType(src[p..p + 2]) != UnrecognizedT
    requires p + 2 < |src| ==> ThreeCharType(src[p..p + 2] + [src[p + 2]]) == UnrecognizedT
    ensures OperatorAt(src, p) == Emit(Lexeme(Token(TwoCharType(src[p..p + 2]), src[p..p + 2]), p), p + 2)
  {
    hide TwoCharType, ThreeCharType;
    if p + 2 < |src| {
      assert src[p..p + 3] == src[p..p + 2] + [src[p + 2]];
    }
  }

  lemma {:induction false} StepIsOperator(src: string, p: nat)
    requires p < |src| && !IsDigit(src[p]) && !IsWordStart(src[p])
    requires src[p] != '$' && src[p] != '"' && src[p] != '\''
    requires p + 1 < |src| ==> !(src[p] == '/' && (src[p + 1] == '/' || src[p + 1] == '*'))
    ensures StepAt(src, p) == OperatorAt(src, p)
  {
    hide OperatorAt, IsDigit, IsWordStart;
  }

  lemma {:induction false} OperatorAtText(src: string, p: nat, text: string)
    requires At(src, p, text) && 1 <= |text| <= 3 && OperatorType(text) != UnrecognizedT
    requires |text| == 1 && p + 1 < |src| ==> TwoCharType(text + [src[p + 1]]) == UnrecognizedT
    requires |text| == 2 && p + 2 < |src| ==> ThreeCharType(text + [src[p + 2]]) == UnrecognizedT
    ensures OperatorAt(src, p) == Emit(Lexeme(Token(OperatorType(text), text), p), p + |text|)
  {
    hide TwoCharType, ThreeCharType, CharToTokenType;
    AtIndex(src, p, text, 0);
    if |text| == 1 {
      assert text == [src[p]];
      if p + 1 < |src| {
        assert text + [src[p + 1]] == [src[p], src[p + 1]];
      }
      OperatorOfOne(src, p);
    } else if |text| == 2 {
      OperatorOfTwo(src, p);
    }
  }

  lemma {:induction false} StepOperator(src: string, p: nat, t: Token, text: string)
    requires Stands(src, p, t, text) && !IsWord(text)
    requires !t.kind.StringT? && !t.kind.NumberT? && !t.kind.DeclaratorT?
    ensures p < |src| && !IsSpace(src[p])
    ensures StepAt(src, p) == Emit(Lexeme(t, p), p + |text|)
  {
    hide StepAt, OperatorAt, IsQuoted, IsNumberLexeme, KeywordToTokenType, TwoCharType, ThreeCharType;
    OperatorFirst(text);
    AtIndex(src, p, text, 0);
    if |text| >= 2 {
      AtIndex(src, p, text, 1);
    }
    if p + |text| < |src| {
      assert src[p + |text|..][0] == src[p + |text|];
    }
    StepIsOperator(src, p);
    OperatorAtText(src, p, text);
  }

  lemma {:induction false} StepToken(src: string, p: nat, t: Token, text: string)
    requires Stands(src, p, t, text)
    ensures p < |src| && !IsSpace(src[p])
    ensures StepAt(src, p) == Emit(Lexeme(t, p), p + |text|)
  {
    if t.kind.DeclaratorT? {
      AtIndex(src, p, text, 0);
    } else {
      hide StepAt, IsQuoted, IsNumberLexeme, KeywordToTokenType, OperatorType;
      if t.kind.StringT? {
        StepString(src, p, t, text);
      } else if t.kind.NumberT? {
        StepNumber(src, p, t, text);
      } else if IsWord(text) {
        StepWord(src, p, t, text);
      } else {
        StepOperator(src, p, t, text);
      }
    }
  }

  /** A token in any spelling, followed by something that does not lengthen it, is read as that token. */
  lemma {:induction false} ReadToken(src: string, p: nat, t: Token, text: string, found: Scan)
    requires Stands(src, p, t, text)
    ensures LexOn(src, p, found) == LexOn(src, p + |text|, Scan(found.lexemes + [Lexeme(t, p)], found.errors))
  {
    hide LexOn, StepAt, Renders, Stops;
    StepToken(src, p, t, text);
    OneTurn(src, p, found, Emit(Lexeme(t, p), p + |text|));
  }

  lemma {:induction false} DropFront(src: string, p: nat, s: string, t: string)
    requires p <= |src| && src[p..] == s + t
    ensures At(src, p, s) && src[p + |s|..] == t
  {
    assert src[p..p + |s|] == src[p..][..|s|] == s;
    assert src[p + |s|..] == src[p..][|s|..] == t;
  }

  lemma {:induction false} EndOfText(src: string, found: Scan)
    ensures LexOn(src, |src|, found) == found
  {
  }

  lemma {:induction false} TokensOfNil()
    ensures TokensOf([]) == []
  {
  }

  lemma {:induction false} TokensOfCons(ws: seq<Written>)
    requires ws != []
    ensures TokensOf(ws) == [ws[0].token] + TokensOf(ws[1..])
  {
  }

  lemma {:induction false} LexedSnoc(ls: seq<Lexeme>, l: Lexeme)
    ensures LexedTokens(ls + [l]) == LexedTokens(ls) + [l.token]
  {
  }

  lemma {:induction false} ReadAll(src: string, p: nat, ws: seq<Written>, found: Scan) returns (r: Scan)
    requires Fits(ws) && p <= |src| && src[p..] == Weave(ws)
    ensures r == LexOn(src, p, found)
    ensures r.errors == found.errors
    ensures LexedTokens(r.lexemes) == LexedTokens(found.lexemes) + TokensOf(ws)
    decreases |ws|
  {
    hide LexOn, Renders, Stops, OkGap, At, Gap, TokensOf, LexedTokens;
    if ws == [] {
      r := found;
      EndOfText(src, found);
      TokensOfNil();
    } else {
      var w := ws[0];
      var q := p + |w.text|;
      var more := Scan(found.lexemes + [Lexeme(w.token, p)], found.errors);
      DropFront(src, p, w.text, Gap(w.gap) + Weave(ws[1..]));
      ReadToken(src, p, w.token, w.text, found);
      DropFront(src, q, Gap(w.gap), Weave(ws[1..]));
      SkipGap(src, q, w.gap, more);
      r := ReadAll(src, q + |Gap(w.gap)|, ws[1..], more);
      TokensOfCons(ws);
      LexedSnoc(found.lexemes, Lexeme(w.token, p));
    }
  }

  /**
   * Whatever the layout: reading a text written from a token list gives the list back, without a
   * diagnostic.
   */
  lemma {:induction false} LayoutRoundTrip(lead: seq<Trivium>, ws: seq<Written>)
    requires OkGap(lead) && Fits(ws)
    ensures var r := Lex(Gap(lead) + Weave(ws));
            r.errors == 0 && LexedTokens(r.lexemes) == TokensOf(ws)
  {
    var src := Gap(lead) + Weave(ws);
    SkipGap(src, 0, lead, Scan([], 0));
    var r := ReadAll(src, |Gap(lead)|, ws, Scan([], 0));
  }

  // ---------- there is always a layout ----------

  /** The character that, escaped, stands for `c`, where one is needed. */
  function Escape(c: char): string {
    match c
    case '\n' => "\\n"
    case '\t' => "\\t"
    case '\r' => "\\r"
    case '\0' => "\\0"
    case '\\' => "\\\\"
    case '"' => "\\\""
    case _ => [c]
  }

  function EscapeAll(s: string): string {
    if s == "" then "" else Escape(s[0]) + EscapeAll(s[1..])
  }

  lemma {:induction false} EscapeDecodes(s: string)
    ensures DecodeBody(EscapeAll(s), '"') == Some(s)
  {
    if s != "" {
      EscapeDecodes(s[1..]);
      assert [s[0]] + s[1..] == s;
      var e, rest := Escape(s[0]), EscapeAll(s[1..]);
      assert (e + rest)[0] == e[0] && (e + rest)[|e|..] == rest;
      if |e| == 2 {
        assert (e + rest)[1] == e[1];
      }
    }
  }

  function Canonical(t: Token): string {
    if t.kind.StringT? then "\"" + EscapeAll(t.value) + "\"" else t.value
  }

  ghost predicate Writable(t: Token) {
    exists text :: Renders(text, t)
  }

  lemma {:induction false} CanonicalRenders(t: Token)
    requires Writable(t)
    ensures Renders(Canonical(t), t)
  {
    if t.kind.StringT? {
      EscapeDecodes(t.value);
      var text := Canonical(t);
      assert text[1..|text| - 1] == EscapeAll(t.value);
    }
  }

  lemma {:induction false} BlankStops(t: Token, text: string)
    requires Renders(text, t)
    ensures StopsBefore(text, t.kind, ' ')
  {
    hide KeywordToTokenType, IsQuoted, IsNumberLexeme;
    if |text| == 1 {
      assert (text + [' '])[1] == ' ';
    } else if |text| == 2 {
      assert (text + [' '])[2] == ' ';
    }
  }

  /** Canonical spellings with one blank behind each. */
  function Spaced(ts: seq<Token>): seq<Written> {
    seq(|ts|, k requires 0 <= k < |ts| => Written(ts[k], Canonical(ts[k]), [Blank(' ')]))
  }

  lemma {:induction false} SpacedFits(ts: seq<Token>)
    requires forall k :: 0 <= k < |ts| ==> Writable(ts[k])
    ensures Fits(Spaced(ts)) && TokensOf(Spaced(ts)) == ts
  {
    if ts != [] {
      hide Renders, StopsBefore, Canonical;
      CanonicalRenders(ts[0]);
      BlankStops(ts[0], Canonical(ts[0]));
      SpacedFits(ts[1..]);
      assert Spaced(ts)[1..] == Spaced(ts[1..]);
      assert Gap([Blank(' ')]) == " ";
      assert (" " + Weave(Spaced(ts[1..])))[0] == ' ';
    }
  }
}
