/** What the lexer computes, as functions of the source text and an offset into it. */
module Scanning {
  import opened Decimals
  import opened Tokens

  /** A token together with the offset of its first character. */
  datatype Lexeme = Lexeme(token: Token, start: nat)

  /** The lexemes of a text and the number of diagnostics printed on the way. */
  datatype Scan = Scan(lexemes: seq<Lexeme>, errors: nat)

  /** A piece of text with the offset behind it. */
  datatype Piece = Piece(text: string, next: nat)

  /** One turn of the main loop behind white space: a comment or a stray character, or a token. */
  datatype Step = Skip(next: nat, error: bool) | Emit(lexeme: Lexeme, next: nat)

  function SkipSpace(src: string, p: nat): (q: nat)
    requires p <= |src|
    ensures p <= q <= |src|
    ensures q < |src| ==> !IsSpace(src[q])
    decreases |src| - p
  {
    if p < |src| && IsSpace(src[p]) then SkipSpace(src, p + 1) else p
  }

  function LineCommentEnd(src: string, p: nat): (q: nat)
    requires p <= |src|
    ensures p <= q <= |src|
    ensures p < |src| && src[p] != '\n' ==> p < q
    decreases |src| - p
  {
    if p < |src| && src[p] != '\n' then LineCommentEnd(src, p + 1) else p
  }

  /** Behind the closing mark, or where the search gives up: before the last character. */
  function BlockCommentEnd(src: string, p: nat): (r: (nat, bool))
    requires p <= |src|
    ensures p <= r.0 <= |src|
    decreases |src| - p
  {
    if p + 1 < |src| then
      if src[p] == '*' && src[p + 1] == '/' then (p + 2, false) else BlockCommentEnd(src, p + 1)
    else (p, true)
  }

  /** The character an escape stands for. */
  function Unescape(c: char): char {
    match c
    case 'n' => '\n'
    case 't' => '\t'
    case 'r' => '\r'
    case '0' => '\0'
    case _ => c
  }

  /** `value` followed by the rest of the string body, and the offset behind its closing quote if there is one. */
  function ReadString(src: string, p: nat, quote: char, value: string): (r: Piece)
    requires p <= |src|
    ensures p <= r.next <= |src|
    decreases |src| - p
  {
    if p == |src| then Piece(value, p)
    else if src[p] == quote then Piece(value, p + 1)
    else if src[p] == '\\' then
      if p + 1 == |src| then Piece(value, p + 1)
      else ReadString(src, p + 2, quote, value + [Unescape(src[p + 1])])
    else ReadString(src, p + 1, quote, value + [src[p]])
  }

  /** A digit, or a first point that is not followed by something else than a digit. */
  predicate ExtendsNumber(src: string, p: nat, hasDecimal: bool) {
    && p < |src|
    && (IsDigit(src[p]) || (src[p] == '.' && !hasDecimal && (p + 1 < |src| ==> IsDigit(src[p + 1]))))
  }

  function NumberEnd(src: string, p: nat, hasDecimal: bool): (q: nat)
    requires p <= |src|
    ensures p <= q <= |src|
    ensures ExtendsNumber(src, p, hasDecimal) ==> p < q
    decreases |src| - p
  {
    if ExtendsNumber(src, p, hasDecimal) then NumberEnd(src, p + 1, hasDecimal || src[p] == '.') else p
  }

  function WordEnd(src: string, p: nat): (q: nat)
    requires p <= |src|
    ensures p <= q <= |src|
    ensures p < |src| && IsWordChar(src[p]) ==> p < q
    decreases |src| - p
  {
    if p < |src| && IsWordChar(src[p]) then WordEnd(src, p + 1) else p
  }

  /** The operator or delimiter at `p`, longest first; a stray character is reported and skipped. */
  function OperatorAt(src: string, p: nat): (s: Step)
    requires p < |src|
    ensures p < s.next <= |src|
    ensures s.Emit? ==> s.lexeme.start == p
  {
    if p + 2 < |src| && ThreeCharType(src[p..p + 3]) != UnrecognizedT then
      Emit(Lexeme(Token(ThreeCharType(src[p..p + 3]), src[p..p + 3]), p), p + 3)
    else if p + 1 < |src| && TwoCharType(src[p..p + 2]) != UnrecognizedT then
      Emit(Lexeme(Token(TwoCharType(src[p..p + 2]), src[p..p + 2]), p), p + 2)
    else if CharToTokenType(src[p]) != UnrecognizedT then
      Emit(Lexeme(Token(CharToTokenType(src[p]), [src[p]]), p), p + 1)
    else Skip(p + 1, true)
  }

  /** One turn of the main loop, at a character that is not white space. */
  function StepAt(src: string, p: nat): (s: Step)
    requires p < |src|
    ensures p < s.next <= |src|
    ensures s.Emit? ==> s.lexeme.start == p
  {
    var c := src[p];
    if c == '/' && p + 1 < |src| && src[p + 1] == '*' then
      var (q, error) := BlockCommentEnd(src, p + 2); Skip(q, error)
    else if c == '/' && p + 1 < |src| && src[p + 1] == '/' then Skip(LineCommentEnd(src, p), false)
    else if c == '\'' || c == '"' then
      var r := ReadString(src, p + 1, c, ""); Emit(Lexeme(Token(StringT, r.text), p), r.next)
    else if IsDigit(c) then
      var q := NumberEnd(src, p, false); Emit(Lexeme(Token(NumberT, src[p..q]), p), q)
    else if c == '$' then Emit(Lexeme(Token(DeclaratorT, "$"), p), p + 1)
    else if IsWordStart(c) then
      var q := WordEnd(src, p); Emit(Lexeme(Token(KeywordToTokenType(src[p..q]), src[p..q]), p), q)
    else OperatorAt(src, p)
  }

  /** What one turn adds to what has been found so far. */
  function After(found: Scan, s: Step): Scan {
    match s
    case Skip(_, error) => Scan(found.lexemes, found.errors + if error then 1 else 0)
    case Emit(lexeme, _) => Scan(found.lexemes + [lexeme], found.errors)
  }

  /** What has been found once the text from `p` on is read as well. */
  function LexOn(src: string, p: nat, found: Scan): Scan
    requires p <= |src|
    decreases |src| - p
  {
    var q := SkipSpace(src, p);
    if q == |src| then found
    else var s := StepAt(src, q); LexOn(src, s.next, After(found, s))
  }

  /** The lexemes of a whole text. */
  function Lex(src: string): Scan { LexOn(src, 0, Scan([], 0)) }

  /** One plus the number of newlines before offset `p`. */
  function LineOf(src: string, p: nat): (line: nat)
    requires p <= |src|
  {
    if p == 0 then 1 else LineOf(src, p - 1) + if src[p - 1] == '\n' then 1 else 0
  }

  /** The offset behind the last newline before `p`, 0 if there is none. */
  function LineStart(src: string, p: nat): (q: nat)
    requires p <= |src|
    ensures q <= p
    ensures q == 0 || src[q - 1] == '\n'
    ensures forall k :: q <= k < p ==> src[k] != '\n'
  {
    if p == 0 || src[p - 1] == '\n' then p else LineStart(src, p - 1)
  }

  /** One plus the number of characters since the last newline. */
  function ColumnOf(src: string, p: nat): (column: nat)
    requires p <= |src|
  {
    1 + p - LineStart(src, p)
  }

  /** Start offsets lie in order inside the text. */
  ghost predicate Increasing(ls: seq<Lexeme>, lo: nat, hi: nat) {
    && (forall k :: 0 <= k < |ls| ==> lo <= ls[k].start < hi)
    && (forall j, k :: 0 <= j < k < |ls| ==> ls[j].start < ls[k].start)
  }

  lemma {:induction false} IncreasingOn(src: string, p: nat, found: Scan)
    requires p <= |src| && Increasing(found.lexemes, 0, p)
    ensures Increasing(LexOn(src, p, found).lexemes, 0, |src|)
    decreases |src| - p
  {
    var q := SkipSpace(src, p);
    if q < |src| {
      IncreasingOn(src, StepAt(src, q).next, After(found, StepAt(src, q)));
    }
  }

  /** Every lexeme starts strictly behind the one before it, whatever the source is. */
  lemma {:induction false} StartsIncrease(src: string)
    ensures Increasing(Lex(src).lexemes, 0, |src|)
  {
    IncreasingOn(src, 0, Scan([], 0));
  }
}
