/** The lexer object: a cursor with its line and column over the source text. */
module Lexing {
  import opened Decimals
  import opened Tokens
  import opened Scanning

  /** A token as the lexer hands it on, with the line and column of its first character. */
  datatype PlacedToken = PlacedToken(token: Token, line: nat, col: nat)

  /** The token of a lexeme at the place its offset has in the text. */
  function Place(src: string, l: Lexeme): PlacedToken
    requires l.start <= |src|
  {
    PlacedToken(l.token, LineOf(src, l.start), ColumnOf(src, l.start))
  }

  /** `ts` are exactly the lexemes `ls`, each at its own place. */
  ghost predicate Placed(src: string, ts: seq<PlacedToken>, ls: seq<Lexeme>) {
    && |ts| == |ls|
    && forall k :: 0 <= k < |ls| ==> ls[k].start <= |src| && ts[k] == Place(src, ls[k])
  }

  lemma {:induction false} PlacedSnoc(src: string, ts: seq<PlacedToken>, ls: seq<Lexeme>, l: Lexeme)
    requires Placed(src, ts, ls) && l.start <= |src|
    ensures Placed(src, ts + [Place(src, l)], ls + [l])
  {
  }

  class Lexer {
    const source: string
    var pos: nat
    var line: nat
    var col: nat
    var errors: nat

    /** The line and column fields always describe the offset. */
    ghost predicate Valid()
      reads this
    {
      pos <= |source| && line == LineOf(source, pos) && col == ColumnOf(source, pos)
    }

    constructor (source: string)
      ensures Valid() && this.source == source && pos == 0 && errors == 0
    {
      this.source := source;
      pos, line, col, errors := 0, 1, 1, 0;
    }

    method Advance()
      requires Valid()
      modifies this`pos, this`line, this`col
      ensures Valid() && pos == if old(pos) < |source| then old(pos) + 1 else old(pos)
    {
      if pos < |source| {
        if source[pos] == '\n' {
          line := line + 1;
          col := 1;
        } else {
          col := col + 1;
        }
        pos := pos + 1;
      }
    }

    method SkipWhitespace()
      requires Valid()
      modifies this`pos, this`line, this`col
      ensures Valid() && pos == SkipSpace(source, old(pos))
    {
      while pos < |source| && IsSpace(source[pos])
        invariant Valid() && SkipSpace(source, pos) == SkipSpace(source, old(pos))
        decreases |source| - pos
      {
        Advance();
      }
    }

    method SkipLineComment()
      requires Valid()
      modifies this`pos, this`line, this`col
      ensures Valid() && pos == LineCommentEnd(source, old(pos))
    {
      while pos < |source| && source[pos] != '\n'
        invariant Valid() && LineCommentEnd(source, pos) == LineCommentEnd(source, old(pos))
        decreases |source| - pos
      {
        Advance();
      }
    }

    method SkipBlockComment()
      requires Valid() && pos + 2 <= |source|
      modifies this
      ensures Valid() && pos == BlockCommentEnd(source, old(pos) + 2).0
      ensures errors == old(errors) + if BlockCommentEnd(source, old(pos) + 2).1 then 1 else 0
    {
      Advance();
      Advance();
      while pos + 1 < |source|
        invariant Valid() && errors == old(errors)
        invariant BlockCommentEnd(source, pos) == BlockCommentEnd(source, old(pos) + 2)
        decreases |source| - pos
      {
        if source[pos] == '*' && source[pos + 1] == '/' {
          Advance();
          Advance();
          return;
        }
        Advance();
      }
      errors := errors + 1;
    }

    method ReadStringToken() returns (t: PlacedToken)
      requires Valid() && pos < |source|
      modifies this`pos, this`line, this`col
      ensures Valid()
      ensures pos == ReadString(source, old(pos) + 1, source[old(pos)], "").next
      ensures t == Place(source, Lexeme(Token(StringT, ReadString(source, old(pos) + 1, source[old(pos)], "").text), old(pos)))
    {
      var quote := source[pos];
      var startLine, startCol := line, col;
      Advance();
      var value := "";
      ghost var whole := ReadString(source, pos, quote, value);
      while pos < |source| && source[pos] != quote
        invariant Valid()
        invariant ReadString(source, pos, quote, value) == whole
        decreases |source| - pos
      {
        if source[pos] == '\\' {
          Advance();
          if pos < |source| {
            value := value + [Unescape(source[pos])];
          }
        } else {
          value := value + [source[pos]];
        }
        Advance();
      }
      if pos < |source| {
        Advance();
      }
      t := PlacedToken(Token(StringT, value), startLine, startCol);
    }

    method ReadNumberToken() returns (t: PlacedToken)
      requires Valid() && pos < |source|
      modifies this`pos, this`line, this`col
      ensures Valid() && pos == NumberEnd(source, old(pos), false)
      ensures t == Place(source, Lexeme(Token(NumberT, source[old(pos)..pos]), old(pos)))
    {
      var startLine, startCol := line, col;
      var value, hasDecimal := "", false;
      while pos < |source| && (IsDigit(source[pos]) || source[pos] == '.')
        invariant Valid() && old(pos) <= pos
        invariant value == source[old(pos)..pos]
        invariant NumberEnd(source, pos, hasDecimal) == NumberEnd(source, old(pos), false)
        decreases |source| - pos
      {
        if source[pos] == '.' {
          if hasDecimal {
            break;
          }
          if pos + 1 < |source| && !IsDigit(source[pos + 1]) {
            break;
          }
          hasDecimal := true;
        }
        value := value + [source[pos]];
        Advance();
      }
      t := PlacedToken(Token(NumberT, value), startLine, startCol);
    }

    method ReadIdentifierToken() returns (t: PlacedToken)
      requires Valid()
      modifies this`pos, this`line, this`col
      ensures Valid() && pos == WordEnd(source, old(pos))
      ensures var text := source[old(pos)..pos];
              t == Place(source, Lexeme(Token(KeywordToTokenType(text), text), old(pos)))
    {
      var startLine, startCol := line, col;
      var value := "";
      while pos < |source| && IsWordChar(source[pos])
        invariant Valid() && old(pos) <= pos
        invariant value == source[old(pos)..pos]
        invariant WordEnd(source, pos) == WordEnd(source, old(pos))
        decreases |source| - pos
      {
        value := value + [source[pos]];
        Advance();
      }
      t := PlacedToken(Token(KeywordToTokenType(value), value), startLine, startCol);
    }

    /** Longest operator first; an unknown character is reported and dropped. */
    method ReadOperator(tokens: seq<PlacedToken>) returns (r: seq<PlacedToken>)
      requires Valid() && pos < |source|
      modifies this
      ensures Valid()
      ensures var s := OperatorAt(source, old(pos));
              && pos == s.next
              && r == (if s.Emit? then tokens + [Place(source, s.lexeme)] else tokens)
              && errors == old(errors) + if s.Skip? && s.error then 1 else 0
    {
      if pos + 2 < |source| {
        var three := source[pos..pos + 3];
        if ThreeCharType(three) != UnrecognizedT {
          r := tokens + [PlacedToken(Token(ThreeCharType(three), three), line, col)];
          Advance();
          Advance();
          Advance();
          return;
        }
      }
      if pos + 1 < |source| {
        var two := source[pos..pos + 2];
        if TwoCharType(two) != UnrecognizedT {
          r := tokens + [PlacedToken(Token(TwoCharType(two), two), line, col)];
          Advance();
          Advance();
          return;
        }
      }
      var kind := CharToTokenType(source[pos]);
      if kind != UnrecognizedT {
        r := tokens + [PlacedToken(Token(kind, [source[pos]]), line, col)];
        Advance();
        return;
      }
      errors := errors + 1;
      Advance();
      r := tokens;
    }

    /** One turn of the main loop behind white space. */
    method Turn(tokens: seq<PlacedToken>) returns (r: seq<PlacedToken>)
      requires Valid() && pos < |source|
      modifies this
      ensures Valid()
      ensures var s := StepAt(source, old(pos));
              && pos == s.next
              && r == (if s.Emit? then tokens + [Place(source, s.lexeme)] else tokens)
              && errors == old(errors) + if s.Skip? && s.error then 1 else 0
    {
      var c := source[pos];
      if c == '/' && pos + 1 < |source| && source[pos + 1] == '*' {
        SkipBlockComment();
        r := tokens;
      } else if c == '/' && pos + 1 < |source| && source[pos + 1] == '/' {
        SkipLineComment();
        r := tokens;
      } else if c == '\'' || c == '"' {
        var t := ReadStringToken();
        r := tokens + [t];
      } else if IsDigit(c) {
        var t := ReadNumberToken();
        r := tokens + [t];
      } else if c == '$' {
        r := tokens + [PlacedToken(Token(DeclaratorT, "$"), line, col)];
        Advance();
      } else if IsWordStart(c) {
        var t := ReadIdentifierToken();
        r := tokens + [t];
      } else {
        r := ReadOperator(tokens);
      }
    }

    /**
     * Terminates on every source and delivers the lexemes of the text, each with the line and column of
     * its own first character, closed by an end marker placed behind the last character.
     */
    method Tokenize() returns (tokens: seq<PlacedToken>)
      requires Valid() && pos == 0 && errors == 0
      modifies this
      ensures Valid() && pos == |source|
      ensures tokens != []
      ensures Placed(source, tokens[..|tokens| - 1], Lex(source).lexemes)
      ensures tokens[|tokens| - 1] == PlacedToken(Token(EndOfFileT, ""), LineOf(source, |source|), ColumnOf(source, |source|))
      ensures errors == Lex(source).errors
    {
      tokens := [];
      ghost var found := Scan([], 0);
      while pos < |source|
        invariant Valid()
        invariant Placed(source, tokens, found.lexemes) && errors == found.errors
        invariant LexOn(source, pos, found) == Lex(source)
        decreases |source| - pos
      {
        SkipWhitespace();
        if pos == |source| {
          break;
        }
        ghost var s := StepAt(source, pos);
        if s.Emit? {
          PlacedSnoc(source, tokens, found.lexemes, s.lexeme);
        }
        found := After(found, s);
        tokens := Turn(tokens);
      }
      assert (tokens + [PlacedToken(Token(EndOfFileT, ""), line, col)])[..|tokens|] == tokens;
      tokens := tokens + [PlacedToken(Token(EndOfFileT, ""), line, col)];
    }
  }
}
