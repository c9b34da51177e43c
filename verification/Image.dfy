/** Which trees come out of the front end: exactly the ones the printer can write. */
module Image {
  import opened Decimals
  import opened Tokens
  import opened Ast
  import opened Grammar
  import opened Printing
  import opened Scanning
  import opened Layout
  import opened ProgramRoundTrip

  // ---------- what the lexer hands on ----------

  /** A token the lexer can produce. */
  ghost predicate Lexical(t: Token) {
    if t.kind.NumberT? then IsDecimal(NumberValue(t.value)) else Writable(t)
  }

  /** A point behind the last digit does not change the value. */
  lemma {:induction false} TrailingPoint(s: string)
    requires s != "" && forall k :: 0 <= k < |s| ==> IsDigit(s[k])
    ensures NumberValue(s + ".") == NumberValue(s)
  {
    var t := s + ".";
    DigitsEndIs(s, 0, |s|);
    DigitsEndIs(t, 0, |s|);
    DigitsEndIs(t, |t|, |t|);
    assert s[0..|s|] == t[0..|s|];
    assert t[|s| + 1..|t|] == "";
  }

  lemma {:induction false} NumberEndShape(src: string, start: nat, p: nat, seen: bool)
    requires start <= p <= |src|
    requires forall k :: start <= k < p ==> IsDigit(src[k]) || src[k] == '.'
    requires forall j, k :: start <= j < k < p ==> src[j] != '.' || src[k] != '.'
    requires seen <==> exists k :: start <= k < p && src[k] == '.'
    requires start < p ==> IsDigit(src[p - 1]) || (p < |src| ==> IsDigit(src[p]))
    ensures var q := NumberEnd(src, p, seen);
      && (forall k :: start <= k < q ==> IsDigit(src[k]) || src[k] == '.')
      && (forall j, k :: start <= j < k < q ==> src[j] != '.' || src[k] != '.')
      && (start < q ==> IsDigit(src[q - 1]) || q == |src|)
    decreases |src| - p
  {
    if ExtendsNumber(src, p, seen) {
      NumberEndShape(src, start, p + 1, seen || src[p] == '.');
    }
  }

  lemma {:induction false} NumberIsLexical(src: string, p: nat)
    requires p < |src| && IsDigit(src[p])
    ensures Lexical(Token(NumberT, src[p..NumberEnd(src, p, false)]))
  {
    NumberEndShape(src, p, p, false);
    var q := NumberEnd(src, p, false);
    assert ExtendsNumber(src, p, false);
    var text := src[p..q];
    if IsDigit(src[q - 1]) {
      assert IsNumberLexeme(text);
    } else {
      var whole := src[p..q - 1];
      assert text == whole + ".";
      assert forall k :: 0 <= k < |whole| ==> whole[k] == src[p + k] && src[p + k] != '.';
      assert IsNumberLexeme(whole);
      TrailingPoint(whole);
    }
  }

  lemma {:induction false} WordEndShape(src: string, p: nat)
    requires p <= |src|
    ensures forall k :: p <= k < WordEnd(src, p) ==> IsWordChar(src[k])
    decreases |src| - p
  {
    if p < |src| && IsWordChar(src[p]) {
      WordEndShape(src, p + 1);
    }
  }

  lemma {:induction false} OperatorIsLexical(src: string, p: nat)
    requires p < |src| && !IsWordStart(src[p]) && OperatorAt(src, p).Emit?
    ensures Lexical(OperatorAt(src, p).lexeme.token)
  {
    var t := OperatorAt(src, p).lexeme.token;
    assert t.kind == OperatorType(t.value);
    assert Renders(t.value, t);
  }

  lemma {:induction false} WordIsLexical(src: string, p: nat)
    requires p < |src| && IsWordStart(src[p])
    ensures var text := src[p..WordEnd(src, p)]; Lexical(Token(KeywordToTokenType(text), text))
  {
    hide KeywordToTokenType;
    var text := src[p..WordEnd(src, p)];
    WordEndShape(src, p);
    assert text[0] == src[p];
    WordIsWritable(text);
    WordIsNoLiteral(text);
  }

  lemma {:induction false} StepIsLexical(src: string, p: nat)
    requires p < |src| && StepAt(src, p).Emit?
    ensures Lexical(StepAt(src, p).lexeme.token)
  {
    hide OperatorAt, KeywordToTokenType, NumberEnd, Renders;
    var c := src[p];
    if c == '\'' || c == '"' {
      var t := StepAt(src, p).lexeme.token;
      StringIsWritable(t.value);
      assert [t][0] == t == Token(StringT, t.value);
    } else if IsDigit(c) {
      NumberIsLexical(src, p);
    } else if c == '$' {
      DollarIsWritable();
      assert [DOLLAR][0] == DOLLAR;
    } else if IsWordStart(c) {
      WordIsLexical(src, p);
    } else {
      OperatorIsLexical(src, p);
    }
  }

  ghost predicate AllLexical(ls: seq<Scanning.Lexeme>) {
    forall k :: 0 <= k < |ls| ==> Lexical(ls[k].token)
  }

  lemma {:induction false} LexOnIsLexical(src: string, p: nat, found: Scan)
    requires p <= |src| && AllLexical(found.lexemes)
    ensures AllLexical(LexOn(src, p, found).lexemes)
    decreases |src| - p
  {
    hide StepAt, Lexical;
    var q := SkipSpace(src, p);
    if q < |src| {
      if StepAt(src, q).Emit? {
        StepIsLexical(src, q);
      }
      LexOnIsLexical(src, StepAt(src, q).next, After(found, StepAt(src, q)));
    }
  }

  /** A token list as the parser gets it. */
  ghost predicate Lexed(ts: seq<Token>) {
    forall k :: 0 <= k < |ts| - 1 ==> Lexical(ts[k])
  }

  lemma {:induction false} OperatorsAreNoWords(text: string)
    ensures var kind := OperatorType(text); !kind.IdentifierT? && !IsPropertyKind(kind) && !IsTypeKind(kind)
  {
  }

  lemma {:induction false} WordOf(ts: seq<Token>, c: Cursor)
    requires Stream(ts) && Lexed(ts) && In(ts, c)
    requires Kind(ts, c).IdentifierT? || IsPropertyKind(Kind(ts, c)) || IsTypeKind(Kind(ts, c))
    ensures IsWord(ts[c.pos].value) && KeywordToTokenType(ts[c.pos].value) == Kind(ts, c)
  {
    OperatorsAreNoWords(ts[c.pos].value);
    hide OperatorType, KeywordToTokenType, IsWord;
    assert Lexical(ts[c.pos]);
  }

  // ---------- expressions ----------

  lemma {:induction false} NameImage(ts: seq<Token>, c: Cursor)
    requires Stream(ts) && Lexed(ts) && In(ts, c) && Expect(ts, c, IdentifierT).at.errors == c.errors
    ensures IsName(Expect(ts, c, IdentifierT).node)
  {
    hide KeywordToTokenType, IsWord, Lexed;
    WordOf(ts, c);
  }

  lemma {:induction false} AssignmentImage(ts: seq<Token>, c: Cursor)
    requires Stream(ts) && Lexed(ts) && In(ts, c) && Assignment(ts, c).at.errors == c.errors
    ensures Producible(Assignment(ts, c).node)
    decreases |ts| - c.pos, 20
  {
    hide Lexed, BinaryLevel, Compound, IsVariableName, IsPropertyName, Lexical;
    BinaryLevelImage(ts, c, 1);
    var l := BinaryLevel(ts, c, 1);
    if Kind(ts, l.at).EqualsT? {
      AssignmentImage(ts, Advance(ts, l.at));
    } else {
      CompoundImage(ts, l.at, l.node);
    }
  }

  lemma {:induction false} CompoundImage(ts: seq<Token>, c: Cursor, e: Expr)
    requires Stream(ts) && Lexed(ts) && In(ts, c) && Producible(e) && Compound(ts, c, e).at.errors == c.errors
    ensures Producible(Compound(ts, c, e).node)
    decreases |ts| - c.pos, 19
  {
    hide Lexed, Assignment, IsVariableName, Lexical;
    if IsCompound(Kind(ts, c)) {
      AssignmentImage(ts, Advance(ts, c));
    }
  }

  lemma {:induction false} BinaryLevelImage(ts: seq<Token>, c: Cursor, level: nat)
    requires Stream(ts) && Lexed(ts) && In(ts, c) && 1 <= level <= 7 && BinaryLevel(ts, c, level).at.errors == c.errors
    ensures Producible(BinaryLevel(ts, c, level).node)
    decreases |ts| - c.pos, 5, 7 - level, 1
  {
    hide Lexed, UnaryLevel, BinaryLoop, Producible;
    if level == 7 {
      UnaryImage(ts, c);
    } else {
      BinaryLevelImage(ts, c, level + 1);
      var l := BinaryLevel(ts, c, level + 1);
      BinaryLoopImage(ts, l.at, l.node, level);
    }
  }

  lemma {:induction false} BinaryLoopImage(ts: seq<Token>, c: Cursor, left: Expr, level: nat)
    requires Stream(ts) && Lexed(ts) && In(ts, c) && 1 <= level < 7 && Producible(left)
    requires BinaryLoop(ts, c, left, level).at.errors == c.errors
    ensures Producible(BinaryLoop(ts, c, left, level).node)
    decreases |ts| - c.pos, 5, 7 - level, 0
  {
    hide Lexed, BinaryLevel, IsVariableName, IsDecimal, IsPropertyName;
    if LevelOf(Kind(ts, c)) == level {
      var next := Advance(ts, c);
      BinaryLevelImage(ts, next, level + 1);
      var right := BinaryLevel(ts, next, level + 1);
      BinaryLoopImage(ts, right.at, Binary(Kind(ts, c), left, right.node), level);
    }
  }

  lemma {:induction false} UnaryImage(ts: seq<Token>, c: Cursor)
    requires Stream(ts) && Lexed(ts) && In(ts, c) && UnaryLevel(ts, c).at.errors == c.errors
    ensures Producible(UnaryLevel(ts, c).node)
    decreases |ts| - c.pos, 4
  {
    hide Lexed, Primary, PostfixLoop, IsVariableName, IsDecimal, IsPropertyName;
    if Kind(ts, c).NotT? || Kind(ts, c).MinusT? {
      UnaryImage(ts, Advance(ts, c));
    } else {
      PrimaryImage(ts, c);
      var e := Primary(ts, c);
      PostfixImage(ts, e.at, e.node);
    }
  }

  lemma {:induction false} CallIsProducible(e: Expr, args: seq<Expr>)
    requires Producible(e) && AllProducible(args)
    ensures Producible(Call(e, args))
  {
    hide IsVariableName, IsDecimal, IsPropertyName, IsCompoundForm;
  }

  lemma {:induction false} DotIsProducible(e: Expr, p: string)
    requires Producible(e) && IsPropertyName(p)
    ensures Producible(Dot(e, p))
  {
    hide IsVariableName, IsDecimal, IsPropertyName, IsCompoundForm;
  }

  lemma {:induction false} IndexIsProducible(e: Expr, i: Expr)
    requires Producible(e) && Producible(i)
    ensures Producible(Index(e, i))
  {
    hide IsVariableName, IsDecimal, IsPropertyName, IsCompoundForm;
  }

  lemma {:induction false} PostfixImage(ts: seq<Token>, c: Cursor, e: Expr)
    requires Stream(ts) && Lexed(ts) && In(ts, c) && Producible(e) && PostfixLoop(ts, c, e).at.errors == c.errors
    ensures Producible(PostfixLoop(ts, c, e).node)
    decreases |ts| - c.pos, 2
  {
    hide Lexed, Elements, Expression, PropertyName, Producible;
    if Kind(ts, c).LParenT? {
      ElementsImage(ts, Advance(ts, c), RParenT);
      var args := Elements(ts, Advance(ts, c), RParenT);
      CallIsProducible(e, args.node);
      PostfixImage(ts, args.at, Call(e, args.node));
    } else if Kind(ts, c).DotT? {
      PropertyImage(ts, Advance(ts, c));
      var name := PropertyName(ts, Advance(ts, c));
      DotIsProducible(e, name.node);
      PostfixImage(ts, name.at, Dot(e, name.node));
    } else if Kind(ts, c).LBracketT? {
      ExpressionImage(ts, Advance(ts, c));
      var index := Expression(ts, Advance(ts, c));
      IndexIsProducible(e, index.node);
      PostfixImage(ts, Expect(ts, index.at, RBracketT).at, Index(e, index.node));
    }
  }

  lemma {:induction false} PropertyImage(ts: seq<Token>, c: Cursor)
    requires Stream(ts) && Lexed(ts) && In(ts, c) && PropertyName(ts, c).at.errors == c.errors
    ensures IsPropertyName(PropertyName(ts, c).node)
  {
    hide Lexed, KeywordToTokenType, IsWord, IsPropertyKind;
    WordOf(ts, c);
  }

  lemma {:induction false} AtomImage(ts: seq<Token>, c: Cursor)
    requires Stream(ts) && Lexed(ts) && In(ts, c) && IsAtom(Kind(ts, c))
    ensures Producible(Atom(ts[c.pos]))
  {
    hide KeywordToTokenType, IsWord;
    if Kind(ts, c).NumberT? {
      assert Lexical(ts[c.pos]);
    } else if Kind(ts, c).IdentifierT? {
      WordOf(ts, c);
    }
  }

  lemma {:induction false} PrimaryImage(ts: seq<Token>, c: Cursor)
    requires Stream(ts) && Lexed(ts) && In(ts, c) && Primary(ts, c).at.errors == c.errors
    ensures Producible(Primary(ts, c).node)
    decreases |ts| - c.pos, 1
  {
    hide Lexed, Bracketed, Atom, Expect, IsName;
    if IsAtom(Kind(ts, c)) {
      AtomImage(ts, c);
    } else if Kind(ts, c).DeclaratorT? || Kind(ts, c).NewT? {
      NameImage(ts, Advance(ts, c));
    } else if IsOpening(Kind(ts, c)) {
      BracketedImage(ts, Advance(ts, c), Kind(ts, c));
    }
  }

  lemma {:induction false} BracketedImage(ts: seq<Token>, c: Cursor, kind: TokenType)
    requires Stream(ts) && Lexed(ts) && In(ts, c) && IsOpening(kind) && Bracketed(ts, c, kind).at.errors == c.errors
    ensures Producible(Bracketed(ts, c, kind).node)
    decreases |ts| - c.pos, 24
  {
    hide Lexed, Elements, Expression, Pairs, IsName, IsDecimal, IsPropertyName;
    if kind.SuperT? {
      if Kind(ts, c).LParenT? {
        ElementsImage(ts, Advance(ts, c), RParenT);
      }
    } else if kind.LParenT? {
      ExpressionImage(ts, c);
    } else if kind.LBracketT? {
      ElementsImage(ts, c, RBracketT);
    } else if !Kind(ts, c).RBraceT? {
      PairsImage(ts, c, []);
    }
  }

  lemma {:induction false} ElementsImage(ts: seq<Token>, c: Cursor, close: TokenType)
    requires Stream(ts) && Lexed(ts) && In(ts, c) && Elements(ts, c, close).at.errors == c.errors
    ensures AllProducible(Elements(ts, c, close).node)
    decreases |ts| - c.pos, 23
  {
    hide Lexed, Commas, Producible;
    if !Check(ts, c, close) {
      CommasImage(ts, c, []);
    }
  }

  lemma {:induction false} ProducibleSnoc(es: seq<Expr>, e: Expr)
    requires AllProducible(es) && Producible(e)
    ensures AllProducible(es + [e])
  {
    hide Producible;
    if es == [] {
      assert es + [e] == [e];
    } else {
      ProducibleSnoc(es[1..], e);
      assert (es + [e])[1..] == es[1..] + [e];
    }
  }

  lemma {:induction false} CommasImage(ts: seq<Token>, c: Cursor, found: seq<Expr>)
    requires Stream(ts) && Lexed(ts) && In(ts, c) && AllProducible(found) && Commas(ts, c, found).at.errors == c.errors
    ensures AllProducible(Commas(ts, c, found).node)
    decreases |ts| - c.pos, 22
  {
    hide Lexed, Expression, AllProducible;
    ExpressionImage(ts, c);
    var e := Expression(ts, c);
    ProducibleSnoc(found, e.node);
    if Kind(ts, e.at).CommaT? {
      CommasImage(ts, Advance(ts, e.at), found + [e.node]);
    }
  }

  lemma {:induction false} PairsSnoc(ps: seq<Pair>, p: Pair)
    requires PairsProducible(ps) && Producible(p.value)
    ensures PairsProducible(ps + [p])
  {
    hide Producible;
    if ps == [] {
      assert ps + [p] == [p];
    } else {
      PairsSnoc(ps[1..], p);
      assert (ps + [p])[1..] == ps[1..] + [p];
    }
  }

  lemma {:induction false} PairsImage(ts: seq<Token>, c: Cursor, found: seq<Pair>)
    requires Stream(ts) && Lexed(ts) && In(ts, c) && PairsProducible(found) && Pairs(ts, c, found).at.errors == c.errors
    ensures PairsProducible(Pairs(ts, c, found).node)
    decreases |ts| - c.pos, 22
  {
    hide Lexed, Expression, Expect, PairsProducible;
    var key := Expect(ts, c, StringT);
    var colon := Expect(ts, key.at, ColonT);
    ExpressionImage(ts, colon.at);
    var e := Expression(ts, colon.at);
    PairsSnoc(found, Pair(key.node, e.node));
    if Kind(ts, e.at).CommaT? {
      PairsImage(ts, Advance(ts, e.at), found + [Pair(key.node, e.node)]);
    }
  }

  lemma {:induction false} ExpressionImage(ts: seq<Token>, c: Cursor)
    requires Stream(ts) && Lexed(ts) && In(ts, c) && Expression(ts, c).at.errors == c.errors
    ensures Producible(Expression(ts, c).node)
    decreases |ts| - c.pos, 21
  {
    AssignmentImage(ts, c);
  }

  // ---------- statements ----------

  lemma {:induction false} StmtsSnoc(ss: seq<Stmt>, s: Stmt)
    requires AllStmts(ss) && ProducibleStmt(s)
    ensures AllStmts(ss + [s])
  {
    hide ProducibleStmt;
    if ss == [] {
      assert ss + [s] == [s];
    } else {
      StmtsSnoc(ss[1..], s);
      assert (ss + [s])[1..] == ss[1..] + [s];
    }
  }

  lemma {:induction false} StatementImage(ts: seq<Token>, c: Cursor)
    requires Stream(ts) && Lexed(ts) && In(ts, c)
    requires Statement(ts, c).Done? && Statement(ts, c).at.errors == c.errors
    ensures ProducibleStmt(Statement(ts, c).node)
    decreases |ts| - c.pos, 30
  {
    hide Lexed, CompoundStatement, Expression, Declaration, IsWord, KeywordToTokenType, Producible;
    if IsCompoundKeyword(Kind(ts, c)) {
      CompoundStatementImage(ts, Advance(ts, c), Kind(ts, c));
    } else if Kind(ts, c).ReturnT? || Kind(ts, c).PrintT? {
      ExpressionImage(ts, Advance(ts, c));
    } else if Kind(ts, c).ConstT? {
      DeclarationImage(ts, Advance(ts, c), "const");
    } else if IsTypeKind(Kind(ts, c)) {
      WordOf(ts, c);
      DeclarationImage(ts, Advance(ts, c), ts[c.pos].value);
    } else if !Kind(ts, c).BreakT? && !Kind(ts, c).ContinueT? {
      ExpressionImage(ts, c);
    }
  }

  lemma {:induction false} DeclarationImage(ts: seq<Token>, c: Cursor, a: string)
    requires Stream(ts) && Lexed(ts) && In(ts, c)
    requires a == "const" || IsTypeName(a)
    requires Declaration(ts, c, a).Done? && Declaration(ts, c, a).at.errors == c.errors
    ensures ProducibleStmt(Declaration(ts, c, a).node)
    decreases |ts| - c.pos, 29
  {
    hide Lexed, Expression, Expect, Match, IsName, IsTypeName, Producible;
    var name := Expect(ts, Match(ts, c, DeclaratorT), IdentifierT);
    NameImage(ts, Match(ts, c, DeclaratorT));
    ExpressionImage(ts, Expect(ts, name.at, EqualsT).at);
  }

  lemma {:induction false} CompoundStatementImage(ts: seq<Token>, c: Cursor, kind: TokenType)
    requires Stream(ts) && Lexed(ts) && In(ts, c) && IsCompoundKeyword(kind)
    requires CompoundStatement(ts, c, kind).Done? && CompoundStatement(ts, c, kind).at.errors == c.errors
    ensures ProducibleStmt(CompoundStatement(ts, c, kind).node)
    decreases |ts| - c.pos, 35
  {
    hide Lexed, IfStatement, WhileStatement, ForStatement, EachStatement, FuncDeclaration, TryStatement, ClassDeclaration, ProducibleStmt;
    if kind.IfT? {
      IfImage(ts, c);
    } else if kind.WhileT? {
      WhileImage(ts, c);
    } else if kind.ForT? {
      ForImage(ts, c);
    } else if kind.EachT? {
      EachImage(ts, c);
    } else if kind.DefT? {
      FuncImage(ts, c);
    } else if kind.TryT? {
      TryImage(ts, c);
    } else {
      ClassImage(ts, c);
    }
  }

  lemma {:induction false} ConditionImage(ts: seq<Token>, c: Cursor)
    requires Stream(ts) && Lexed(ts) && In(ts, c) && Condition(ts, c).at.errors == c.errors
    ensures Producible(Condition(ts, c).node)
  {
    hide Lexed, Expression, Expect, Producible;
    ExpressionImage(ts, Expect(ts, c, LParenT).at);
  }

  lemma {:induction false} IfImage(ts: seq<Token>, c: Cursor)
    requires Stream(ts) && Lexed(ts) && In(ts, c)
    requires IfStatement(ts, c).Done? && IfStatement(ts, c).at.errors == c.errors
    ensures ProducibleStmt(IfStatement(ts, c).node)
    decreases |ts| - c.pos, 34
  {
    hide Lexed, Condition, Block, ElsePart, Producible, AllStmts;
    var cond := Condition(ts, c);
    ConditionImage(ts, c);
    BlockImage(ts, cond.at);
    ElseImage(ts, Block(ts, cond.at).at);
  }

  lemma {:induction false} ElseImage(ts: seq<Token>, c: Cursor)
    requires Stream(ts) && Lexed(ts) && In(ts, c)
    requires ElsePart(ts, c).Done? && ElsePart(ts, c).at.errors == c.errors
    ensures AllStmts(ElsePart(ts, c).node)
    decreases |ts| - c.pos, 33
  {
    hide Lexed, Block, ProducibleStmt;
    if Kind(ts, c).ElseT? {
      BlockImage(ts, Advance(ts, c));
    }
  }

  lemma {:induction false} WhileImage(ts: seq<Token>, c: Cursor)
    requires Stream(ts) && Lexed(ts) && In(ts, c)
    requires WhileStatement(ts, c).Done? && WhileStatement(ts, c).at.errors == c.errors
    ensures ProducibleStmt(WhileStatement(ts, c).node)
    decreases |ts| - c.pos, 34
  {
    hide Lexed, Condition, Block, Producible, AllStmts;
    ConditionImage(ts, c);
    BlockImage(ts, Condition(ts, c).at);
  }

  lemma {:induction false} ForImage(ts: seq<Token>, c: Cursor)
    requires Stream(ts) && Lexed(ts) && In(ts, c)
    requires ForStatement(ts, c).Done? && ForStatement(ts, c).at.errors == c.errors
    ensures ProducibleStmt(ForStatement(ts, c).node)
    decreases |ts| - c.pos, 34
  {
    hide Lexed, Statement, Expression, Expect, Block, Match, Producible, AllStmts;
    var open := Expect(ts, c, LParenT).at;
    StatementImage(ts, open);
    var d := Match(ts, Statement(ts, open).at, SemicolonT);
    ExpressionImage(ts, d);
    var semicolon := Expect(ts, Expression(ts, d).at, SemicolonT).at;
    StatementImage(ts, semicolon);
    BlockImage(ts, Expect(ts, Statement(ts, semicolon).at, RParenT).at);
  }

  lemma {:induction false} EachImage(ts: seq<Token>, c: Cursor)
    requires Stream(ts) && Lexed(ts) && In(ts, c)
    requires EachStatement(ts, c).Done? && EachStatement(ts, c).at.errors == c.errors
    ensures ProducibleStmt(EachStatement(ts, c).node)
    decreases |ts| - c.pos, 34
  {
    hide Lexed, EachHead, Block, Producible, AllStmts, IsName;
    EachHeadImage(ts, c);
    BlockImage(ts, EachHead(ts, c).at);
  }

  lemma {:induction false} EachHeadImage(ts: seq<Token>, c: Cursor)
    requires Stream(ts) && Lexed(ts) && In(ts, c) && EachHead(ts, c).at.errors == c.errors
    ensures IsName(EachHead(ts, c).node.0) && Producible(EachHead(ts, c).node.1)
  {
    hide Lexed, Expression, Expect, Producible, IsName;
    var dollar := Expect(ts, Expect(ts, c, LParenT).at, DeclaratorT);
    NameImage(ts, dollar.at);
    ExpressionImage(ts, Expect(ts, Expect(ts, dollar.at, IdentifierT).at, InT).at);
  }

  lemma {:induction false} FuncImage(ts: seq<Token>, c: Cursor)
    requires Stream(ts) && Lexed(ts) && In(ts, c)
    requires FuncDeclaration(ts, c).Done? && FuncDeclaration(ts, c).at.errors == c.errors
    ensures ProducibleStmt(FuncDeclaration(ts, c).node)
    decreases |ts| - c.pos, 34
  {
    hide Lexed, FuncHead, Block, AllStmts, IsName, AllNames;
    FuncHeadImage(ts, c);
    BlockImage(ts, FuncHead(ts, c).at);
  }

  lemma {:induction false} FuncHeadImage(ts: seq<Token>, c: Cursor)
    requires Stream(ts) && Lexed(ts) && In(ts, c) && FuncHead(ts, c).at.errors == c.errors
    ensures IsName(FuncHead(ts, c).node.0) && AllNames(FuncHead(ts, c).node.1)
  {
    hide Lexed, Names, Expect, IsName;
    NameImage(ts, c);
    var open := Expect(ts, Expect(ts, c, IdentifierT).at, LParenT).at;
    if !Kind(ts, open).RParenT? {
      NamesImage(ts, open, [], true);
    }
  }

  lemma {:induction false} NamesImage(ts: seq<Token>, c: Cursor, found: seq<string>, dollars: bool)
    requires Stream(ts) && Lexed(ts) && In(ts, c) && AllNames(found) && Names(ts, c, found, dollars).at.errors == c.errors
    ensures AllNames(Names(ts, c, found, dollars).node)
    decreases |ts| - c.pos
  {
    hide Lexed, Expect, Match, IsName;
    NameImage(ts, if dollars then Match(ts, c, DeclaratorT) else c);
    var name := OneName(ts, c, dollars);
    if Kind(ts, name.at).CommaT? {
      NamesImage(ts, Advance(ts, name.at), found + [name.node], dollars);
    }
  }

  lemma {:induction false} TryImage(ts: seq<Token>, c: Cursor)
    requires Stream(ts) && Lexed(ts) && In(ts, c)
    requires TryStatement(ts, c).Done? && TryStatement(ts, c).at.errors == c.errors
    ensures ProducibleStmt(TryStatement(ts, c).node)
    decreases |ts| - c.pos, 34
  {
    hide Lexed, Block, CatchHead, AllStmts, IsName;
    BlockImage(ts, c);
    var d := Block(ts, c).at;
    CatchHeadImage(ts, d);
    BlockImage(ts, CatchHead(ts, d).at);
  }

  lemma {:induction false} CatchHeadImage(ts: seq<Token>, c: Cursor)
    requires Stream(ts) && Lexed(ts) && In(ts, c) && CatchHead(ts, c).at.errors == c.errors
    ensures IsName(CatchHead(ts, c).node)
  {
    hide Lexed, Expect, Match, IsName;
    NameImage(ts, Match(ts, Expect(ts, Expect(ts, c, CatchT).at, LParenT).at, DeclaratorT));
  }

  lemma {:induction false} ClassHeadImage(ts: seq<Token>, c: Cursor)
    requires Stream(ts) && Lexed(ts) && In(ts, c) && ClassHead(ts, c).at.errors == c.errors
    ensures var (name, parent, impls) := ClassHead(ts, c).node;
            IsName(name) && (parent == "" || IsName(parent)) && AllNames(impls)
  {
    hide Lexed, Expect, Names, IsName;
    var name := Expect(ts, c, IdentifierT);
    NameImage(ts, c);
    if Kind(ts, name.at).ExtendsT? {
      NameImage(ts, Advance(ts, name.at));
    }
    var parent := if Kind(ts, name.at).ExtendsT? then Expect(ts, Advance(ts, name.at), IdentifierT)
                  else Parsed("", name.at);
    if Kind(ts, parent.at).ImplementsT? {
      NamesImage(ts, Advance(ts, parent.at), [], false);
    }
  }

  lemma {:induction false} ClassImage(ts: seq<Token>, c: Cursor)
    requires Stream(ts) && Lexed(ts) && In(ts, c)
    requires ClassDeclaration(ts, c).Done? && ClassDeclaration(ts, c).at.errors == c.errors
    ensures ProducibleStmt(ClassDeclaration(ts, c).node)
    decreases |ts| - c.pos, 34
  {
    hide Lexed, ClassHead, ClassLoop, Expect, IsName, AllNames;
    ClassHeadImage(ts, c);
    ClassLoopImage(ts, ClassHead(ts, c).at, []);
  }

  lemma {:induction false} ClassLoopImage(ts: seq<Token>, c: Cursor, found: seq<Stmt>)
    requires Stream(ts) && Lexed(ts) && In(ts, c) && AllStmts(found)
    requires ClassLoop(ts, c, found).Done? && ClassLoop(ts, c, found).at.errors == c.errors
    ensures AllStmts(ClassLoop(ts, c, found).node)
    decreases |ts| - c.pos, 32
  {
    hide Lexed, Statement, AllStmts, ProducibleStmt;
    if !Kind(ts, c).RBraceT? {
      StatementImage(ts, c);
      var s := Statement(ts, c);
      StmtsSnoc(found, s.node);
      ClassLoopImage(ts, s.at, found + [s.node]);
    }
  }

  lemma {:induction false} BlockLoopImage(ts: seq<Token>, c: Cursor, found: seq<Stmt>)
    requires Stream(ts) && Lexed(ts) && In(ts, c) && AllStmts(found)
    requires BlockLoop(ts, c, found).Done? && BlockLoop(ts, c, found).at.errors == c.errors
    ensures AllStmts(BlockLoop(ts, c, found).node)
    decreases |ts| - c.pos, 32
  {
    hide Lexed, Statement, AllStmts, ProducibleStmt;
    if !Kind(ts, c).RBraceT? && !AtEnd(ts, c) {
      StatementImage(ts, c);
      var s := Statement(ts, c);
      StmtsSnoc(found, s.node);
      BlockLoopImage(ts, s.at, found + [s.node]);
    }
  }

  lemma {:induction false} BlockImage(ts: seq<Token>, c: Cursor)
    requires Stream(ts) && Lexed(ts) && In(ts, c)
    requires Block(ts, c).Done? && Block(ts, c).at.errors == c.errors
    ensures AllStmts(Block(ts, c).node)
    decreases |ts| - c.pos, 33
  {
    hide Lexed, BlockLoop, Expect, ProducibleStmt;
    BlockLoopImage(ts, Expect(ts, c, LBraceT).at, []);
  }

  lemma {:induction false} ProgramLoopImage(ts: seq<Token>, c: Cursor, found: seq<Stmt>)
    requires Stream(ts) && Lexed(ts) && In(ts, c) && AllStmts(found)
    requires ProgramLoop(ts, c, found).Done? && ProgramLoop(ts, c, found).at.errors == c.errors
    ensures AllStmts(ProgramLoop(ts, c, found).node)
    decreases |ts| - c.pos, 36
  {
    hide Lexed, Statement, AllStmts, ProducibleStmt;
    if !AtEnd(ts, c) {
      StatementImage(ts, c);
      var s := Statement(ts, c);
      StmtsSnoc(found, s.node);
      ProgramLoopImage(ts, s.at, found + [s.node]);
    }
  }

  // ---------- the image ----------

  /** The front end reads the text without a diagnostic of the lexer or the parser. */
  ghost predicate Accepts(src: string, program: seq<Stmt>) {
    && Lex(src).errors == 0
    && FrontEnd(src).Done?
    && FrontEnd(src).node == program
    && FrontEnd(src).at.errors == 0
  }

  lemma {:induction false} AcceptedIsProducible(src: string, program: seq<Stmt>)
    requires Accepts(src, program)
    ensures AllStmts(program)
  {
    hide LexOn, ProgramLoop, ProducibleStmt;
    LexOnIsLexical(src, 0, Scan([], 0));
    var ts := LexedTokens(Lex(src).lexemes) + [Token(EndOfFileT, "")];
    ProgramLoopImage(ts, Cursor(0, 0), []);
  }

  /** The trees of the texts accepted without a diagnostic are exactly the trees the printer can write. */
  lemma {:induction false} ImageOfTheFrontEnd(program: seq<Stmt>)
    ensures AllStmts(program) <==> exists src :: Accepts(src, program)
  {
    hide Accepts, AllStmts;
    if AllStmts(program) {
      var ws := Spaced(ShowStmts(program));
      TextRoundTrip(program);
      assert Accepts(Gap([]) + Weave(ws), program) by { CanonicalIsAccepted(program, ws); }
    }
    forall src | Accepts(src, program) ensures AllStmts(program) { AcceptedIsProducible(src, program); }
  }

  lemma {:induction false} CanonicalIsAccepted(program: seq<Stmt>, ws: seq<Written>)
    requires AllStmts(program) && Spells(ws, program)
    ensures Accepts(Gap([]) + Weave(ws), program)
  {
    hide AllStmts, Spells, FrontEnd, Lex, Gap, Weave, ShowStmts;
    TextRoundTrip(program);
    assert OkGap([]);
  }
}
