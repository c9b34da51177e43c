/** Parsing the tokens of a statement or a program gives the tree back. */
module StatementRoundTrip {
  import opened Tokens
  import opened Ast
  import opened Grammar
  import opened Printing
  import opened Slices
  import opened ExpressionRoundTrip

  // ---------- first tokens ----------

  /** Tokens a statement can begin with. */
  predicate BeginsStatement(kind: TokenType) {
    || Begins(kind) || IsCompoundKeyword(kind) || IsTypeKind(kind)
    || kind.ReturnT? || kind.PrintT? || kind.BreakT? || kind.ConstT?
  }

  lemma {:induction false} BeginsNothingElse(kind: TokenType)
    requires BeginsStatement(kind)
    ensures !kind.ElseT? && !kind.RBraceT? && !kind.EndOfFileT? && !kind.SemicolonT?
    ensures Begins(kind) ==> !IsCompoundKeyword(kind) && !IsTypeKind(kind)
    ensures Begins(kind) ==> !kind.ReturnT? && !kind.PrintT? && !kind.BreakT? && !kind.ContinueT? && !kind.ConstT?
  {
  }

  lemma {:induction false} StmtBegins(s: Stmt)
    requires ProducibleStmt(s)
    ensures ShowStmt(s) != [] && BeginsStatement(ShowStmt(s)[0].kind)
  {
    hide Begins, KeywordToTokenType;
    if s.ExprStmt? {
      ShowBegins(s.expr, 0);
    }
  }

  // ---------- pieces without statements ----------

  /** An expression in front of a token that cannot extend it. */
  lemma {:induction false} ExpressionAt(ts: seq<Token>, c: Cursor, e: Expr, d: Cursor)
    requires Stream(ts) && Producible(e) && At(ts, c.pos, Show(e, 0)) && d == Ahead(c, |Show(e, 0)|)
    requires In(ts, d)
    requires Kind(ts, d).SemicolonT? || Kind(ts, d).RParenT?
    ensures Expression(ts, c) == Parsed(e, d)
  {
    hide Show, Assignment;
    ValueAt(ts, c, e);
  }

  lemma {:induction false} ExpectAt(ts: seq<Token>, c: Cursor, kind: TokenType)
    requires Stream(ts) && In(ts, c) && ts[c.pos].kind == kind && !kind.EndOfFileT?
    ensures Expect(ts, c, kind) == Parsed(ts[c.pos].value, Next(c))
    ensures Match(ts, c, kind) == Next(c)
  {
  }

  lemma {:induction false} ConditionAt(ts: seq<Token>, c: Cursor, e: Expr)
    requires Stream(ts) && Producible(e) && Stands(ts, c, ShowCondition(e))
    ensures Condition(ts, c) == Parsed(e, Ahead(c, |ShowCondition(e)|))
  {
    hide Show, Expression, Expect, Producible, At;
    AtOne(ts, c.pos, LPAREN, Show(e, 0) + [RPAREN]);
    AtTail(ts, c.pos + 1, Show(e, 0), [RPAREN]);
    var d := Ahead(c, 1 + |Show(e, 0)|);
    AtIndex(ts, d.pos, [RPAREN], 0);
    ExpectAt(ts, c, LParenT);
    ExpressionAt(ts, Next(c), e, d);
    ExpectAt(ts, d, RParenT);
  }

  lemma {:induction false} NameAt(ts: seq<Token>, c: Cursor, name: string, dollars: bool)
    requires Stream(ts) && Stands(ts, c, ShowName(name, dollars))
    ensures OneName(ts, c, dollars) == Parsed(name, Ahead(c, |ShowName(name, dollars)|))
  {
    if dollars {
      AtOne(ts, c.pos, DOLLAR, [NameToken(name)]);
      AtIndex(ts, c.pos + 1, [NameToken(name)], 0);
    } else {
      AtIndex(ts, c.pos, [NameToken(name)], 0);
    }
  }

  lemma {:induction false} NamesStep(ts: seq<Token>, c: Cursor, found: seq<string>, dollars: bool, name: string, d: Cursor)
    requires Stream(ts) && In(ts, c) && In(ts, d) && c.pos <= d.pos && OneName(ts, c, dollars) == Parsed(name, d)
    ensures !Kind(ts, d).CommaT? ==> Names(ts, c, found, dollars) == Parsed(found + [name], d)
    ensures Kind(ts, d).CommaT? && d.pos + 1 < |ts| ==>
              Names(ts, c, found, dollars) == Names(ts, Next(d), found + [name], dollars)
  {
    hide OneName;
  }

  lemma {:induction false} NamesAt(ts: seq<Token>, c: Cursor, names: seq<string>, found: seq<string>, dollars: bool)
    requires Stream(ts) && names != [] && Stands(ts, c, ShowNames(names, dollars))
    requires !ts[c.pos + |ShowNames(names, dollars)|].kind.CommaT?
    ensures Names(ts, c, found, dollars) == Parsed(found + names, Ahead(c, |ShowNames(names, dollars)|))
    decreases |names|
  {
    hide ShowName, ShowNames, At, Names, OneName;
    NamesParts(names, dollars);
    var first, rest := names[0], names[1..];
    var d := Ahead(c, |ShowName(first, dollars)|);
    if rest == [] {
      NameAt(ts, c, first, dollars);
      NamesStep(ts, c, found, dollars, first, d);
      assert found + [first] == found + names;
    } else {
      AtTail(ts, c.pos, ShowName(first, dollars), [COMMA] + ShowNames(rest, dollars));
      AtOne(ts, d.pos, COMMA, ShowNames(rest, dollars));
      NameAt(ts, c, first, dollars);
      NamesStep(ts, c, found, dollars, first, d);
      NamesAt(ts, Next(d), rest, found + [first], dollars);
      assert found + [first] + rest == found + names;
    }
  }

  lemma {:induction false} NamesParts(names: seq<string>, dollars: bool)
    requires names != []
    ensures |ShowName(names[0], dollars)| > 0
    ensures |names| == 1 ==> ShowNames(names, dollars) == ShowName(names[0], dollars)
    ensures |names| > 1 ==>
      && ShowNames(names, dollars) == ShowName(names[0], dollars) + ([COMMA] + ShowNames(names[1..], dollars))
      && |ShowNames(names, dollars)| == |ShowName(names[0], dollars)| + 1 + |ShowNames(names[1..], dollars)|
  {
  }

  lemma {:induction false} EachHeadStep(ts: seq<Token>, c: Cursor, e: Expr, d: Cursor)
    requires Stream(ts) && c.pos + 4 <= d.pos && d.pos + 1 < |ts|
    requires ts[c.pos].kind.LParenT? && ts[c.pos + 1].kind.DeclaratorT?
    requires ts[c.pos + 2].kind.IdentifierT? && ts[c.pos + 3].kind.InT?
    requires Expression(ts, Ahead(c, 4)) == Parsed(e, d) && ts[d.pos].kind.RParenT?
    ensures EachHead(ts, c) == Parsed((ts[c.pos + 2].value, e), Next(d))
  {
    hide Expression, Expect;
    ExpectAt(ts, c, LParenT);
    ExpectAt(ts, Next(c), DeclaratorT);
    ExpectAt(ts, Ahead(c, 2), IdentifierT);
    ExpectAt(ts, Ahead(c, 3), InT);
    ExpectAt(ts, d, RParenT);
  }

  lemma {:induction false} EachHeadAt(ts: seq<Token>, c: Cursor, v: string, e: Expr)
    requires Stream(ts) && Producible(e) && Stands(ts, c, ShowEachHead(v, e))
    ensures EachHead(ts, c) == Parsed((v, e), Ahead(c, |ShowEachHead(v, e)|))
  {
    hide Show, Expression, At, EachHead;
    AtFour(ts, c.pos, LPAREN, DOLLAR, NameToken(v), Token(InT, "in"), Show(e, 0) + [RPAREN]);
    AtClosed(ts, c.pos + 4, Show(e, 0), RPAREN);
    var d := Ahead(c, 4 + |Show(e, 0)|);
    ExpressionAt(ts, Ahead(c, 4), e, d);
    EachHeadStep(ts, c, e, d);
  }

  lemma {:induction false} NamesBegin(names: seq<string>, dollars: bool)
    requires names != []
    ensures ShowNames(names, dollars) != []
    ensures var k := ShowNames(names, dollars)[0].kind; k.DeclaratorT? || k.IdentifierT?
  {
  }

  lemma {:induction false} FuncHeadAt(ts: seq<Token>, c: Cursor, n: string, ps: seq<string>)
    requires Stream(ts) && Stands(ts, c, ShowFuncHead(n, ps))
    ensures FuncHead(ts, c) == Parsed((n, ps), Ahead(c, |ShowFuncHead(n, ps)|))
  {
    hide ShowNames, Names, At, Expect;
    var params := ShowNames(ps, true);
    AtTwo(ts, c.pos, NameToken(n), LPAREN, params + [RPAREN]);
    AtClosed(ts, c.pos + 2, params, RPAREN);
    var p, d := Ahead(c, 2), Ahead(c, 2 + |params|);
    ExpectAt(ts, c, IdentifierT);
    ExpectAt(ts, Next(c), LParenT);
    ExpectAt(ts, d, RParenT);
    if ps != [] {
      NamesBegin(ps, true);
      AtIndex(ts, p.pos, params, 0);
      NamesAt(ts, p, ps, [], true);
      assert [] + ps == ps;
    } else {
      assert params == [] by { NoNames(true); }
    }
  }

  lemma {:induction false} NoNames(dollars: bool)
    ensures ShowNames([], dollars) == []
  {
  }

  lemma {:induction false} CatchHeadAt(ts: seq<Token>, c: Cursor, v: string)
    requires Stream(ts) && Stands(ts, c, ShowCatchHead(v))
    ensures CatchHead(ts, c) == Parsed(v, Ahead(c, |ShowCatchHead(v)|))
  {
    hide At, Expect, Match;
    AtFour(ts, c.pos, Token(CatchT, "catch"), LPAREN, DOLLAR, NameToken(v), [RPAREN]);
    AtIndex(ts, c.pos + 4, [RPAREN], 0);
    ExpectAt(ts, c, CatchT);
    ExpectAt(ts, Next(c), LParenT);
    ExpectAt(ts, Ahead(c, 2), DeclaratorT);
    ExpectAt(ts, Ahead(c, 3), IdentifierT);
    ExpectAt(ts, Ahead(c, 4), RParenT);
  }

  /** The optional parent class, in front of something that is not `extends`. */
  lemma {:induction false} ParentAt(ts: seq<Token>, c: Cursor, p: string)
    requires Stream(ts) && Stands(ts, c, ShowParent(p))
    requires !ts[c.pos + |ShowParent(p)|].kind.ExtendsT?
    ensures (if Kind(ts, c).ExtendsT? then Expect(ts, Advance(ts, c), IdentifierT) else Parsed("", c))
         == Parsed(p, Ahead(c, |ShowParent(p)|))
  {
    if p != "" {
      AtOne(ts, c.pos, Token(ExtendsT, "extends"), [NameToken(p)]);
      AtIndex(ts, c.pos + 1, [NameToken(p)], 0);
    }
  }

  lemma {:induction false} ImplementsAt(ts: seq<Token>, c: Cursor, impls: seq<string>)
    requires Stream(ts) && Stands(ts, c, ShowImplements(impls))
    requires ts[c.pos + |ShowImplements(impls)|].kind.LBraceT?
    ensures (if Kind(ts, c).ImplementsT? then Names(ts, Advance(ts, c), [], false) else Parsed([], c))
         == Parsed(impls, Ahead(c, |ShowImplements(impls)|))
  {
    hide ShowNames, Names, At, Expect;
    if impls != [] {
      AtOne(ts, c.pos, Token(ImplementsT, "implements"), ShowNames(impls, false));
      NamesAt(ts, Next(c), impls, [], false);
      assert [] + impls == impls;
    }
  }

  lemma {:induction false} ClassHeadAt(ts: seq<Token>, c: Cursor, n: string, p: string, impls: seq<string>)
    requires Stream(ts) && Stands(ts, c, ShowClassHead(n, p, impls))
    ensures ClassHead(ts, c) == Parsed((n, p, impls), Ahead(c, |ShowClassHead(n, p, impls)|))
  {
    hide ShowParent, At, Expect, Names;
    var parent, is_ := ShowParent(p), ShowImplements(impls);
    AtOne(ts, c.pos, NameToken(n), parent + (is_ + [LBRACE]));
    AtTail(ts, c.pos + 1, parent, is_ + [LBRACE]);
    var d := Ahead(c, 1 + |parent|);
    AtTail(ts, d.pos, is_, [LBRACE]);
    var b := Ahead(d, |is_|);
    AtIndex(ts, b.pos, [LBRACE], 0);
    if impls != [] {
      AtIndex(ts, d.pos, is_, 0);
    }
    hide ShowImplements;
    ExpectAt(ts, c, IdentifierT);
    ParentAt(ts, Next(c), p);
    ImplementsAt(ts, d, impls);
    ExpectAt(ts, b, LBraceT);
  }

  // ---------- statements ----------

  /** A statement, in front of anything but `else`. */
  lemma {:induction false} StatementAt(ts: seq<Token>, c: Cursor, s: Stmt)
    requires Stream(ts) && ProducibleStmt(s) && Stands(ts, c, ShowStmt(s))
    requires !ts[c.pos + |ShowStmt(s)|].kind.ElseT?
    ensures Statement(ts, c) == Done(s, Ahead(c, |ShowStmt(s)|))
    decreases s, 3
  {
    hide ProducibleStmt, ShowStmt, Statement, Stands;
    if s.ExprStmt? || s.Return? || s.Print? {
      PlainAt(ts, c, s);
    } else if s.VarDecl? {
      VarDeclAt(ts, c, s);
    } else if s.Bare? {
      BareAt(ts, c);
    } else {
      CompoundAt(ts, c, s);
    }
  }

  lemma {:induction false} BareAt(ts: seq<Token>, c: Cursor)
    requires Stream(ts) && Stands(ts, c, ShowStmt(Bare))
    ensures Statement(ts, c) == Done(Bare, Ahead(c, |ShowStmt(Bare)|))
  {
    AtIndex(ts, c.pos, [Token(BreakT, "break")], 0);
    hide Expression, Declaration, CompoundStatement;
  }

  lemma {:induction false} PlainStep(ts: seq<Token>, c: Cursor, e: Expr, d: Cursor)
    requires Stream(ts) && In(ts, c) && d.pos + 1 < |ts| && Kind(ts, d).SemicolonT?
    ensures Begins(Kind(ts, c)) && Expression(ts, c) == Parsed(e, d) ==> Statement(ts, c) == Done(ExprStmt(e), Next(d))
    ensures c.pos + 1 < |ts| && Expression(ts, Next(c)) == Parsed(e, d) ==>
              && (Kind(ts, c).ReturnT? ==> Statement(ts, c) == Done(Return(e), Next(d)))
              && (Kind(ts, c).PrintT? ==> Statement(ts, c) == Done(Print(e), Next(d)))
  {
    if Begins(Kind(ts, c)) {
      BeginsNothingElse(Kind(ts, c));
    }
    hide Expression, Declaration, CompoundStatement, Begins;
  }

  lemma {:induction false} PlainAt(ts: seq<Token>, c: Cursor, s: Stmt)
    requires Stream(ts) && ProducibleStmt(s) && Stands(ts, c, ShowStmt(s))
    requires s.ExprStmt? || s.Return? || s.Print?
    ensures Statement(ts, c) == Done(s, Ahead(c, |ShowStmt(s)|))
  {
    hide Show, Statement, Expression, Producible, At, Begins;
    var e := if s.ExprStmt? then s.expr else if s.Return? then s.result else s.shown;
    var k := if s.ExprStmt? then 0 else 1;
    if s.Return? {
      AtOne(ts, c.pos, Token(ReturnT, "return"), Show(e, 0) + [SEMICOLON]);
    } else if s.Print? {
      AtOne(ts, c.pos, Token(PrintT, "print"), Show(e, 0) + [SEMICOLON]);
    } else {
      ShowBegins(e, 0);
    }
    AtTail(ts, c.pos + k, Show(e, 0), [SEMICOLON]);
    var d := Ahead(c, k + |Show(e, 0)|);
    AtIndex(ts, d.pos, [SEMICOLON], 0);
    AtIndex(ts, c.pos, ShowStmt(s), 0);
    ExpressionAt(ts, Ahead(c, k), e, d);
    PlainStep(ts, c, e, d);
  }

  lemma {:induction false} DeclarationStep(ts: seq<Token>, c: Cursor, a: string)
    requires Stream(ts) && c.pos + 1 < |ts| && ts[c.pos] == AnnotationToken(a) && (a == "const" || IsTypeName(a))
    ensures Statement(ts, c) == Declaration(ts, Next(c), a)
  {
    hide Expression, Declaration, CompoundStatement, KeywordToTokenType, IsWord;
  }

  lemma {:induction false} VarDeclLayout(ts: seq<Token>, c: Cursor, a: Token, n: Token, e: seq<Token>)
    requires Stands(ts, c, [a] + ([DOLLAR] + ([n] + ([EQUALS] + (e + [SEMICOLON])))))
    ensures ts[c.pos] == a && ts[c.pos + 1] == DOLLAR && ts[c.pos + 2] == n && ts[c.pos + 3] == EQUALS
    ensures At(ts, c.pos + 4, e) && c.pos + 5 + |e| < |ts| && ts[c.pos + 4 + |e|] == SEMICOLON
  {
    hide At;
    AtFour(ts, c.pos, a, DOLLAR, n, EQUALS, e + [SEMICOLON]);
    AtClosed(ts, c.pos + 4, e, SEMICOLON);
  }

  lemma {:induction false} VarDeclParts(s: Stmt)
    requires ProducibleStmt(s) && s.VarDecl?
    ensures (s.annotation == "const" || IsTypeName(s.annotation)) && Producible(s.init)
    ensures ShowStmt(s) == [AnnotationToken(s.annotation)] + ([DOLLAR] + ([NameToken(s.name)] +
      ([EQUALS] + (Show(s.init, 0) + [SEMICOLON]))))
    ensures |ShowStmt(s)| == 5 + |Show(s.init, 0)|
  {
    hide Show, Producible, IsTypeName, AnnotationToken;
  }

  lemma {:induction false} DeclarationRest(ts: seq<Token>, c: Cursor, a: string, e: Expr, d: Cursor)
    requires Stream(ts) && c.pos + 3 <= d.pos && d.pos + 1 < |ts|
    requires ts[c.pos].kind.DeclaratorT? && ts[c.pos + 1].kind.IdentifierT? && ts[c.pos + 2].kind.EqualsT?
    requires Expression(ts, Ahead(c, 3)) == Parsed(e, d) && ts[d.pos].kind.SemicolonT?
    ensures Declaration(ts, c, a) == Done(VarDecl(a, ts[c.pos + 1].value, e), Next(d))
  {
    hide Expression, Expect, Match;
    ExpectAt(ts, c, DeclaratorT);
    ExpectAt(ts, Next(c), IdentifierT);
    ExpectAt(ts, Ahead(c, 2), EqualsT);
    ExpectAt(ts, d, SemicolonT);
  }

  lemma {:induction false} VarDeclAt(ts: seq<Token>, c: Cursor, s: Stmt)
    requires Stream(ts) && ProducibleStmt(s) && Stands(ts, c, ShowStmt(s)) && s.VarDecl?
    ensures Statement(ts, c) == Done(s, Ahead(c, |ShowStmt(s)|))
  {
    hide ShowStmt, Show, Statement, Expression, Producible, At, AnnotationToken, IsTypeName;
    hide Stands, ProducibleStmt, Declaration;
    VarDeclParts(s);
    VarDeclLayout(ts, c, AnnotationToken(s.annotation), NameToken(s.name), Show(s.init, 0));
    var d := Ahead(c, 4 + |Show(s.init, 0)|);
    DeclarationStep(ts, c, s.annotation);
    ExpressionAt(ts, Ahead(c, 4), s.init, d);
    DeclarationRest(ts, Next(c), s.annotation, s.init, d);
  }

  // ---------- statements with a body ----------

  function KeywordOf(s: Stmt): TokenType
    requires !s.ExprStmt? && !s.Return? && !s.Print? && !s.VarDecl? && !s.Bare?
  {
    if s.If? then IfT
    else if s.While? then WhileT
    else if s.For? then ForT
    else if s.Each? then EachT
    else if s.FuncDecl? then DefT
    else if s.TryCatch? then TryT
    else ClassT
  }

  lemma {:induction false} CompoundAt(ts: seq<Token>, c: Cursor, s: Stmt)
    requires Stream(ts) && ProducibleStmt(s) && Stands(ts, c, ShowStmt(s))
    requires !s.ExprStmt? && !s.Return? && !s.Print? && !s.VarDecl? && !s.Bare?
    requires !ts[c.pos + |ShowStmt(s)|].kind.ElseT?
    ensures Statement(ts, c) == Done(s, Ahead(c, |ShowStmt(s)|))
    decreases s, 2
  {
    hide ProducibleStmt, Stands, CompoundStatement, ShowStmt;
    StartsWithKeyword(ts, c, s);
    assert Statement(ts, c) == CompoundStatement(ts, Next(c), KeywordOf(s));
    BodyOfAt(ts, c, s);
  }

  lemma {:induction false} StartsWithKeyword(ts: seq<Token>, c: Cursor, s: Stmt)
    requires ProducibleStmt(s) && Stands(ts, c, ShowStmt(s))
    requires !s.ExprStmt? && !s.Return? && !s.Print? && !s.VarDecl? && !s.Bare?
    ensures c.pos + 1 < |ts| && ts[c.pos].kind == KeywordOf(s)
  {
    hide ShowBlock, ShowStmts, ShowElse, ShowCondition, ShowFuncHead, ShowEachHead, ShowClassHead, ShowCatchHead, Show, At;
    AtIndex(ts, c.pos, ShowStmt(s), 0);
  }

  lemma {:induction false} BodyOfAt(ts: seq<Token>, c: Cursor, s: Stmt)
    requires Stream(ts) && ProducibleStmt(s) && Stands(ts, c, ShowStmt(s))
    requires !s.ExprStmt? && !s.Return? && !s.Print? && !s.VarDecl? && !s.Bare?
    requires !ts[c.pos + |ShowStmt(s)|].kind.ElseT?
    ensures c.pos + 1 < |ts| && CompoundStatement(ts, Next(c), KeywordOf(s)) == Done(s, Ahead(c, |ShowStmt(s)|))
    decreases s, 1
  {
    hide ProducibleStmt, Stands, ShowStmt;
    hide IfStatement, WhileStatement, ForStatement, EachStatement, FuncDeclaration, TryStatement, ClassDeclaration;
    if s.If? {
      IfAt(ts, c, s);
    } else if s.While? {
      WhileAt(ts, c, s);
    } else if s.For? {
      ForAt(ts, c, s);
    } else if s.Each? {
      EachAt(ts, c, s);
    } else if s.FuncDecl? {
      FuncAt(ts, c, s);
    } else if s.TryCatch? {
      TryAt(ts, c, s);
    } else {
      ClassAt(ts, c, s);
    }
  }

  lemma {:induction false} IfAt(ts: seq<Token>, c: Cursor, s: Stmt)
    requires Stream(ts) && ProducibleStmt(s) && Stands(ts, c, ShowStmt(s)) && s.If?
    requires !ts[c.pos + |ShowStmt(s)|].kind.ElseT?
    ensures c.pos + 1 < |ts| && IfStatement(ts, Next(c)) == Done(s, Ahead(c, |ShowStmt(s)|))
    decreases s, 0
  {
    hide Condition, ShowCondition, Block, ShowBlock, ElsePart, ShowElse, Producible, AllStmts, At;
    var cond, body, els := ShowCondition(s.condition), ShowBlock(s.body), ShowElse(s.elseBody);
    AtOne(ts, c.pos, Token(IfT, "if"), cond + (body + els));
    AtTail(ts, c.pos + 1, cond, body + els);
    var b := Ahead(c, 1 + |cond|);
    AtTail(ts, b.pos, body, els);
    ShowBlockNotEmpty(s.body);
    ConditionAt(ts, Next(c), s.condition);
    BlockAt(ts, b, s.body);
    ElseAt(ts, Ahead(b, |body|), s.elseBody);
  }

  lemma {:induction false} ShowBlockNotEmpty(ss: seq<Stmt>)
    requires AllStmts(ss)
    ensures |ShowBlock(ss)| >= 2
  {
  }

  lemma {:induction false} ElseAt(ts: seq<Token>, c: Cursor, ss: seq<Stmt>)
    requires Stream(ts) && AllStmts(ss) && Stands(ts, c, ShowElse(ss))
    requires !ts[c.pos + |ShowElse(ss)|].kind.ElseT?
    ensures ElsePart(ts, c) == Done(ss, Ahead(c, |ShowElse(ss)|))
    decreases ss, 3
  {
    hide Block, ShowBlock, AllStmts;
    if ss != [] {
      AtOne(ts, c.pos, Token(ElseT, "else"), ShowBlock(ss));
      BlockAt(ts, Next(c), ss);
    }
  }

  lemma {:induction false} WhileAt(ts: seq<Token>, c: Cursor, s: Stmt)
    requires Stream(ts) && ProducibleStmt(s) && Stands(ts, c, ShowStmt(s)) && s.While?
    ensures c.pos + 1 < |ts| && WhileStatement(ts, Next(c)) == Done(s, Ahead(c, |ShowStmt(s)|))
    decreases s, 0
  {
    hide Condition, ShowCondition, Block, ShowBlock, Producible, AllStmts, At;
    var cond, body := ShowCondition(s.condition), ShowBlock(s.body);
    AtOne(ts, c.pos, Token(WhileT, "while"), cond + body);
    AtTail(ts, c.pos + 1, cond, body);
    ShowBlockNotEmpty(s.body);
    ConditionAt(ts, Next(c), s.condition);
    BlockAt(ts, Ahead(c, 1 + |cond|), s.body);
  }

  lemma {:induction false} ForStep(ts: seq<Token>, c: Cursor, s: Stmt, d1: Cursor, d2: Cursor, d3: Cursor, d4: Cursor)
    requires Stream(ts) && s.For? && In(ts, c) && In(ts, d1) && In(ts, d2) && In(ts, d3) && In(ts, d4)
    requires c.pos < d1.pos && d1.pos <= d2.pos < d3.pos && d3.pos + 1 < |ts|
    requires Kind(ts, c).LParenT? && Statement(ts, Next(c)) == Done(s.start, d1) && !Kind(ts, d1).SemicolonT?
    requires Expression(ts, d1) == Parsed(s.condition, d2) && Kind(ts, d2).SemicolonT?
    requires Statement(ts, Next(d2)) == Done(s.update, d3) && Kind(ts, d3).RParenT?
    requires Block(ts, Next(d3)) == Done(s.body, d4)
    ensures ForStatement(ts, c) == Done(s, d4)
  {
    hide Statement, Expression, Block, Expect, Match;
    ExpectAt(ts, c, LParenT);
    NoMatch(ts, d1, SemicolonT);
    ExpectAt(ts, d2, SemicolonT);
    ExpectAt(ts, d3, RParenT);
  }

  lemma {:induction false} ForLayout(ts: seq<Token>, c: Cursor, st: seq<Token>, e: seq<Token>, u: seq<Token>, b: seq<Token>)
    requires Stands(ts, c, [Token(ForT, "for")] + ([LPAREN] + (st + (e + ([SEMICOLON] + (u + ([RPAREN] + b)))))))
    requires |b| > 0
    ensures ts[c.pos + 1] == LPAREN
    ensures Stands(ts, Ahead(c, 2), st)
    ensures Stands(ts, Ahead(c, 2 + |st|), e)
    ensures ts[c.pos + 2 + |st| + |e|] == SEMICOLON
    ensures Stands(ts, Ahead(c, 3 + |st| + |e|), u)
    ensures ts[c.pos + 3 + |st| + |e| + |u|] == RPAREN
    ensures Stands(ts, Ahead(c, 4 + |st| + |e| + |u|), b)
  {
    hide At;
    AtTwo(ts, c.pos, Token(ForT, "for"), LPAREN, st + (e + ([SEMICOLON] + (u + ([RPAREN] + b)))));
    AtTail(ts, c.pos + 2, st, e + ([SEMICOLON] + (u + ([RPAREN] + b))));
    ForLayoutTail(ts, c.pos + 2 + |st|, e, u, b);
  }

  lemma {:induction false} ForLayoutTail(ts: seq<Token>, p: nat, e: seq<Token>, u: seq<Token>, b: seq<Token>)
    requires At(ts, p, e + ([SEMICOLON] + (u + ([RPAREN] + b))))
    ensures p + 2 + |e| + |u| + |b| <= |ts|
    ensures At(ts, p, e) && ts[p + |e|] == SEMICOLON
    ensures At(ts, p + 1 + |e|, u) && ts[p + 1 + |e| + |u|] == RPAREN
    ensures At(ts, p + 2 + |e| + |u|, b)
  {
    hide At;
    AtTail(ts, p, e, [SEMICOLON] + (u + ([RPAREN] + b)));
    AtOne(ts, p + |e|, SEMICOLON, u + ([RPAREN] + b));
    AtTail(ts, p + 1 + |e|, u, [RPAREN] + b);
    AtOne(ts, p + 1 + |e| + |u|, RPAREN, b);
  }

  lemma {:induction false} ForAt(ts: seq<Token>, c: Cursor, s: Stmt)
    requires Stream(ts) && ProducibleStmt(s) && Stands(ts, c, ShowStmt(s)) && s.For?
    ensures c.pos + 1 < |ts| && ForStatement(ts, Next(c)) == Done(s, Ahead(c, |ShowStmt(s)|))
    decreases s, 0
  {
    hide ForStatement, Expression, Show, Statement, ShowStmt, Block, ShowBlock, ProducibleStmt, Producible, AllStmts;
    hide Stands, Begins;
    ForParts(s);
    ShowBlockNotEmpty(s.body);
    ForOf(ts, c, s, ShowStmt(s.start), Show(s.condition, 0), ShowStmt(s.update), ShowBlock(s.body));
  }

  lemma {:induction false} ForOf(ts: seq<Token>, c: Cursor, s: Stmt, st: seq<Token>, e: seq<Token>, u: seq<Token>, b: seq<Token>)
    requires Stream(ts) && s.For? && ProducibleStmt(s.start) && Producible(s.condition) && ProducibleStmt(s.update)
    requires AllStmts(s.body) && |b| > 0
    requires st == ShowStmt(s.start) && e == Show(s.condition, 0) && u == ShowStmt(s.update) && b == ShowBlock(s.body)
    requires Stands(ts, c, [Token(ForT, "for")] + ([LPAREN] + (st + (e + ([SEMICOLON] + (u + ([RPAREN] + b)))))))
    ensures c.pos + 1 < |ts| && ForStatement(ts, Next(c)) == Done(s, Ahead(c, 4 + |st| + |e| + |u| + |b|))
    decreases s, -1
  {
    hide ForStatement, Expression, Show, Statement, ShowStmt, Block, ShowBlock, ProducibleStmt, Producible, AllStmts;
    hide Stands, Begins;
    ForLayout(ts, c, st, e, u, b);
    var d1 := Ahead(c, 2 + |st|);
    var d2 := Ahead(c, 2 + |st| + |e|);
    var d3 := Ahead(c, 3 + |st| + |e| + |u|);
    ConditionInFor(ts, d1, s.condition);
    StatementAt(ts, Ahead(c, 2), s.start);
    StatementAt(ts, Next(d2), s.update);
    BlockAt(ts, Next(d3), s.body);
    ForStep(ts, Next(c), s, d1, d2, d3, Ahead(c, 4 + |st| + |e| + |u| + |b|));
  }

  lemma {:induction false} ConditionInFor(ts: seq<Token>, c: Cursor, e: Expr)
    requires Stream(ts) && Producible(e) && Stands(ts, c, Show(e, 0)) && ts[c.pos + |Show(e, 0)|].kind.SemicolonT?
    ensures !Kind(ts, c).ElseT? && !Kind(ts, c).SemicolonT?
    ensures Expression(ts, c) == Parsed(e, Ahead(c, |Show(e, 0)|))
  {
    hide Show, Expression, Begins, Producible, At;
    ShowBegins(e, 0);
    AtIndex(ts, c.pos, Show(e, 0), 0);
    ConditionBegins(Kind(ts, c));
    ExpressionAt(ts, c, e, Ahead(c, |Show(e, 0)|));
  }

  lemma {:induction false} ForParts(s: Stmt)
    requires ProducibleStmt(s) && s.For?
    ensures ProducibleStmt(s.start) && Producible(s.condition) && ProducibleStmt(s.update) && AllStmts(s.body)
    ensures ShowStmt(s) ==
      [Token(ForT, "for")] + ([LPAREN] + (ShowStmt(s.start) + (Show(s.condition, 0) + ([SEMICOLON] +
        (ShowStmt(s.update) + ([RPAREN] + ShowBlock(s.body)))))))
    ensures |ShowStmt(s)| ==
      4 + |ShowStmt(s.start)| + |Show(s.condition, 0)| + |ShowStmt(s.update)| + |ShowBlock(s.body)|
  {
  }

  lemma {:induction false} ConditionBegins(kind: TokenType)
    requires Begins(kind)
    ensures !kind.ElseT? && !kind.SemicolonT?
  {
  }

  lemma {:induction false} NoMatch(ts: seq<Token>, c: Cursor, kind: TokenType)
    requires Stream(ts) && In(ts, c) && Kind(ts, c) != kind
    ensures Match(ts, c, kind) == c
  {
  }

  lemma {:induction false} EachAt(ts: seq<Token>, c: Cursor, s: Stmt)
    requires Stream(ts) && ProducibleStmt(s) && Stands(ts, c, ShowStmt(s)) && s.Each?
    ensures c.pos + 1 < |ts| && EachStatement(ts, Next(c)) == Done(s, Ahead(c, |ShowStmt(s)|))
    decreases s, 0
  {
    hide EachHead, ShowEachHead, Block, ShowBlock, Producible, AllStmts, At, IsName;
    var head, body := ShowEachHead(s.varName, s.iterable), ShowBlock(s.body);
    AtOne(ts, c.pos, Token(EachT, "each"), head + body);
    AtTail(ts, c.pos + 1, head, body);
    ShowBlockNotEmpty(s.body);
    EachHeadAt(ts, Next(c), s.varName, s.iterable);
    BlockAt(ts, Ahead(c, 1 + |head|), s.body);
  }

  lemma {:induction false} FuncAt(ts: seq<Token>, c: Cursor, s: Stmt)
    requires Stream(ts) && ProducibleStmt(s) && Stands(ts, c, ShowStmt(s)) && s.FuncDecl?
    ensures c.pos + 1 < |ts| && FuncDeclaration(ts, Next(c)) == Done(s, Ahead(c, |ShowStmt(s)|))
    decreases s, 0
  {
    hide FuncHead, ShowFuncHead, Block, ShowBlock, AllStmts, At, IsName, AllNames;
    var head, body := ShowFuncHead(s.name, s.params), ShowBlock(s.body);
    AtOne(ts, c.pos, Token(DefT, "def"), head + body);
    AtTail(ts, c.pos + 1, head, body);
    ShowBlockNotEmpty(s.body);
    FuncHeadAt(ts, Next(c), s.name, s.params);
    BlockAt(ts, Ahead(c, 1 + |head|), s.body);
  }

  lemma {:induction false} TryAt(ts: seq<Token>, c: Cursor, s: Stmt)
    requires Stream(ts) && ProducibleStmt(s) && Stands(ts, c, ShowStmt(s)) && s.TryCatch?
    ensures c.pos + 1 < |ts| && TryStatement(ts, Next(c)) == Done(s, Ahead(c, |ShowStmt(s)|))
    decreases s, 0
  {
    hide CatchHead, ShowCatchHead, Block, ShowBlock, AllStmts, At, IsName;
    var body, head, handler := ShowBlock(s.tryBody), ShowCatchHead(s.catchVar), ShowBlock(s.catchBody);
    AtOne(ts, c.pos, Token(TryT, "try"), body + (head + handler));
    AtTail(ts, c.pos + 1, body, head + handler);
    var d := Ahead(c, 1 + |body|);
    AtTail(ts, d.pos, head, handler);
    ShowBlockNotEmpty(s.tryBody);
    ShowBlockNotEmpty(s.catchBody);
    BlockAt(ts, Next(c), s.tryBody);
    CatchHeadAt(ts, d, s.catchVar);
    BlockAt(ts, Ahead(d, |head|), s.catchBody);
  }

  lemma {:induction false} ClassAt(ts: seq<Token>, c: Cursor, s: Stmt)
    requires Stream(ts) && ProducibleStmt(s) && Stands(ts, c, ShowStmt(s)) && s.ClassDecl?
    ensures c.pos + 1 < |ts| && ClassDeclaration(ts, Next(c)) == Done(s, Ahead(c, |ShowStmt(s)|))
    decreases s, 0
  {
    hide ClassHead, ShowClassHead, ClassLoop, ShowStmts, AllStmts, At, IsName, AllNames, Expect;
    var head, body := ShowClassHead(s.name, s.parentClass, s.implementsClasses), ShowStmts(s.body);
    AtOne(ts, c.pos, Token(ClassT, "class"), head + (body + [RBRACE]));
    AtTail(ts, c.pos + 1, head, body + [RBRACE]);
    var d := Ahead(c, 1 + |head|);
    AtTail(ts, d.pos, body, [RBRACE]);
    var r := Ahead(d, |body|);
    AtIndex(ts, r.pos, [RBRACE], 0);
    ClassHeadAt(ts, Next(c), s.name, s.parentClass, s.implementsClasses);
    StatementsAt(ts, d, s.body, [], InClass);
    ExpectAt(ts, r, RBraceT);
    assert [] + s.body == s.body;
  }

  // ---------- statement lists ----------

  datatype Where = InBlock | InClass | InProgram

  /** The statement loop of a block, a class body or a whole program. */
  function Loop(ts: seq<Token>, c: Cursor, found: seq<Stmt>, w: Where): Result<seq<Stmt>>
    requires Stream(ts) && In(ts, c)
  {
    match w
    case InBlock => BlockLoop(ts, c, found)
    case InClass => ClassLoop(ts, c, found)
    case InProgram => ProgramLoop(ts, c, found)
  }

  lemma {:induction false} LoopStops(ts: seq<Token>, c: Cursor, found: seq<Stmt>, w: Where)
    requires Stream(ts) && In(ts, c) && if w.InProgram? then AtEnd(ts, c) else Kind(ts, c).RBraceT?
    ensures Loop(ts, c, found, w) == Done(found, c)
  {
  }

  lemma {:induction false} LoopStep(ts: seq<Token>, c: Cursor, found: seq<Stmt>, s: Stmt, d: Cursor, w: Where)
    requires Stream(ts) && In(ts, c) && In(ts, d) && c.pos < d.pos && Statement(ts, c) == Done(s, d)
    requires !Kind(ts, c).RBraceT? && !Kind(ts, c).EndOfFileT?
    ensures Loop(ts, c, found, w) == Loop(ts, d, found + [s], w)
  {
    hide Statement;
  }

  lemma {:induction false} StatementsAt(ts: seq<Token>, c: Cursor, ss: seq<Stmt>, found: seq<Stmt>, w: Where)
    requires Stream(ts) && AllStmts(ss) && Stands(ts, c, ShowStmts(ss))
    requires var k := ts[c.pos + |ShowStmts(ss)|].kind; if w.InProgram? then k.EndOfFileT? else k.RBraceT?
    ensures Loop(ts, c, found, w) == Done(found + ss, Ahead(c, |ShowStmts(ss)|))
    decreases ss, 0
  {
    hide Loop, Statement, ShowStmt, ProducibleStmt, At;
    if ss == [] {
      LoopStops(ts, c, found, w);
      assert found + ss == found;
    } else {
      var first, rest := ShowStmt(ss[0]), ShowStmts(ss[1..]);
      var d := Ahead(c, |first|);
      AtTail(ts, c.pos, first, rest);
      FirstOf(ts, c, ss[0]);
      if |ss| > 1 {
        AtTail(ts, d.pos, ShowStmt(ss[1]), ShowStmts(ss[2..]));
        FirstOf(ts, d, ss[1]);
      }
      StatementAt(ts, c, ss[0]);
      LoopStep(ts, c, found, ss[0], d, w);
      StatementsAt(ts, d, ss[1..], found + [ss[0]], w);
      assert found + [ss[0]] + ss[1..] == found + ss;
    }
  }

  lemma {:induction false} FirstOf(ts: seq<Token>, c: Cursor, s: Stmt)
    requires ProducibleStmt(s) && At(ts, c.pos, ShowStmt(s))
    ensures |ShowStmt(s)| > 0 && In(ts, c)
    ensures !Kind(ts, c).ElseT? && !Kind(ts, c).RBraceT? && !Kind(ts, c).EndOfFileT?
  {
    hide ShowStmt, BeginsStatement, ProducibleStmt;
    StmtBegins(s);
    AtIndex(ts, c.pos, ShowStmt(s), 0);
    BeginsNothingElse(Kind(ts, c));
  }

  lemma {:induction false} BlockAt(ts: seq<Token>, c: Cursor, ss: seq<Stmt>)
    requires Stream(ts) && AllStmts(ss) && Stands(ts, c, ShowBlock(ss))
    ensures Block(ts, c) == Done(ss, Ahead(c, |ShowBlock(ss)|))
    decreases ss, 2
  {
    hide BlockLoop, ShowStmts, AllStmts, At, Expect;
    AtOne(ts, c.pos, LBRACE, ShowStmts(ss) + [RBRACE]);
    AtTail(ts, c.pos + 1, ShowStmts(ss), [RBRACE]);
    var d := Ahead(c, 1 + |ShowStmts(ss)|);
    AtIndex(ts, d.pos, [RBRACE], 0);
    ExpectAt(ts, c, LBraceT);
    StatementsAt(ts, Next(c), ss, [], InBlock);
    ExpectAt(ts, d, RBraceT);
    assert [] + ss == ss;
  }

  /**
   * Every program the grammar can produce, written as tokens and closed by the end marker, is parsed
   * back to itself without a diagnostic, and the parser stops at the end marker.
   */
  lemma {:induction false} TokensRoundTrip(program: seq<Stmt>)
    requires AllStmts(program)
    ensures var ts := ShowStmts(program) + [Token(EndOfFileT, "")];
            Program(ts) == Done(program, Cursor(|ts| - 1, 0))
  {
    hide ShowStmts, AllStmts;
    var ts := ShowStmts(program) + [Token(EndOfFileT, "")];
    assert ts[0..0 + |ShowStmts(program)|] == ShowStmts(program);
    StatementsAt(ts, Cursor(0, 0), program, [], InProgram);
    assert [] + program == program;
  }
}
