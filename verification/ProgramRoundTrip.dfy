/** From a syntax tree to program text and back: the lexer and the parser together undo the printer. */
module ProgramRoundTrip {
  import opened Tokens
  import opened Ast
  import opened Grammar
  import opened Printing
  import opened Scanning
  import opened Layout
  import StatementRoundTrip

  ghost predicate AllWritable(ts: seq<Token>) {
    forall k :: 0 <= k < |ts| ==> Writable(ts[k])
  }

  lemma {:induction false} Join(a: seq<Token>, b: seq<Token>)
    requires AllWritable(a) && AllWritable(b)
    ensures AllWritable(a + b)
  {
    hide Writable;
  }

  // ---------- single tokens ----------

  lemma {:induction false} WordIsNoLiteral(s: string)
    ensures !KeywordToTokenType(s).StringT? && !KeywordToTokenType(s).NumberT?
  {
  }

  lemma {:induction false} WordIsRecognized(s: string)
    ensures !KeywordToTokenType(s).DeclaratorT? && !KeywordToTokenType(s).UnrecognizedT?
  {
  }

  lemma {:induction false} WordIsWritable(s: string)
    requires IsWord(s)
    ensures Writable(Token(KeywordToTokenType(s), s))
  {
    WordIsNoLiteral(s);
    WordIsRecognized(s);
    hide KeywordToTokenType;
    assert Renders(s, Token(KeywordToTokenType(s), s));
  }

  lemma {:induction false} LoopWords()
    ensures IsWord("if") && KeywordToTokenType("if").IfT?
    ensures IsWord("else") && KeywordToTokenType("else").ElseT?
    ensures IsWord("while") && KeywordToTokenType("while").WhileT?
    ensures IsWord("for") && KeywordToTokenType("for").ForT?
    ensures IsWord("each") && KeywordToTokenType("each").EachT?
    ensures IsWord("in") && KeywordToTokenType("in").InT?
  {
  }

  lemma {:induction false} BodyWords()
    ensures IsWord("break") && KeywordToTokenType("break").BreakT?
    ensures IsWord("def") && KeywordToTokenType("def").DefT?
  {
  }

  lemma {:induction false} ResultWords()
    ensures IsWord("return") && KeywordToTokenType("return").ReturnT?
    ensures IsWord("print") && KeywordToTokenType("print").PrintT?
  {
  }

  lemma {:induction false} TryWords()
    ensures IsWord("try") && KeywordToTokenType("try").TryT?
    ensures IsWord("catch") && KeywordToTokenType("catch").CatchT?
  {
  }

  lemma {:induction false} ConstWord()
    ensures IsWord("const") && KeywordToTokenType("const").ConstT?
  {
  }

  lemma {:induction false} ClassWord()
    ensures IsWord("class") && KeywordToTokenType("class").ClassT?
  {
  }

  lemma {:induction false} ExtendsWord()
    ensures IsWord("extends") && KeywordToTokenType("extends").ExtendsT?
  {
  }

  lemma {:induction false} ImplementsWord()
    ensures IsWord("implements") && KeywordToTokenType("implements").ImplementsT?
  {
  }

  lemma {:induction false} NamespaceWords()
    ensures IsWord("db") && KeywordToTokenType("db").DbT?
    ensures IsWord("fetch") && KeywordToTokenType("fetch").FetchT?
  {
  }

  lemma {:induction false} SuperWord()
    ensures IsWord("super") && KeywordToTokenType("super").SuperT?
  {
  }

  lemma {:induction false} TrueWord()
    ensures IsWord("true") && KeywordToTokenType("true").TrueT?
  {
  }

  lemma {:induction false} FalseWord()
    ensures IsWord("false") && KeywordToTokenType("false").FalseT?
  {
  }

  lemma {:induction false} NullWord()
    ensures IsWord("null") && KeywordToTokenType("null").NullT?
  {
  }

  lemma {:induction false} KeywordIsWritable(s: string, kind: TokenType)
    requires IsWord(s) && KeywordToTokenType(s) == kind
    ensures AllWritable([Token(kind, s)])
  {
    hide KeywordToTokenType, IsWord, Renders;
    WordIsWritable(s);
  }

  lemma {:induction false} BinaryIsWritable(op: TokenType)
    requires LevelOf(op) > 0
    ensures Writable(Operator(op))
  {
    hide KeywordToTokenType;
    assert Renders(OperatorText(op), Operator(op));
  }

  lemma {:induction false} CompoundIsWritable(op: TokenType)
    requires IsCompound(op)
    ensures Writable(Operator(op))
  {
    hide KeywordToTokenType;
    assert Renders(OperatorText(op), Operator(op));
  }

  lemma {:induction false} NotIsWritable()
    ensures Writable(Operator(NotT))
  {
    assert Renders("!", Operator(NotT));
  }

  lemma {:induction false} OperatorIsWritable(op: TokenType)
    requires LevelOf(op) > 0 || IsCompound(op) || op.NotT?
    ensures AllWritable([Operator(op)])
  {
    hide Writable, LevelOf, IsCompound, Operator;
    if LevelOf(op) > 0 {
      BinaryIsWritable(op);
    } else if IsCompound(op) {
      CompoundIsWritable(op);
    } else {
      NotIsWritable();
    }
  }

  lemma {:induction false} DelimiterIsWritable(c: char, kind: TokenType)
    requires CharToTokenType(c) == kind && !kind.UnrecognizedT? && !IsWordStart(c)
    ensures AllWritable([Token(kind, [c])])
  {
    assert Renders([c], Token(kind, [c]));
  }

  lemma {:induction false} BracketsAreWritable()
    ensures AllWritable([LPAREN]) && AllWritable([RPAREN]) && AllWritable([LBRACKET]) && AllWritable([RBRACKET])
    ensures AllWritable([LBRACE]) && AllWritable([RBRACE])
  {
    hide AllWritable;
    DelimiterIsWritable('(', LParenT);
    DelimiterIsWritable(')', RParenT);
    DelimiterIsWritable('[', LBracketT);
    DelimiterIsWritable(']', RBracketT);
    DelimiterIsWritable('{', LBraceT);
    DelimiterIsWritable('}', RBraceT);
  }

  lemma {:induction false} MarksAreWritable()
    ensures AllWritable([COMMA]) && AllWritable([COLON]) && AllWritable([SEMICOLON])
    ensures AllWritable([DOT]) && AllWritable([EQUALS]) && AllWritable([DOLLAR])
  {
    hide AllWritable, Renders;
    DelimiterIsWritable(',', CommaT);
    DelimiterIsWritable(':', ColonT);
    DelimiterIsWritable(';', SemicolonT);
    DelimiterIsWritable('.', DotT);
    DelimiterIsWritable('=', EqualsT);
    DollarIsWritable();
  }

  lemma {:induction false} DollarIsWritable()
    ensures AllWritable([DOLLAR])
  {
    assert Renders("$", DOLLAR);
  }

  lemma {:induction false} StringIsWritable(s: string)
    ensures AllWritable([Token(StringT, s)])
  {
    EscapeDecodes(s);
    var text := "\"" + EscapeAll(s) + "\"";
    assert text[1..|text| - 1] == EscapeAll(s);
    assert Renders(text, Token(StringT, s));
  }

  lemma {:induction false} NumberIsWritable(r: real)
    requires IsDecimal(r)
    ensures AllWritable([Token(NumberT, Printing.Lexeme(r))])
  {
    assert Renders(Printing.Lexeme(r), Token(NumberT, Printing.Lexeme(r)));
  }

  lemma {:induction false} NameIsWritable(n: string)
    requires IsName(n)
    ensures AllWritable([NameToken(n)])
  {
    KeywordIsWritable(n, IdentifierT);
  }

  lemma {:induction false} VariableIsWritable(n: string)
    requires IsVariableName(n)
    ensures AllWritable([VariableToken(n)])
  {
    hide KeywordToTokenType, AllWritable;
    if n == "db" || n == "fetch" {
      NamespaceWords();
      KeywordIsWritable(n, if n == "db" then DbT else FetchT);
    } else if n == "super" {
      SuperWord();
      KeywordIsWritable(n, SuperT);
    } else {
      NameIsWritable(n);
    }
  }

  lemma {:induction false} PropertyIsWritable(p: string)
    requires IsPropertyName(p)
    ensures AllWritable([PropertyToken(p)])
  {
    KeywordIsWritable(p, KeywordToTokenType(p));
  }

  lemma {:induction false} AnnotationIsWritable(a: string)
    requires a == "const" || IsTypeName(a)
    ensures AllWritable([AnnotationToken(a)])
  {
    hide AllWritable, KeywordToTokenType;
    if a == "const" {
      ConstWord();
      KeywordIsWritable(a, ConstT);
    } else {
      KeywordIsWritable(a, KeywordToTokenType(a));
    }
  }

  // ---------- expressions ----------

  lemma {:induction false} AtomIsWritable(e: Expr)
    requires Producible(e) && (e.Number? || e.Str? || e.Bool? || e.Null? || e.Variable?)
    ensures AllWritable(Body(e))
  {
    hide KeywordToTokenType, IsWord, Writable, AllWritable, IsDecimal, IsVariableName;
    match e
    case Number(r) => NumberIsWritable(r);
    case Str(s) => StringIsWritable(s);
    case Bool(_) => TrueWord(); FalseWord(); KeywordIsWritable("true", TrueT); KeywordIsWritable("false", FalseT);
    case Null => NullWord(); KeywordIsWritable("null", NullT);
    case Variable(n) => VariableIsWritable(n);
  }

  lemma {:induction false} BodyIsWritable(e: Expr)
    requires Producible(e)
    ensures AllWritable(Body(e))
    decreases e, 1
  {
    hide Producible, AllWritable, Body;
    if e.Number? || e.Str? || e.Bool? || e.Null? || e.Variable? {
      AtomIsWritable(e);
    } else if e.Assign? || e.IndexAssign? || e.DictAssign? {
      AssignmentIsWritable(e);
    } else if e.Binary? || e.Unary? {
      OperationIsWritable(e);
    } else if e.List? || e.Dict? || e.Super? {
      BracketedIsWritable(e);
    } else {
      PostfixIsWritable(e);
    }
  }

  lemma {:induction false} AssignmentIsWritable(e: Expr)
    requires Producible(e) && (e.Assign? || e.IndexAssign? || e.DictAssign?)
    ensures AllWritable(Body(e))
    decreases e, 0
  {
    hide KeywordToTokenType, IsWord, Writable, IsVariableName, Show, IsCompound, VariableToken, PropertyToken, Operator;
    BracketsAreWritable();
    MarksAreWritable();
    match e
    case Assign(t, v) =>
      VariableIsWritable(t);
      if IsCompoundForm(t, v) {
        OperatorIsWritable(v.op);
        ShowIsWritable(v.right, 0);
      } else {
        ShowIsWritable(v, 0);
      }
    case IndexAssign(o, i, v) => ShowIsWritable(o, 8); ShowIsWritable(i, 0); ShowIsWritable(v, 0);
    case DictAssign(o, k, v) => ShowIsWritable(o, 8); PropertyIsWritable(k); ShowIsWritable(v, 0);
  }

  lemma {:induction false} OperationIsWritable(e: Expr)
    requires Producible(e) && (e.Binary? || e.Unary?)
    ensures AllWritable(Body(e))
    decreases e, 0
  {
    hide Writable, Show, LevelOf, Operator;
    match e
    case Binary(op, l, r) => ShowIsWritable(l, LevelOf(op)); OperatorIsWritable(op); ShowIsWritable(r, LevelOf(op) + 1);
    case Unary(op, x) => UnaryIsWritable(op); ShowIsWritable(x, 7);
  }

  lemma {:induction false} BracketedIsWritable(e: Expr)
    requires Producible(e) && (e.List? || e.Dict? || e.Super?)
    ensures AllWritable(Body(e))
    decreases e, 0
  {
    hide KeywordToTokenType, IsWord, Writable, ShowAll, ShowPairs;
    BracketsAreWritable();
    match e
    case List(es) => AllAreWritable(es);
    case Dict(ps) => PairsAreWritable(ps);
    case Super(args) => SuperWord(); KeywordIsWritable("super", SuperT); AllAreWritable(args);
  }

  lemma {:induction false} PostfixIsWritable(e: Expr)
    requires Producible(e) && (e.Call? || e.Dot? || e.Index?)
    ensures AllWritable(Body(e))
    decreases e, 0
  {
    hide KeywordToTokenType, IsWord, Writable, Show, ShowAll, PropertyToken;
    BracketsAreWritable();
    MarksAreWritable();
    match e
    case Call(f, args) => ShowIsWritable(f, 8); ShowIsWritable(f, 9); AllAreWritable(args);
    case Dot(o, p) => ShowIsWritable(o, 8); PropertyIsWritable(p);
    case Index(o, i) => ShowIsWritable(o, 8); ShowIsWritable(i, 0);
  }

  lemma {:induction false} UnaryIsWritable(op: TokenType)
    requires op.NotT? || op.MinusT?
    ensures AllWritable([Operator(op)])
  {
    hide Writable;
    OperatorIsWritable(op);
  }

  lemma {:induction false} ShowIsWritable(e: Expr, level: nat)
    requires Producible(e)
    ensures AllWritable(Show(e, level))
    decreases e, 2
  {
    hide Writable, Body;
    BodyIsWritable(e);
    BracketsAreWritable();
  }

  lemma {:induction false} AllAreWritable(es: seq<Expr>)
    requires AllProducible(es)
    ensures AllWritable(ShowAll(es))
    decreases es
  {
    hide Writable, Show;
    if es != [] {
      ShowIsWritable(es[0], 0);
      AllAreWritable(es[1..]);
      MarksAreWritable();
    }
  }

  lemma {:induction false} PairsAreWritable(ps: seq<Pair>)
    requires PairsProducible(ps)
    ensures AllWritable(ShowPairs(ps))
    decreases ps
  {
    hide Writable, Show;
    if ps != [] {
      StringIsWritable(ps[0].key);
      ShowIsWritable(ps[0].value, 0);
      PairsAreWritable(ps[1..]);
      MarksAreWritable();
    }
  }

  // ---------- statements ----------

  lemma {:induction false} NamesAreWritable(names: seq<string>, dollars: bool)
    requires AllNames(names)
    ensures AllWritable(ShowNames(names, dollars))
  {
    hide Writable, IsName;
    if names != [] {
      NameIsWritable(names[0]);
      NamesAreWritable(names[1..], dollars);
      MarksAreWritable();
    }
  }

  lemma {:induction false} KeywordsAreWritable()
    ensures AllWritable([Token(IfT, "if")]) && AllWritable([Token(ElseT, "else")]) && AllWritable([Token(WhileT, "while")])
    ensures AllWritable([Token(ForT, "for")]) && AllWritable([Token(EachT, "each")]) && AllWritable([Token(InT, "in")])
    ensures AllWritable([Token(BreakT, "break")]) && AllWritable([Token(DefT, "def")])
    ensures AllWritable([Token(ReturnT, "return")]) && AllWritable([Token(PrintT, "print")])
    ensures AllWritable([Token(TryT, "try")]) && AllWritable([Token(CatchT, "catch")])
  {
    hide KeywordToTokenType, IsWord, AllWritable;
    LoopWords();
    BodyWords();
    ResultWords();
    TryWords();
    KeywordIsWritable("if", IfT);
    KeywordIsWritable("else", ElseT);
    KeywordIsWritable("while", WhileT);
    KeywordIsWritable("for", ForT);
    KeywordIsWritable("each", EachT);
    KeywordIsWritable("in", InT);
    KeywordIsWritable("break", BreakT);
    KeywordIsWritable("def", DefT);
    KeywordIsWritable("return", ReturnT);
    KeywordIsWritable("print", PrintT);
    KeywordIsWritable("try", TryT);
    KeywordIsWritable("catch", CatchT);
  }

  lemma {:induction false} ClassHeadIsWritable(n: string, p: string, impls: seq<string>)
    requires IsName(n) && (p == "" || IsName(p)) && AllNames(impls)
    ensures AllWritable([Token(ClassT, "class")]) && AllWritable(ShowClassHead(n, p, impls))
  {
    hide Writable, IsName, KeywordToTokenType, IsWord, ShowNames;
    ClassWord();
    ExtendsWord();
    ImplementsWord();
    KeywordIsWritable("class", ClassT);
    KeywordIsWritable("extends", ExtendsT);
    KeywordIsWritable("implements", ImplementsT);
    BracketsAreWritable();
    NameIsWritable(n);
    if p != "" {
      NameIsWritable(p);
    }
    NamesAreWritable(impls, false);
  }

  lemma {:induction false} StatementIsWritable(s: Stmt)
    requires ProducibleStmt(s)
    ensures AllWritable(ShowStmt(s))
    decreases s, 1
  {
    hide ProducibleStmt, AllWritable, ShowStmt;
    if s.If? || s.While? || s.For? || s.Each? {
      ControlIsWritable(s);
    } else if s.FuncDecl? || s.TryCatch? || s.ClassDecl? {
      DefinitionIsWritable(s);
    } else {
      PlainIsWritable(s);
    }
  }

  lemma {:induction false} PlainIsWritable(s: Stmt)
    requires ProducibleStmt(s) && (s.ExprStmt? || s.VarDecl? || s.Return? || s.Print? || s.Bare?)
    ensures AllWritable(ShowStmt(s))
  {
    hide Writable, Producible, IsName, IsTypeName, AnnotationToken, Show;
    MarksAreWritable();
    KeywordsAreWritable();
    match s
    case ExprStmt(e) => ShowIsWritable(e, 0);
    case VarDecl(a, n, e) => AnnotationIsWritable(a); NameIsWritable(n); ShowIsWritable(e, 0);
    case Return(e) => ShowIsWritable(e, 0);
    case Print(e) => ShowIsWritable(e, 0);
    case Bare =>
  }

  lemma {:induction false} ControlIsWritable(s: Stmt)
    requires ProducibleStmt(s) && (s.If? || s.While? || s.For? || s.Each?)
    ensures AllWritable(ShowStmt(s))
    decreases s, 0
  {
    hide Writable, Producible, AllStmts, IsName, Show, ShowBlock, ShowElse;
    BracketsAreWritable();
    MarksAreWritable();
    KeywordsAreWritable();
    match s
    case If(c, b, els) => ShowIsWritable(c, 0); BlockIsWritable(b); BlockIsWritable(els);
    case While(c, b) => ShowIsWritable(c, 0); BlockIsWritable(b);
    case For(st, c, u, b) =>
      StatementIsWritable(st); ShowIsWritable(c, 0); StatementIsWritable(u); BlockIsWritable(b);
    case Each(v, e, b) => NameIsWritable(v); ShowIsWritable(e, 0); BlockIsWritable(b);
  }

  lemma {:induction false} DefinitionIsWritable(s: Stmt)
    requires ProducibleStmt(s) && (s.FuncDecl? || s.TryCatch? || s.ClassDecl?)
    ensures AllWritable(ShowStmt(s))
    decreases s, 0
  {
    hide Writable, AllStmts, IsName, AllNames, ShowNames, ShowClassHead, ShowBlock, ShowStmts;
    BracketsAreWritable();
    MarksAreWritable();
    KeywordsAreWritable();
    match s
    case FuncDecl(n, ps, b) => NameIsWritable(n); NamesAreWritable(ps, true); BlockIsWritable(b);
    case TryCatch(b, v, h) => NameIsWritable(v); BlockIsWritable(b); BlockIsWritable(h);
    case ClassDecl(n, p, impls, b) => ClassHeadIsWritable(n, p, impls); StatementsAreWritable(b);
  }

  lemma {:induction false} BlockIsWritable(ss: seq<Stmt>)
    requires AllStmts(ss)
    ensures AllWritable(ShowBlock(ss)) && AllWritable(ShowElse(ss))
    decreases ss, 2
  {
    hide Writable, ShowStmts;
    StatementsAreWritable(ss);
    BracketsAreWritable();
    KeywordsAreWritable();
  }

  lemma {:induction false} StatementsAreWritable(ss: seq<Stmt>)
    requires AllStmts(ss)
    ensures AllWritable(ShowStmts(ss))
    decreases ss, 1
  {
    hide Writable, ShowStmt;
    if ss != [] {
      StatementIsWritable(ss[0]);
      StatementsAreWritable(ss[1..]);
    }
  }

  // ---------- the round trip ----------

  /** A program together with the way it is written down. */
  ghost predicate Spells(ws: seq<Written>, program: seq<Stmt>)
    requires AllStmts(program)
  {
    Fits(ws) && TokensOf(ws) == ShowStmts(program)
  }

  /** What the front end makes of a text: `tokenize`, then `parse`. */
  function FrontEnd(src: string): Result<seq<Stmt>> {
    var ts := LexedTokens(Lex(src).lexemes) + [Token(EndOfFileT, "")];
    assert ts[|ts| - 1] == Token(EndOfFileT, "");
    Program(ts)
  }

  /**
   * Every program the grammar can produce has a text, and every text of it, whatever quotes, escapes,
   * blanks and comments are chosen, is read back as that program, without a diagnostic of the lexer or the
   * parser.
   */
  lemma {:induction false} TextRoundTrip(program: seq<Stmt>)
    requires AllStmts(program)
    ensures Spells(Spaced(ShowStmts(program)), program)
    ensures forall lead: seq<Trivium>, ws: seq<Written> | OkGap(lead) && Spells(ws, program) ::
              var src := Gap(lead) + Weave(ws);
              && Lex(src).errors == 0
              && FrontEnd(src) == Done(program, Cursor(|ShowStmts(program)|, 0))
  {
    hide Lex, Program, ShowStmts, AllStmts;
    StatementsAreWritable(program);
    SpacedFits(ShowStmts(program));
    forall lead: seq<Trivium>, ws: seq<Written> | OkGap(lead) && Spells(ws, program)
      ensures var src := Gap(lead) + Weave(ws);
              && Lex(src).errors == 0
              && FrontEnd(src) == Done(program, Cursor(|ShowStmts(program)|, 0))
    {
      LayoutRoundTrip(lead, ws);
      StatementRoundTrip.TokensRoundTrip(program);
    }
  }
}
