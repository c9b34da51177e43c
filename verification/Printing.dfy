/** Syntax trees written back as tokens, with parentheses only where the grammar needs them. */
module Printing {
  import opened Tokens
  import opened Ast
  import opened Grammar
  import opened Layout

  const LPAREN := Token(LParenT, "(")
  const RPAREN := Token(RParenT, ")")
  const LBRACKET := Token(LBracketT, "[")
  const RBRACKET := Token(RBracketT, "]")
  const LBRACE := Token(LBraceT, "{")
  const RBRACE := Token(RBraceT, "}")
  const COMMA := Token(CommaT, ",")
  const COLON := Token(ColonT, ":")
  const SEMICOLON := Token(SemicolonT, ";")
  const DOT := Token(DotT, ".")
  const EQUALS := Token(EqualsT, "=")
  const DOLLAR := Token(DeclaratorT, "$")

  // ---------- which trees have a text ----------

  ghost predicate IsName(s: string) {
    IsWord(s) && KeywordToTokenType(s).IdentifierT?
  }

  ghost predicate IsVariableName(s: string) {
    IsName(s) || s == "db" || s == "fetch" || s == "super"
  }

  ghost predicate IsPropertyName(s: string) {
    IsWord(s) && IsPropertyKind(KeywordToTokenType(s))
  }

  /** The value of some number literal. */
  ghost predicate IsDecimal(r: real) {
    exists s :: IsNumberLexeme(s) && NumberValue(s) == r
  }

  ghost function Lexeme(r: real): (s: string)
    requires IsDecimal(r)
    ensures IsNumberLexeme(s) && NumberValue(s) == r
  {
    var s :| IsNumberLexeme(s) && NumberValue(s) == r; s
  }

  /** `name op= right`, which the parser expands. */
  predicate IsCompoundForm(target: string, value: Expr) {
    value.Binary? && IsCompound(value.op) && value.left == Variable(target)
  }

  /** A tree the expression grammar can produce without a diagnostic. */
  ghost predicate Producible(e: Expr) {
    match e
    case Number(r) => IsDecimal(r)
    case Str(_) => true
    case Bool(_) => true
    case Null => true
    case List(es) => AllProducible(es)
    case Dict(ps) => PairsProducible(ps)
    case Variable(n) => IsVariableName(n)
    case Assign(t, v) => IsVariableName(t) && if IsCompoundForm(t, v) then Producible(v.right) else Producible(v)
    case IndexAssign(o, i, v) => Producible(o) && Producible(i) && Producible(v)
    case DictAssign(o, k, v) => Producible(o) && IsPropertyName(k) && Producible(v)
    case Binary(op, l, r) => LevelOf(op) > 0 && Producible(l) && Producible(r)
    case Unary(op, x) => (op.NotT? || op.MinusT?) && Producible(x)
    case Call(f, args) => Producible(f) && AllProducible(args)
    case Dot(o, p) => Producible(o) && IsPropertyName(p)
    case Index(o, i) => Producible(o) && Producible(i)
    case Super(args) => AllProducible(args)
  }

  ghost predicate AllProducible(es: seq<Expr>) {
    es != [] ==> Producible(es[0]) && AllProducible(es[1..])
  }

  ghost predicate PairsProducible(ps: seq<Pair>) {
    ps != [] ==> Producible(ps[0].value) && PairsProducible(ps[1..])
  }

  /** The type names of declarations. */
  ghost predicate IsTypeName(s: string) {
    IsWord(s) && IsTypeKind(KeywordToTokenType(s))
  }

  ghost predicate AllNames(names: seq<string>) {
    forall k :: 0 <= k < |names| ==> IsName(names[k])
  }

  /** A statement the grammar can produce without a diagnostic. */
  ghost predicate ProducibleStmt(s: Stmt) {
    match s
    case ExprStmt(e) => Producible(e)
    case VarDecl(a, n, e) => (a == "const" || IsTypeName(a)) && IsName(n) && Producible(e)
    case If(c, b, els) => Producible(c) && AllStmts(b) && AllStmts(els)
    case While(c, b) => Producible(c) && AllStmts(b)
    case For(st, c, u, b) => ProducibleStmt(st) && Producible(c) && ProducibleStmt(u) && AllStmts(b)
    case Each(v, e, b) => IsName(v) && Producible(e) && AllStmts(b)
    case FuncDecl(n, ps, b) => IsName(n) && AllNames(ps) && AllStmts(b)
    case Return(e) => Producible(e)
    case Print(e) => Producible(e)
    case TryCatch(b, v, h) => AllStmts(b) && IsName(v) && AllStmts(h)
    case ClassDecl(n, p, impls, b) => IsName(n) && (p == "" || IsName(p)) && AllNames(impls) && AllStmts(b)
    case Bare => true
  }

  ghost predicate AllStmts(ss: seq<Stmt>) {
    ss != [] ==> ProducibleStmt(ss[0]) && AllStmts(ss[1..])
  }

  // ---------- expressions ----------

  /** How tightly a tree binds: the grammar level that produces it without parentheses. */
  function Binding(e: Expr): (level: nat)
    ensures level <= 8
  {
    if e.Assign? || e.IndexAssign? || e.DictAssign? then 0
    else if e.Binary? then LevelOf(e.op)
    else if e.Unary? then 7
    else 8
  }

  function OperatorText(op: TokenType): string {
    if op.OrT? then "||"
    else if op.AndT? then "&&"
    else if op.EqualToT? then "=="
    else if op.NotEqualToT? then "!="
    else if op.GreaterT? then ">"
    else if op.GreaterEqualT? then ">="
    else if op.LessT? then "<"
    else if op.LessEqualT? then "<="
    else if op.PlusT? then "+"
    else if op.MinusT? then "-"
    else if op.MultiplyT? then "*"
    else if op.DivideT? then "/"
    else if op.ModuloT? then "%"
    else if op.PlusEqualsT? then "+="
    else if op.MinusEqualsT? then "-="
    else if op.MultiplyEqualsT? then "*="
    else if op.DivideEqualsT? then "/="
    else "!"
  }

  function Operator(op: TokenType): (t: Token)
    ensures t.kind == op
  {
    Token(op, OperatorText(op))
  }

  function NameToken(n: string): Token {
    Token(IdentifierT, n)
  }

  function VariableToken(n: string): (t: Token)
    ensures t.kind.IdentifierT? || t.kind.DbT? || t.kind.FetchT? || t.kind.SuperT?
    ensures t.kind.SuperT? <==> n == "super"
  {
    if n == "db" then Token(DbT, n)
    else if n == "fetch" then Token(FetchT, n)
    else if n == "super" then Token(SuperT, n)
    else NameToken(n)
  }

  function PropertyToken(p: string): Token {
    Token(KeywordToTokenType(p), p)
  }

  /** The tokens of `e` where the grammar expects something of at least this level. */
  ghost function Show(e: Expr, level: nat): seq<Token>
    requires Producible(e)
    decreases e, 1
  {
    if Binding(e) < level then [LPAREN] + (Body(e) + [RPAREN]) else Body(e)
  }

  /** A callee; `super` needs parentheses, or it would be a call of the parent's constructor. */
  ghost function ShowCallee(e: Expr): seq<Token>
    requires Producible(e)
    decreases e, 2
  {
    if e == Variable("super") then Show(e, 9) else Show(e, 8)
  }

  ghost function Body(e: Expr): seq<Token>
    requires Producible(e)
    decreases e, 0
  {
    match e
    case Number(r) => [Token(NumberT, Lexeme(r))]
    case Str(s) => [Token(StringT, s)]
    case Bool(b) => [if b then Token(TrueT, "true") else Token(FalseT, "false")]
    case Null => [Token(NullT, "null")]
    case List(es) => [LBRACKET] + (ShowAll(es) + [RBRACKET])
    case Dict(ps) => [LBRACE] + (ShowPairs(ps) + [RBRACE])
    case Variable(n) => [VariableToken(n)]
    case Assign(t, v) =>
      if IsCompoundForm(t, v) then [VariableToken(t)] + ([Operator(v.op)] + Show(v.right, 0))
      else [VariableToken(t)] + ([EQUALS] + Show(v, 0))
    case IndexAssign(o, i, v) =>
      Show(o, 8) + ([LBRACKET] + (Show(i, 0) + ([RBRACKET] + ([EQUALS] + Show(v, 0)))))
    case DictAssign(o, k, v) => Show(o, 8) + ([DOT] + ([PropertyToken(k)] + ([EQUALS] + Show(v, 0))))
    case Binary(op, l, r) => Show(l, LevelOf(op)) + ([Operator(op)] + Show(r, LevelOf(op) + 1))
    case Unary(op, x) => [Operator(op)] + Show(x, 7)
    case Call(f, args) => ShowCallee(f) + ([LPAREN] + (ShowAll(args) + [RPAREN]))
    case Dot(o, p) => Show(o, 8) + ([DOT] + [PropertyToken(p)])
    case Index(o, i) => Show(o, 8) + ([LBRACKET] + (Show(i, 0) + [RBRACKET]))
    case Super(args) => [Token(SuperT, "super")] + ([LPAREN] + (ShowAll(args) + [RPAREN]))
  }

  ghost function ShowAll(es: seq<Expr>): seq<Token>
    requires AllProducible(es)
    decreases es
  {
    if es == [] then []
    else if |es| == 1 then Show(es[0], 0)
    else Show(es[0], 0) + ([COMMA] + ShowAll(es[1..]))
  }

  ghost function ShowPairs(ps: seq<Pair>): seq<Token>
    requires PairsProducible(ps)
    decreases ps, 1
  {
    if ps == [] then []
    else if |ps| == 1 then ShowPair(ps[0])
    else ShowPair(ps[0]) + ([COMMA] + ShowPairs(ps[1..]))
  }

  ghost function ShowPair(p: Pair): seq<Token>
    requires Producible(p.value)
    decreases p
  {
    [Token(StringT, p.key)] + ([COLON] + Show(p.value, 0))
  }

  // ---------- statements ----------

  /** The type name or `const` in front of a declaration. */
  function AnnotationToken(a: string): Token {
    if a == "const" then Token(ConstT, a) else Token(KeywordToTokenType(a), a)
  }

  /** Parameters carry a `$`, class names do not. */
  function ShowNames(names: seq<string>, dollars: bool): seq<Token> {
    if names == [] then []
    else if |names| == 1 then ShowName(names[0], dollars)
    else ShowName(names[0], dollars) + ([COMMA] + ShowNames(names[1..], dollars))
  }

  function ShowName(name: string, dollar: bool): seq<Token> {
    if dollar then [DOLLAR] + [NameToken(name)] else [NameToken(name)]
  }

  ghost function ShowCondition(e: Expr): seq<Token>
    requires Producible(e)
  {
    [LPAREN] + (Show(e, 0) + [RPAREN])
  }

  ghost function ShowBlock(ss: seq<Stmt>): seq<Token>
    requires AllStmts(ss)
    decreases ss, 1
  {
    [LBRACE] + (ShowStmts(ss) + [RBRACE])
  }

  ghost function ShowStmts(ss: seq<Stmt>): seq<Token>
    requires AllStmts(ss)
    decreases ss, 0
  {
    if ss == [] then [] else ShowStmt(ss[0]) + ShowStmts(ss[1..])
  }

  ghost function ShowElse(ss: seq<Stmt>): seq<Token>
    requires AllStmts(ss)
    decreases ss, 2
  {
    if ss == [] then [] else [Token(ElseT, "else")] + ShowBlock(ss)
  }

  ghost function ShowEachHead(v: string, e: Expr): seq<Token>
    requires Producible(e)
  {
    [LPAREN] + ([DOLLAR] + ([NameToken(v)] + ([Token(InT, "in")] + (Show(e, 0) + [RPAREN]))))
  }

  function ShowFuncHead(n: string, ps: seq<string>): seq<Token> {
    [NameToken(n)] + ([LPAREN] + (ShowNames(ps, true) + [RPAREN]))
  }

  function ShowCatchHead(v: string): seq<Token> {
    [Token(CatchT, "catch")] + ([LPAREN] + ([DOLLAR] + ([NameToken(v)] + [RPAREN])))
  }

  function ShowParent(p: string): seq<Token> {
    if p == "" then [] else [Token(ExtendsT, "extends")] + [NameToken(p)]
  }

  function ShowImplements(impls: seq<string>): seq<Token> {
    if impls == [] then [] else [Token(ImplementsT, "implements")] + ShowNames(impls, false)
  }

  function ShowClassHead(n: string, p: string, impls: seq<string>): seq<Token> {
    [NameToken(n)] + (ShowParent(p) + (ShowImplements(impls) + [LBRACE]))
  }

  ghost function ShowStmt(s: Stmt): seq<Token>
    requires ProducibleStmt(s)
    decreases s
  {
    match s
    case ExprStmt(e) => Show(e, 0) + [SEMICOLON]
    case VarDecl(a, n, e) =>
      [AnnotationToken(a)] + ([DOLLAR] + ([NameToken(n)] + ([EQUALS] + (Show(e, 0) + [SEMICOLON]))))
    case If(c, b, els) => [Token(IfT, "if")] + (ShowCondition(c) + (ShowBlock(b) + ShowElse(els)))
    case While(c, b) => [Token(WhileT, "while")] + (ShowCondition(c) + ShowBlock(b))
    case For(st, c, u, b) =>
      [Token(ForT, "for")] + ([LPAREN] + (ShowStmt(st) + (Show(c, 0) + ([SEMICOLON] +
        (ShowStmt(u) + ([RPAREN] + ShowBlock(b)))))))
    case Each(v, e, b) => [Token(EachT, "each")] + (ShowEachHead(v, e) + ShowBlock(b))
    case FuncDecl(n, ps, b) => [Token(DefT, "def")] + (ShowFuncHead(n, ps) + ShowBlock(b))
    case Return(e) => [Token(ReturnT, "return")] + (Show(e, 0) + [SEMICOLON])
    case Print(e) => [Token(PrintT, "print")] + (Show(e, 0) + [SEMICOLON])
    case TryCatch(b, v, h) => [Token(TryT, "try")] + (ShowBlock(b) + (ShowCatchHead(v) + ShowBlock(h)))
    case ClassDecl(n, p, impls, b) =>
      [Token(ClassT, "class")] + (ShowClassHead(n, p, impls) + (ShowStmts(b) + [RBRACE]))
    case Bare => [Token(BreakT, "break")]
  }
}
