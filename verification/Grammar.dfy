/**
 * The recursive-descent grammar as functions of the token list and a cursor. Diagnostics are counted,
 * never thrown. A statement loop that stops moving repeats the same turn for ever; its result is
 * `Spins`.
 */
module Grammar {
  import opened Options
  import opened Tokens
  import opened Ast
  import Decimals

  /** Where the parser stands, and how many diagnostics it has printed. */
  datatype Cursor = Cursor(pos: nat, errors: nat)

  datatype Parsed<T> = Parsed(node: T, at: Cursor)

  datatype Result<T> = Spins | Done(node: T, at: Cursor)

  /** A token list closed by an end marker. */
  ghost predicate Stream(ts: seq<Token>) {
    ts != [] && ts[|ts| - 1].kind.EndOfFileT?
  }

  predicate In(ts: seq<Token>, c: Cursor) { c.pos < |ts| }

  /** `d` is reached from `c`: never back, never behind the end marker, diagnostics only added. */
  predicate Reaches(ts: seq<Token>, c: Cursor, d: Cursor) {
    c.pos <= d.pos < |ts| && c.errors <= d.errors
  }

  function Kind(ts: seq<Token>, c: Cursor): TokenType
    requires In(ts, c)
  {
    ts[c.pos].kind
  }

  predicate AtEnd(ts: seq<Token>, c: Cursor)
    requires In(ts, c)
  {
    Kind(ts, c).EndOfFileT?
  }

  /** The end marker never matches, not even against itself. */
  predicate Check(ts: seq<Token>, c: Cursor, kind: TokenType)
    requires In(ts, c)
  {
    !AtEnd(ts, c) && Kind(ts, c) == kind
  }

  function Next(c: Cursor): Cursor { c.(pos := c.pos + 1) }

  function Fault(c: Cursor): Cursor { c.(errors := c.errors + 1) }

  /** One token further, unless at the end marker. */
  function Advance(ts: seq<Token>, c: Cursor): (d: Cursor)
    requires Stream(ts) && In(ts, c)
    ensures Reaches(ts, c, d)
    ensures !AtEnd(ts, c) ==> d == Next(c)
  {
    if AtEnd(ts, c) then c else Next(c)
  }

  function Match(ts: seq<Token>, c: Cursor, kind: TokenType): (d: Cursor)
    requires Stream(ts) && In(ts, c)
    ensures Reaches(ts, c, d)
  {
    if Check(ts, c, kind) then Advance(ts, c) else c
  }

  /** The value of the token looked for; of the token that stands there instead, with a diagnostic. */
  function Expect(ts: seq<Token>, c: Cursor, kind: TokenType): (r: Parsed<string>)
    requires Stream(ts) && In(ts, c)
    ensures Reaches(ts, c, r.at)
  {
    if Check(ts, c, kind) then Parsed(ts[c.pos].value, Advance(ts, c))
    else Parsed(ts[c.pos].value, Fault(c))
  }

  // ---------- expressions ----------

  /** The level of a binary operator, loosest first; 0 for every other token. */
  function LevelOf(kind: TokenType): (level: nat)
    ensures level <= 6
  {
    if kind.OrT? then 1
    else if kind.AndT? then 2
    else if kind.EqualToT? || kind.NotEqualToT? then 3
    else if kind.GreaterT? || kind.GreaterEqualT? || kind.LessT? || kind.LessEqualT? then 4
    else if kind.PlusT? || kind.MinusT? then 5
    else if kind.MultiplyT? || kind.DivideT? || kind.ModuloT? then 6
    else 0
  }

  predicate IsCompound(kind: TokenType) {
    kind.PlusEqualsT? || kind.MinusEqualsT? || kind.MultiplyEqualsT? || kind.DivideEqualsT?
  }

  /** Tokens accepted as a property name behind a point. */
  predicate IsPropertyKind(kind: TokenType) {
    || kind.IdentifierT? || kind.ChannelT? || kind.SignalT? || kind.StunT? || kind.StreamT?
    || kind.BroadcastT? || kind.RelayT? || kind.ConnectT? || kind.PeerT? || kind.IceT?
    || kind.CandidateT? || kind.RoomT? || kind.OfferT? || kind.AnswerT? || kind.DeleteT?
    || kind.UpdateT? || kind.CreateT? || kind.NewT? || kind.DbT? || kind.FetchT? || kind.FromT?
  }

  function NumberValue(text: string): real {
    match Decimals.Stod(text)
    case Some(r) => r
    case None => 0.0
  }

  function Expression(ts: seq<Token>, c: Cursor): (r: Parsed<Expr>)
    requires Stream(ts) && In(ts, c)
    ensures Reaches(ts, c, r.at)
    decreases |ts| - c.pos, 21
  {
    Assignment(ts, c)
  }

  function Assignment(ts: seq<Token>, c: Cursor): (r: Parsed<Expr>)
    requires Stream(ts) && In(ts, c)
    ensures Reaches(ts, c, r.at)
    decreases |ts| - c.pos, 20
  {
    var l := BinaryLevel(ts, c, 1);
    if Kind(ts, l.at).EqualsT? then
      var v := Assignment(ts, Advance(ts, l.at));
      if l.node.Variable? then Parsed(Assign(l.node.name, v.node), v.at)
      else if l.node.Index? then Parsed(IndexAssign(l.node.obj, l.node.index, v.node), v.at)
      else if l.node.Dot? then Parsed(DictAssign(l.node.obj, l.node.property, v.node), v.at)
      else Compound(ts, Fault(v.at), l.node)
    else Compound(ts, l.at, l.node)
  }

  /** A compound assignment, if one follows. */
  function Compound(ts: seq<Token>, c: Cursor, e: Expr): (r: Parsed<Expr>)
    requires Stream(ts) && In(ts, c)
    ensures Reaches(ts, c, r.at)
    decreases |ts| - c.pos, 19
  {
    if IsCompound(Kind(ts, c)) then
      var v := Assignment(ts, Advance(ts, c));
      if e.Variable? then Parsed(Assign(e.name, Binary(Kind(ts, c), e, v.node)), v.at) else Parsed(e, v.at)
    else Parsed(e, c)
  }

  /** One level of left-associative operators; level 7 is the unary level. */
  function BinaryLevel(ts: seq<Token>, c: Cursor, level: nat): (r: Parsed<Expr>)
    requires Stream(ts) && In(ts, c) && 1 <= level <= 7
    ensures Reaches(ts, c, r.at)
    decreases |ts| - c.pos, 5, 7 - level, 1
  {
    if level == 7 then UnaryLevel(ts, c)
    else var l := BinaryLevel(ts, c, level + 1); BinaryLoop(ts, l.at, l.node, level)
  }

  function BinaryLoop(ts: seq<Token>, c: Cursor, left: Expr, level: nat): (r: Parsed<Expr>)
    requires Stream(ts) && In(ts, c) && 1 <= level < 7
    ensures Reaches(ts, c, r.at)
    decreases |ts| - c.pos, 5, 7 - level, 0
  {
    if LevelOf(Kind(ts, c)) == level then
      var next := Advance(ts, c);
      assert next.pos == c.pos + 1;
      var right := BinaryLevel(ts, next, level + 1);
      BinaryLoop(ts, right.at, Binary(Kind(ts, c), left, right.node), level)
    else Parsed(left, c)
  }

  function UnaryLevel(ts: seq<Token>, c: Cursor): (r: Parsed<Expr>)
    requires Stream(ts) && In(ts, c)
    ensures Reaches(ts, c, r.at)
    decreases |ts| - c.pos, 4
  {
    if Kind(ts, c).NotT? || Kind(ts, c).MinusT? then
      var e := UnaryLevel(ts, Advance(ts, c));
      Parsed(Unary(Kind(ts, c), e.node), e.at)
    else Postfix(ts, c)
  }

  function Postfix(ts: seq<Token>, c: Cursor): (r: Parsed<Expr>)
    requires Stream(ts) && In(ts, c)
    ensures Reaches(ts, c, r.at)
    decreases |ts| - c.pos, 3
  {
    var e := Primary(ts, c);
    PostfixLoop(ts, e.at, e.node)
  }

  function PostfixLoop(ts: seq<Token>, c: Cursor, e: Expr): (r: Parsed<Expr>)
    requires Stream(ts) && In(ts, c)
    ensures Reaches(ts, c, r.at)
    decreases |ts| - c.pos, 2
  {
    if Kind(ts, c).LParenT? then
      var args := Elements(ts, Advance(ts, c), RParenT);
      PostfixLoop(ts, args.at, Call(e, args.node))
    else if Kind(ts, c).DotT? then
      var name := PropertyName(ts, Advance(ts, c));
      PostfixLoop(ts, name.at, Dot(e, name.node))
    else if Kind(ts, c).LBracketT? then
      var index := Expression(ts, Advance(ts, c));
      PostfixLoop(ts, Expect(ts, index.at, RBracketT).at, Index(e, index.node))
    else Parsed(e, c)
  }

  function PropertyName(ts: seq<Token>, c: Cursor): (r: Parsed<string>)
    requires Stream(ts) && In(ts, c)
    ensures Reaches(ts, c, r.at)
  {
    if IsPropertyKind(Kind(ts, c)) then Parsed(ts[c.pos].value, Advance(ts, c)) else Parsed("", Fault(c))
  }

  predicate IsAtom(kind: TokenType) {
    || kind.NumberT? || kind.StringT? || kind.TrueT? || kind.FalseT? || kind.NullT?
    || kind.IdentifierT? || kind.DbT? || kind.FetchT?
  }

  /** The expression a single token stands for. */
  function Atom(t: Token): Expr {
    if t.kind.NumberT? then Number(NumberValue(t.value))
    else if t.kind.StringT? then Str(t.value)
    else if t.kind.TrueT? then Bool(true)
    else if t.kind.FalseT? then Bool(false)
    else if t.kind.IdentifierT? then Variable(t.value)
    else if t.kind.DbT? then Variable("db")
    else if t.kind.FetchT? then Variable("fetch")
    else Null
  }

  function Primary(ts: seq<Token>, c: Cursor): (r: Parsed<Expr>)
    requires Stream(ts) && In(ts, c)
    ensures Reaches(ts, c, r.at)
    decreases |ts| - c.pos, 1
  {
    if IsAtom(Kind(ts, c)) then Parsed(Atom(ts[c.pos]), Advance(ts, c))
    else if Kind(ts, c).DeclaratorT? || Kind(ts, c).NewT? then
      var name := Expect(ts, Advance(ts, c), IdentifierT); Parsed(Variable(name.node), name.at)
    else if IsOpening(Kind(ts, c)) then Bracketed(ts, Advance(ts, c), Kind(ts, c))
    else Parsed(Null, Fault(c))
  }

  predicate IsOpening(kind: TokenType) {
    kind.SuperT? || kind.LParenT? || kind.LBracketT? || kind.LBraceT?
  }

  /** What follows `super`, or an opening bracket. */
  function Bracketed(ts: seq<Token>, c: Cursor, kind: TokenType): (r: Parsed<Expr>)
    requires Stream(ts) && In(ts, c) && IsOpening(kind)
    ensures Reaches(ts, c, r.at)
    decreases |ts| - c.pos, 24
  {
    if kind.SuperT? then
      if Kind(ts, c).LParenT? then
        var args := Elements(ts, Advance(ts, c), RParenT); Parsed(Super(args.node), args.at)
      else Parsed(Variable("super"), c)
    else if kind.LParenT? then
      var e := Expression(ts, c); Parsed(e.node, Expect(ts, e.at, RParenT).at)
    else if kind.LBracketT? then
      var es := Elements(ts, c, RBracketT); Parsed(List(es.node), es.at)
    else
      var ps := if Kind(ts, c).RBraceT? then Parsed([], c) else Pairs(ts, c, []);
      Parsed(Dict(ps.node), Expect(ts, ps.at, RBraceT).at)
  }

  /** Expressions between brackets: none, or a comma-separated list. */
  function Elements(ts: seq<Token>, c: Cursor, close: TokenType): (r: Parsed<seq<Expr>>)
    requires Stream(ts) && In(ts, c)
    ensures Reaches(ts, c, r.at)
    decreases |ts| - c.pos, 23
  {
    var es := if Check(ts, c, close) then Parsed([], c) else Commas(ts, c, []);
    Parsed(es.node, Expect(ts, es.at, close).at)
  }

  function Commas(ts: seq<Token>, c: Cursor, found: seq<Expr>): (r: Parsed<seq<Expr>>)
    requires Stream(ts) && In(ts, c)
    ensures Reaches(ts, c, r.at)
    decreases |ts| - c.pos, 22
  {
    var e := Expression(ts, c);
    if Kind(ts, e.at).CommaT? then Commas(ts, Advance(ts, e.at), found + [e.node])
    else Parsed(found + [e.node], e.at)
  }

  function Pairs(ts: seq<Token>, c: Cursor, found: seq<Pair>): (r: Parsed<seq<Pair>>)
    requires Stream(ts) && In(ts, c)
    ensures Reaches(ts, c, r.at)
    decreases |ts| - c.pos, 22
  {
    var key := Expect(ts, c, StringT);
    var colon := Expect(ts, key.at, ColonT);
    var e := Expression(ts, colon.at);
    var all := found + [Pair(key.node, e.node)];
    if Kind(ts, e.at).CommaT? then Pairs(ts, Advance(ts, e.at), all) else Parsed(all, e.at)
  }

  // ---------- statements ----------

  predicate IsTypeKind(kind: TokenType) {
    || kind.TypeNumberT? || kind.TypeStringT? || kind.TypeBoolT? || kind.TypeListT?
    || kind.TypeDictT? || kind.TypeAnyT? || kind.TypeFuncT?
  }

  predicate IsCompoundKeyword(kind: TokenType) {
    kind.IfT? || kind.WhileT? || kind.ForT? || kind.EachT? || kind.DefT? || kind.TryT? || kind.ClassT?
  }

  function Statement(ts: seq<Token>, c: Cursor): (r: Result<Stmt>)
    requires Stream(ts) && In(ts, c)
    ensures r.Done? ==> Reaches(ts, c, r.at)
    decreases |ts| - c.pos, 30
  {
    if IsCompoundKeyword(Kind(ts, c)) then CompoundStatement(ts, Advance(ts, c), Kind(ts, c))
    else if Kind(ts, c).ReturnT? || Kind(ts, c).PrintT? then
      var e := Expression(ts, Advance(ts, c));
      Done(if Kind(ts, c).ReturnT? then Return(e.node) else Print(e.node), Match(ts, e.at, SemicolonT))
    else if Kind(ts, c).BreakT? || Kind(ts, c).ContinueT? then Done(Bare, Advance(ts, c))
    else if Kind(ts, c).ConstT? then Declaration(ts, Advance(ts, c), "const")
    else if IsTypeKind(Kind(ts, c)) then Declaration(ts, Advance(ts, c), ts[c.pos].value)
    else var e := Expression(ts, c); Done(ExprStmt(e.node), Match(ts, e.at, SemicolonT))
  }

  /** What follows the keyword of a statement with a body. */
  function CompoundStatement(ts: seq<Token>, c: Cursor, kind: TokenType): (r: Result<Stmt>)
    requires Stream(ts) && In(ts, c) && IsCompoundKeyword(kind)
    ensures r.Done? ==> Reaches(ts, c, r.at)
    decreases |ts| - c.pos, 35
  {
    if kind.IfT? then IfStatement(ts, c)
    else if kind.WhileT? then WhileStatement(ts, c)
    else if kind.ForT? then ForStatement(ts, c)
    else if kind.EachT? then EachStatement(ts, c)
    else if kind.DefT? then FuncDeclaration(ts, c)
    else if kind.TryT? then TryStatement(ts, c)
    else ClassDeclaration(ts, c)
  }

  /** A condition in parentheses. */
  function Condition(ts: seq<Token>, c: Cursor): (r: Parsed<Expr>)
    requires Stream(ts) && In(ts, c)
    ensures Reaches(ts, c, r.at)
  {
    var e := Expression(ts, Expect(ts, c, LParenT).at);
    Parsed(e.node, Expect(ts, e.at, RParenT).at)
  }

  function IfStatement(ts: seq<Token>, c: Cursor): (r: Result<Stmt>)
    requires Stream(ts) && In(ts, c)
    ensures r.Done? ==> Reaches(ts, c, r.at)
    decreases |ts| - c.pos, 34
  {
    var cond := Condition(ts, c);
    match Block(ts, cond.at)
    case Spins => Spins
    case Done(body, d) =>
      match ElsePart(ts, d)
      case Spins => Spins
      case Done(elseBody, e) => Done(If(cond.node, body, elseBody), e)
  }

  function ElsePart(ts: seq<Token>, c: Cursor): (r: Result<seq<Stmt>>)
    requires Stream(ts) && In(ts, c)
    ensures r.Done? ==> Reaches(ts, c, r.at)
    decreases |ts| - c.pos, 33
  {
    if Kind(ts, c).ElseT? then Block(ts, Advance(ts, c)) else Done([], c)
  }

  function WhileStatement(ts: seq<Token>, c: Cursor): (r: Result<Stmt>)
    requires Stream(ts) && In(ts, c)
    ensures r.Done? ==> Reaches(ts, c, r.at)
    decreases |ts| - c.pos, 34
  {
    var cond := Condition(ts, c);
    match Block(ts, cond.at)
    case Spins => Spins
    case Done(body, d) => Done(While(cond.node, body), d)
  }

  function ForStatement(ts: seq<Token>, c: Cursor): (r: Result<Stmt>)
    requires Stream(ts) && In(ts, c)
    ensures r.Done? ==> Reaches(ts, c, r.at)
    decreases |ts| - c.pos, 34
  {
    match Statement(ts, Expect(ts, c, LParenT).at)
    case Spins => Spins
    case Done(start, d) =>
      var cond := Expression(ts, Match(ts, d, SemicolonT));
      match Statement(ts, Expect(ts, cond.at, SemicolonT).at)
      case Spins => Spins
      case Done(update, e) =>
        match Block(ts, Expect(ts, e, RParenT).at)
        case Spins => Spins
        case Done(body, f) => Done(For(start, cond.node, update, body), f)
  }

  /** The variable and the list of an `each`. */
  function EachHead(ts: seq<Token>, c: Cursor): (r: Parsed<(string, Expr)>)
    requires Stream(ts) && In(ts, c)
    ensures Reaches(ts, c, r.at)
  {
    var dollar := Expect(ts, Expect(ts, c, LParenT).at, DeclaratorT);
    var name := Expect(ts, dollar.at, IdentifierT);
    var iterable := Expression(ts, Expect(ts, name.at, InT).at);
    Parsed((name.node, iterable.node), Expect(ts, iterable.at, RParenT).at)
  }

  function EachStatement(ts: seq<Token>, c: Cursor): (r: Result<Stmt>)
    requires Stream(ts) && In(ts, c)
    ensures r.Done? ==> Reaches(ts, c, r.at)
    decreases |ts| - c.pos, 34
  {
    var head := EachHead(ts, c);
    match Block(ts, head.at)
    case Spins => Spins
    case Done(body, d) => Done(Each(head.node.0, head.node.1, body), d)
  }

  /** The name and the parameters of a function. */
  function FuncHead(ts: seq<Token>, c: Cursor): (r: Parsed<(string, seq<string>)>)
    requires Stream(ts) && In(ts, c)
    ensures Reaches(ts, c, r.at)
  {
    var name := Expect(ts, c, IdentifierT);
    var open := Expect(ts, name.at, LParenT);
    var params := if Kind(ts, open.at).RParenT? then Parsed([], open.at) else Names(ts, open.at, [], true);
    Parsed((name.node, params.node), Expect(ts, params.at, RParenT).at)
  }

  function FuncDeclaration(ts: seq<Token>, c: Cursor): (r: Result<Stmt>)
    requires Stream(ts) && In(ts, c)
    ensures r.Done? ==> Reaches(ts, c, r.at)
    decreases |ts| - c.pos, 34
  {
    var head := FuncHead(ts, c);
    match Block(ts, head.at)
    case Spins => Spins
    case Done(body, d) => Done(FuncDecl(head.node.0, head.node.1, body), d)
  }

  /** A name, with an optional `$` in front where `dollars` allows it. */
  function OneName(ts: seq<Token>, c: Cursor, dollars: bool): (r: Parsed<string>)
    requires Stream(ts) && In(ts, c)
    ensures Reaches(ts, c, r.at)
  {
    Expect(ts, if dollars then Match(ts, c, DeclaratorT) else c, IdentifierT)
  }

  /** Names separated by commas. */
  function Names(ts: seq<Token>, c: Cursor, found: seq<string>, dollars: bool): (r: Parsed<seq<string>>)
    requires Stream(ts) && In(ts, c)
    ensures Reaches(ts, c, r.at)
    decreases |ts| - c.pos
  {
    var name := OneName(ts, c, dollars);
    var all := found + [name.node];
    if Kind(ts, name.at).CommaT? then Names(ts, Advance(ts, name.at), all, dollars) else Parsed(all, name.at)
  }

  /** `catch` and its variable. */
  function CatchHead(ts: seq<Token>, c: Cursor): (r: Parsed<string>)
    requires Stream(ts) && In(ts, c)
    ensures Reaches(ts, c, r.at)
  {
    var open := Expect(ts, Expect(ts, c, CatchT).at, LParenT);
    var name := Expect(ts, Match(ts, open.at, DeclaratorT), IdentifierT);
    Parsed(name.node, Expect(ts, name.at, RParenT).at)
  }

  function TryStatement(ts: seq<Token>, c: Cursor): (r: Result<Stmt>)
    requires Stream(ts) && In(ts, c)
    ensures r.Done? ==> Reaches(ts, c, r.at)
    decreases |ts| - c.pos, 34
  {
    match Block(ts, c)
    case Spins => Spins
    case Done(tryBody, d) =>
      var name := CatchHead(ts, d);
      match Block(ts, name.at)
      case Spins => Spins
      case Done(catchBody, e) => Done(TryCatch(tryBody, name.node, catchBody), e)
  }

  /** Name, parent and implemented classes of a class, up to its opening brace. */
  function ClassHead(ts: seq<Token>, c: Cursor): (r: Parsed<(string, string, seq<string>)>)
    requires Stream(ts) && In(ts, c)
    ensures Reaches(ts, c, r.at)
  {
    var name := Expect(ts, c, IdentifierT);
    var parent := if Kind(ts, name.at).ExtendsT? then Expect(ts, Advance(ts, name.at), IdentifierT)
                  else Parsed("", name.at);
    var impls := if Kind(ts, parent.at).ImplementsT? then Names(ts, Advance(ts, parent.at), [], false)
                 else Parsed([], parent.at);
    Parsed((name.node, parent.node, impls.node), Expect(ts, impls.at, LBraceT).at)
  }

  function ClassDeclaration(ts: seq<Token>, c: Cursor): (r: Result<Stmt>)
    requires Stream(ts) && In(ts, c)
    ensures r.Done? ==> Reaches(ts, c, r.at)
    decreases |ts| - c.pos, 34
  {
    var head := ClassHead(ts, c);
    match ClassLoop(ts, head.at, [])
    case Spins => Spins
    case Done(body, d) =>
      Done(ClassDecl(head.node.0, head.node.1, head.node.2, body), Expect(ts, d, RBraceT).at)
  }

  /** Unlike a block, a class body does not stop at the end marker. */
  function ClassLoop(ts: seq<Token>, c: Cursor, found: seq<Stmt>): (r: Result<seq<Stmt>>)
    requires Stream(ts) && In(ts, c)
    ensures r.Done? ==> Reaches(ts, c, r.at)
    decreases |ts| - c.pos, 32
  {
    if Kind(ts, c).RBraceT? then Done(found, c)
    else
      match Statement(ts, c)
      case Spins => Spins
      case Done(s, d) => if d.pos == c.pos then Spins else ClassLoop(ts, d, found + [s])
  }

  function Declaration(ts: seq<Token>, c: Cursor, annotation: string): (r: Result<Stmt>)
    requires Stream(ts) && In(ts, c)
    ensures r.Done? ==> Reaches(ts, c, r.at)
  {
    var name := Expect(ts, Match(ts, c, DeclaratorT), IdentifierT);
    var init := Expression(ts, Expect(ts, name.at, EqualsT).at);
    Done(VarDecl(annotation, name.node, init.node), Match(ts, init.at, SemicolonT))
  }

  function Block(ts: seq<Token>, c: Cursor): (r: Result<seq<Stmt>>)
    requires Stream(ts) && In(ts, c)
    ensures r.Done? ==> Reaches(ts, c, r.at)
    decreases |ts| - c.pos, 33
  {
    match BlockLoop(ts, Expect(ts, c, LBraceT).at, [])
    case Spins => Spins
    case Done(body, d) => Done(body, Expect(ts, d, RBraceT).at)
  }

  function BlockLoop(ts: seq<Token>, c: Cursor, found: seq<Stmt>): (r: Result<seq<Stmt>>)
    requires Stream(ts) && In(ts, c)
    ensures r.Done? ==> Reaches(ts, c, r.at)
    decreases |ts| - c.pos, 32
  {
    if Kind(ts, c).RBraceT? || AtEnd(ts, c) then Done(found, c)
    else
      match Statement(ts, c)
      case Spins => Spins
      case Done(s, d) => if d.pos == c.pos then Spins else BlockLoop(ts, d, found + [s])
  }

  function ProgramLoop(ts: seq<Token>, c: Cursor, found: seq<Stmt>): (r: Result<seq<Stmt>>)
    requires Stream(ts) && In(ts, c)
    ensures r.Done? ==> Reaches(ts, c, r.at) && AtEnd(ts, r.at)
    decreases |ts| - c.pos
  {
    if AtEnd(ts, c) then Done(found, c)
    else
      match Statement(ts, c)
      case Spins => Spins
      case Done(s, d) => if d.pos == c.pos then Spins else ProgramLoop(ts, d, found + [s])
  }

  function Program(ts: seq<Token>): Result<seq<Stmt>>
    requires Stream(ts)
  {
    ProgramLoop(ts, Cursor(0, 0), [])
  }
}
