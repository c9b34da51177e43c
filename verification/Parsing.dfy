/** The parser object: a cursor that `Advance`, `Match` and `Expect` move over the token list. */
module Parsing {
  import opened Options
  import opened Tokens
  import opened Ast
  import opened Grammar

  class Parser {
    const tokens: seq<Token>
    var pos: nat
    var errors: nat

    ghost predicate Valid()
      reads this
    {
      Stream(tokens) && pos < |tokens|
    }

    function Here(): Cursor
      reads this
    {
      Cursor(pos, errors)
    }

    /** Not moved back behind `start`. */
    ghost predicate Moved(start: Cursor)
      reads this
    {
      Reaches(tokens, start, Here())
    }

    constructor (tokens: seq<Token>)
      requires Stream(tokens)
      ensures Valid() && this.tokens == tokens && Here() == Cursor(0, 0)
    {
      this.tokens := tokens;
      pos, errors := 0, 0;
    }

    // ---------- helpers ----------

    /** Whether the cursor stands on a token of that type. */
    predicate Looking(kind: TokenType)
      requires Valid()
      reads this
    {
      Check(tokens, Here(), kind)
    }

    /**
     * Moves behind the token the cursor stands on, unless it is the end marker, and returns the token in front
     * of the cursor. There is none if the list is nothing but the end marker.
     */
    method TakeToken() returns (t: Token)
      requires Valid() && (Grammar.AtEnd(tokens, Here()) ==> pos > 0)
      modifies this`pos
      ensures Valid() && Here() == Advance(tokens, old(Here()))
      ensures t == if Grammar.AtEnd(tokens, old(Here())) then tokens[pos - 1] else tokens[old(pos)]
    {
      if !tokens[pos].kind.EndOfFileT? {
        pos := pos + 1;
      }
      t := tokens[pos - 1];
    }

    method Match(kind: TokenType) returns (found: bool)
      requires Valid()
      modifies this`pos
      ensures Valid() && Here() == Grammar.Match(tokens, old(Here()), kind)
      ensures found == Check(tokens, old(Here()), kind)
    {
      found := Looking(kind);
      if found {
        var _ := TakeToken();
      }
    }

    method Expect(kind: TokenType) returns (value: string)
      requires Valid()
      modifies this
      ensures Valid() && Parsed(value, Here()) == Grammar.Expect(tokens, old(Here()), kind)
    {
      if Looking(kind) {
        var t := TakeToken();
        return t.value;
      }
      errors := errors + 1;
      value := tokens[pos].value;
    }

    // ---------- expressions ----------

    method ParseExpression() returns (e: Expr)
      requires Valid()
      modifies this
      ensures Valid() && Parsed(e, Here()) == Expression(tokens, old(Here()))
      decreases |tokens| - pos, 21
    {
      e := ParseAssignment();
    }

    method ParseAssignment() returns (e: Expr)
      requires Valid()
      modifies this
      ensures Valid() && Parsed(e, Here()) == Assignment(tokens, old(Here()))
      decreases |tokens| - pos, 20
    {
      e := ParseOr();
      var isAssignment := Match(EqualsT);
      if isAssignment {
        var value := ParseAssignment();
        if e.Variable? {
          return Assign(e.name, value);
        }
        if e.Index? {
          return IndexAssign(e.obj, e.index, value);
        }
        if e.Dot? {
          return DictAssign(e.obj, e.property, value);
        }
        errors := errors + 1;
      }
      e := ParseCompound(e);
    }

    method ParseCompound(target: Expr) returns (e: Expr)
      requires Valid()
      modifies this
      ensures Valid() && Parsed(e, Here()) == Compound(tokens, old(Here()), target)
      decreases |tokens| - pos, 19
    {
      if IsCompound(tokens[pos].kind) {
        var op := TakeToken();
        var value := ParseAssignment();
        if target.Variable? {
          return Assign(target.name, Binary(op.kind, Variable(target.name), value));
        }
      }
      e := target;
    }

    method ParseOr() returns (left: Expr)
      requires Valid()
      modifies this
      ensures Valid() && Parsed(left, Here()) == BinaryLevel(tokens, old(Here()), 1)
      decreases |tokens| - pos, 17
    {
      ghost var start, whole := Here(), BinaryLevel(tokens, Here(), 1);
      left := ParseAnd();
      while true
        invariant Valid() && Moved(start)
        invariant whole == BinaryLoop(tokens, Here(), left, 1)
        decreases |tokens| - pos
      {
        var more := Match(OrT);
        if !more {
          break;
        }
        var right := ParseAnd();
        left := Binary(OrT, left, right);
      }
    }

    method ParseAnd() returns (left: Expr)
      requires Valid()
      modifies this
      ensures Valid() && Parsed(left, Here()) == BinaryLevel(tokens, old(Here()), 2)
      decreases |tokens| - pos, 15
    {
      ghost var start, whole := Here(), BinaryLevel(tokens, Here(), 2);
      left := ParseEquality();
      while true
        invariant Valid() && Moved(start)
        invariant whole == BinaryLoop(tokens, Here(), left, 2)
        decreases |tokens| - pos
      {
        var more := Match(AndT);
        if !more {
          break;
        }
        var right := ParseEquality();
        left := Binary(AndT, left, right);
      }
    }

    method ParseEquality() returns (left: Expr)
      requires Valid()
      modifies this
      ensures Valid() && Parsed(left, Here()) == BinaryLevel(tokens, old(Here()), 3)
      decreases |tokens| - pos, 13
    {
      ghost var start, whole := Here(), BinaryLevel(tokens, Here(), 3);
      left := ParseComparison();
      while tokens[pos].kind.EqualToT? || tokens[pos].kind.NotEqualToT?
        invariant Valid() && Moved(start)
        invariant whole == BinaryLoop(tokens, Here(), left, 3)
        decreases |tokens| - pos
      {
        var op := TakeToken();
        var right := ParseComparison();
        left := Binary(op.kind, left, right);
      }
    }

    method ParseComparison() returns (left: Expr)
      requires Valid()
      modifies this
      ensures Valid() && Parsed(left, Here()) == BinaryLevel(tokens, old(Here()), 4)
      decreases |tokens| - pos, 11
    {
      ghost var start, whole := Here(), BinaryLevel(tokens, Here(), 4);
      left := ParseAddition();
      while tokens[pos].kind.GreaterT? || tokens[pos].kind.GreaterEqualT? || tokens[pos].kind.LessT? || tokens[pos].kind.LessEqualT?
        invariant Valid() && Moved(start)
        invariant whole == BinaryLoop(tokens, Here(), left, 4)
        decreases |tokens| - pos
      {
        var op := TakeToken();
        var right := ParseAddition();
        left := Binary(op.kind, left, right);
      }
    }

    method ParseAddition() returns (left: Expr)
      requires Valid()
      modifies this
      ensures Valid() && Parsed(left, Here()) == BinaryLevel(tokens, old(Here()), 5)
      decreases |tokens| - pos, 9
    {
      ghost var start, whole := Here(), BinaryLevel(tokens, Here(), 5);
      left := ParseMultiplication();
      while tokens[pos].kind.PlusT? || tokens[pos].kind.MinusT?
        invariant Valid() && Moved(start)
        invariant whole == BinaryLoop(tokens, Here(), left, 5)
        decreases |tokens| - pos
      {
        var op := TakeToken();
        var right := ParseMultiplication();
        left := Binary(op.kind, left, right);
      }
    }

    method ParseMultiplication() returns (left: Expr)
      requires Valid()
      modifies this
      ensures Valid() && Parsed(left, Here()) == BinaryLevel(tokens, old(Here()), 6)
      decreases |tokens| - pos, 7
    {
      ghost var start, whole := Here(), BinaryLevel(tokens, Here(), 6);
      left := ParseOperand();
      while tokens[pos].kind.MultiplyT? || tokens[pos].kind.DivideT? || tokens[pos].kind.ModuloT?
        invariant Valid() && Moved(start)
        invariant whole == BinaryLoop(tokens, Here(), left, 6)
        decreases |tokens| - pos
      {
        var op := TakeToken();
        var right := ParseOperand();
        left := Binary(op.kind, left, right);
      }
    }

    /** The unary level, as the operand of a product. */
    method ParseOperand() returns (e: Expr)
      requires Valid()
      modifies this
      ensures Valid() && Parsed(e, Here()) == BinaryLevel(tokens, old(Here()), 7)
      decreases |tokens| - pos, 5
    {
      e := ParseUnary();
    }

    method ParseUnary() returns (e: Expr)
      requires Valid()
      modifies this
      ensures Valid() && Parsed(e, Here()) == UnaryLevel(tokens, old(Here()))
      decreases |tokens| - pos, 4
    {
      if tokens[pos].kind.NotT? || tokens[pos].kind.MinusT? {
        var op := TakeToken();
        var operand := ParseUnary();
        return Unary(op.kind, operand);
      }
      e := ParseCall();
    }

    method ParseCall() returns (e: Expr)
      requires Valid()
      modifies this
      ensures Valid() && Parsed(e, Here()) == Postfix(tokens, old(Here()))
      decreases |tokens| - pos, 3
    {
      ghost var start, whole := Here(), Postfix(tokens, Here());
      e := ParsePrimary();
      while true
        invariant Valid() && Moved(start)
        invariant whole == PostfixLoop(tokens, Here(), e)
        decreases |tokens| - pos
      {
        if tokens[pos].kind.LParenT? {
          var _ := TakeToken();
          var args := ParseElements(RParenT);
          e := Call(e, args);
        } else if tokens[pos].kind.DotT? {
          var _ := TakeToken();
          var name := ParsePropertyName();
          e := Dot(e, name);
        } else if tokens[pos].kind.LBracketT? {
          var _ := TakeToken();
          var index := ParseExpression();
          var _ := Expect(RBracketT);
          e := Index(e, index);
        } else {
          break;
        }
      }
    }

    method ParsePropertyName() returns (name: string)
      requires Valid()
      modifies this
      ensures Valid() && Parsed(name, Here()) == PropertyName(tokens, old(Here()))
    {
      if IsPropertyKind(tokens[pos].kind) {
        var t := TakeToken();
        return t.value;
      }
      errors := errors + 1;
      name := "";
    }

    method ParsePrimary() returns (e: Expr)
      requires Valid()
      modifies this
      ensures Valid() && Parsed(e, Here()) == Primary(tokens, old(Here()))
      decreases |tokens| - pos, 1
    {
      var kind := tokens[pos].kind;
      if IsAtom(kind) {
        var t := TakeToken();
        return Atom(t);
      }
      if kind.DeclaratorT? || kind.NewT? {
        var _ := TakeToken();
        var name := Expect(IdentifierT);
        return Variable(name);
      }
      if IsOpening(kind) {
        var _ := TakeToken();
        e := ParseBracketed(kind);
        return;
      }
      errors := errors + 1;
      e := Null;
    }

    method ParseBracketed(kind: TokenType) returns (e: Expr)
      requires Valid() && IsOpening(kind)
      modifies this
      ensures Valid() && Parsed(e, Here()) == Bracketed(tokens, old(Here()), kind)
      decreases |tokens| - pos, 24
    {
      if kind.SuperT? {
        var called := Match(LParenT);
        if called {
          var args := ParseElements(RParenT);
          return Super(args);
        }
        return Variable("super");
      }
      if kind.LParenT? {
        e := ParseExpression();
        var _ := Expect(RParenT);
        return;
      }
      if kind.LBracketT? {
        var es := ParseElements(RBracketT);
        return List(es);
      }
      var ps: seq<Pair> := [];
      if !tokens[pos].kind.RBraceT? {
        ps := ParsePairs();
      }
      var _ := Expect(RBraceT);
      e := Dict(ps);
    }

    method ParseElements(close: TokenType) returns (es: seq<Expr>)
      requires Valid()
      modifies this
      ensures Valid() && Parsed(es, Here()) == Elements(tokens, old(Here()), close)
      decreases |tokens| - pos, 23
    {
      es := [];
      if !Looking(close) {
        es := ParseCommas();
      }
      var _ := Expect(close);
    }

    method ParseCommas() returns (es: seq<Expr>)
      requires Valid()
      modifies this
      ensures Valid() && Parsed(es, Here()) == Commas(tokens, old(Here()), [])
      decreases |tokens| - pos, 22
    {
      ghost var start, whole := Here(), Commas(tokens, Here(), []);
      es := [];
      var more := true;
      while more
        invariant Valid() && Moved(start)
        invariant whole == if more then Commas(tokens, Here(), es) else Parsed(es, Here())
        decreases |tokens| - pos, more
      {
        var e := ParseExpression();
        es := es + [e];
        more := Match(CommaT);
      }
    }

    method ParsePairs() returns (ps: seq<Pair>)
      requires Valid()
      modifies this
      ensures Valid() && Parsed(ps, Here()) == Pairs(tokens, old(Here()), [])
      decreases |tokens| - pos, 22
    {
      ghost var start, whole := Here(), Pairs(tokens, Here(), []);
      ps := [];
      var more := true;
      while more
        invariant Valid() && Moved(start)
        invariant whole == if more then Pairs(tokens, Here(), ps) else Parsed(ps, Here())
        decreases |tokens| - pos, more
      {
        var key := Expect(StringT);
        var _ := Expect(ColonT);
        var e := ParseExpression();
        ps := ps + [Pair(key, e)];
        more := Match(CommaT);
      }
    }

    // ---------- statements; `None` where the source never comes back ----------

    /** The cursor and the node a result promises. */
    ghost predicate Delivers<T(!new)>(found: Option<T>, r: Result<T>)
      reads this
    {
      match r
      case Spins => found.None?
      case Done(node, d) => found == Some(node) && Here() == d
    }

    method ParseStatement() returns (s: Option<Stmt>)
      requires Valid()
      modifies this
      ensures Valid() && Delivers(s, Statement(tokens, old(Here())))
      decreases |tokens| - pos, 30
    {
      var kind := tokens[pos].kind;
      if IsCompoundKeyword(kind) {
        var _ := TakeToken();
        s := ParseCompoundStatement(kind);
        return;
      }
      if kind.ReturnT? || kind.PrintT? {
        var _ := TakeToken();
        var e := ParseExpression();
        var _ := Match(SemicolonT);
        return Some(if kind.ReturnT? then Return(e) else Print(e));
      }
      if kind.BreakT? || kind.ContinueT? {
        var _ := TakeToken();
        return Some(Bare);
      }
      if kind.ConstT? {
        s := ParseDeclaration("const");
        return;
      }
      if IsTypeKind(kind) {
        s := ParseDeclaration(tokens[pos].value);
        return;
      }
      var e := ParseExpression();
      var _ := Match(SemicolonT);
      s := Some(ExprStmt(e));
    }

    method ParseCompoundStatement(kind: TokenType) returns (s: Option<Stmt>)
      requires Valid() && IsCompoundKeyword(kind)
      modifies this
      ensures Valid() && Delivers(s, CompoundStatement(tokens, old(Here()), kind))
      decreases |tokens| - pos, 35
    {
      if kind.IfT? {
        s := ParseIf();
      } else if kind.WhileT? {
        s := ParseWhile();
      } else if kind.ForT? {
        s := ParseFor();
      } else if kind.EachT? {
        s := ParseEach();
      } else if kind.DefT? {
        s := ParseFuncDecl();
      } else if kind.TryT? {
        s := ParseTryCatch();
      } else {
        s := ParseClass();
      }
    }

    method ParseCondition() returns (e: Expr)
      requires Valid()
      modifies this
      ensures Valid() && Parsed(e, Here()) == Condition(tokens, old(Here()))
    {
      var _ := Expect(LParenT);
      e := ParseExpression();
      var _ := Expect(RParenT);
    }

    method ParseIf() returns (s: Option<Stmt>)
      requires Valid()
      modifies this
      ensures Valid() && Delivers(s, IfStatement(tokens, old(Here())))
      decreases |tokens| - pos, 34
    {
      var condition := ParseCondition();
      var body := ParseBlock();
      if body.None? {
        return None;
      }
      var elseBody := ParseElse();
      s := if elseBody.None? then None else Some(If(condition, body.value, elseBody.value));
    }

    method ParseElse() returns (body: Option<seq<Stmt>>)
      requires Valid()
      modifies this
      ensures Valid() && Delivers(body, ElsePart(tokens, old(Here())))
      decreases |tokens| - pos, 33
    {
      body := Some([]);
      var hasElse := Match(ElseT);
      if hasElse {
        body := ParseBlock();
      }
    }

    method ParseWhile() returns (s: Option<Stmt>)
      requires Valid()
      modifies this
      ensures Valid() && Delivers(s, WhileStatement(tokens, old(Here())))
      decreases |tokens| - pos, 34
    {
      var condition := ParseCondition();
      var body := ParseBlock();
      s := if body.None? then None else Some(While(condition, body.value));
    }

    method ParseFor() returns (s: Option<Stmt>)
      requires Valid()
      modifies this
      ensures Valid() && Delivers(s, ForStatement(tokens, old(Here())))
      decreases |tokens| - pos, 34
    {
      var _ := Expect(LParenT);
      var start := ParseStatement();
      if start.None? {
        return None;
      }
      var _ := Match(SemicolonT);
      var condition := ParseExpression();
      var _ := Expect(SemicolonT);
      var update := ParseStatement();
      if update.None? {
        return None;
      }
      var _ := Expect(RParenT);
      var body := ParseBlock();
      s := if body.None? then None else Some(For(start.value, condition, update.value, body.value));
    }

    method ParseEach() returns (s: Option<Stmt>)
      requires Valid()
      modifies this
      ensures Valid() && Delivers(s, EachStatement(tokens, old(Here())))
      decreases |tokens| - pos, 34
    {
      var _ := Expect(LParenT);
      var _ := Expect(DeclaratorT);
      var name := Expect(IdentifierT);
      var _ := Expect(InT);
      var iterable := ParseExpression();
      var _ := Expect(RParenT);
      var body := ParseBlock();
      s := if body.None? then None else Some(Each(name, iterable, body.value));
    }

    method ParseNames(dollars: bool) returns (names: seq<string>)
      requires Valid()
      modifies this
      ensures Valid() && Parsed(names, Here()) == Names(tokens, old(Here()), [], dollars)
    {
      ghost var whole := Names(tokens, Here(), [], dollars);
      names := [];
      var more := true;
      while more
        invariant Valid()
        invariant whole == if more then Names(tokens, Here(), names, dollars) else Parsed(names, Here())
        decreases |tokens| - pos, more
      {
        if dollars {
          var _ := Match(DeclaratorT);
        }
        var name := Expect(IdentifierT);
        names := names + [name];
        more := Match(CommaT);
      }
    }

    method ParseFuncDecl() returns (s: Option<Stmt>)
      requires Valid()
      modifies this
      ensures Valid() && Delivers(s, FuncDeclaration(tokens, old(Here())))
      decreases |tokens| - pos, 34
    {
      var name := Expect(IdentifierT);
      var _ := Expect(LParenT);
      var params: seq<string> := [];
      if !tokens[pos].kind.RParenT? {
        params := ParseNames(true);
      }
      var _ := Expect(RParenT);
      var body := ParseBlock();
      s := if body.None? then None else Some(FuncDecl(name, params, body.value));
    }

    method ParseTryCatch() returns (s: Option<Stmt>)
      requires Valid()
      modifies this
      ensures Valid() && Delivers(s, TryStatement(tokens, old(Here())))
      decreases |tokens| - pos, 34
    {
      var tryBody := ParseBlock();
      if tryBody.None? {
        return None;
      }
      var _ := Expect(CatchT);
      var _ := Expect(LParenT);
      var _ := Match(DeclaratorT);
      var catchVar := Expect(IdentifierT);
      var _ := Expect(RParenT);
      var catchBody := ParseBlock();
      s := if catchBody.None? then None else Some(TryCatch(tryBody.value, catchVar, catchBody.value));
    }

    method ParseClass() returns (s: Option<Stmt>)
      requires Valid()
      modifies this
      ensures Valid() && Delivers(s, ClassDeclaration(tokens, old(Here())))
      decreases |tokens| - pos, 34
    {
      var name := Expect(IdentifierT);
      var parentClass := "";
      var extended := Match(ExtendsT);
      if extended {
        parentClass := Expect(IdentifierT);
      }
      var implementsClasses: seq<string> := [];
      var implementing := Match(ImplementsT);
      if implementing {
        implementsClasses := ParseNames(false);
      }
      var _ := Expect(LBraceT);
      var body := ParseClassBody();
      if body.None? {
        return None;
      }
      var _ := Expect(RBraceT);
      s := Some(ClassDecl(name, parentClass, implementsClasses, body.value));
    }

    method ParseClassBody() returns (body: Option<seq<Stmt>>)
      requires Valid()
      modifies this
      ensures Valid() && Delivers(body, ClassLoop(tokens, old(Here()), []))
      decreases |tokens| - pos, 32
    {
      ghost var start, whole := Here(), ClassLoop(tokens, Here(), []);
      var statements: seq<Stmt> := [];
      while !tokens[pos].kind.RBraceT?
        invariant Valid() && Moved(start)
        invariant whole == ClassLoop(tokens, Here(), statements)
        decreases |tokens| - pos
      {
        var before := pos;
        var s := ParseStatement();
        if s.None? || pos == before {
          return None;
        }
        statements := statements + [s.value];
      }
      body := Some(statements);
    }

    method ParseDeclaration(annotation: string) returns (s: Option<Stmt>)
      requires Valid() && !Grammar.AtEnd(tokens, Here())
      modifies this
      ensures Valid() && Delivers(s, Declaration(tokens, Advance(tokens, old(Here())), annotation))
      decreases |tokens| - pos, 29
    {
      var _ := TakeToken();
      var _ := Match(DeclaratorT);
      var name := Expect(IdentifierT);
      var _ := Expect(EqualsT);
      var init := ParseExpression();
      var _ := Match(SemicolonT);
      s := Some(VarDecl(annotation, name, init));
    }

    method ParseBlock() returns (body: Option<seq<Stmt>>)
      requires Valid()
      modifies this
      ensures Valid() && Delivers(body, Block(tokens, old(Here())))
      decreases |tokens| - pos, 33
    {
      var _ := Expect(LBraceT);
      body := ParseStatements();
      if body.Some? {
        var _ := Expect(RBraceT);
      }
    }

    method ParseStatements() returns (body: Option<seq<Stmt>>)
      requires Valid()
      modifies this
      ensures Valid() && Delivers(body, BlockLoop(tokens, old(Here()), []))
      decreases |tokens| - pos, 32
    {
      ghost var start, whole := Here(), BlockLoop(tokens, Here(), []);
      var statements: seq<Stmt> := [];
      while !tokens[pos].kind.RBraceT? && !tokens[pos].kind.EndOfFileT?
        invariant Valid() && Moved(start)
        invariant whole == BlockLoop(tokens, Here(), statements)
        decreases |tokens| - pos
      {
        var before := pos;
        var s := ParseStatement();
        if s.None? || pos == before {
          return None;
        }
        statements := statements + [s.value];
      }
      body := Some(statements);
    }

    /** The statements of the whole token list, or `None` where the source loops for ever. */
    method Parse() returns (program: Option<seq<Stmt>>)
      requires Valid() && Here() == Cursor(0, 0)
      modifies this
      ensures Valid() && Delivers(program, Program(tokens))
    {
      var statements: seq<Stmt> := [];
      while !tokens[pos].kind.EndOfFileT?
        invariant Valid()
        invariant Program(tokens) == ProgramLoop(tokens, Here(), statements)
        decreases |tokens| - pos
      {
        var before := pos;
        var s := ParseStatement();
        if s.None? || pos == before {
          return None;
        }
        statements := statements + [s.value];
      }
      program := Some(statements);
    }
  }
}
