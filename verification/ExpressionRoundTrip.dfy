/** Parsing the tokens of an expression tree gives the tree back, at every level of the grammar. */
module ExpressionRoundTrip {
  import opened Tokens
  import opened Ast
  import opened Grammar
  import opened Printing
  import opened Slices

  /** The cursor behind `n` more tokens. */
  function Ahead(c: Cursor, n: nat): Cursor { c.(pos := c.pos + n) }

  /** `s` stands at the cursor and something follows it. */
  ghost predicate Stands(ts: seq<Token>, c: Cursor, s: seq<Token>) {
    At(ts, c.pos, s) && c.pos + |s| < |ts|
  }

  predicate IsOpener(kind: TokenType) { kind.LParenT? || kind.DotT? || kind.LBracketT? }

  /** A token that extends an expression parsed at this level, other than by repeating the level itself. */
  predicate Tight(kind: TokenType, level: nat) {
    IsOpener(kind) || LevelOf(kind) > level
  }

  /** A token that extends a whole expression. */
  predicate Extends(kind: TokenType) {
    Tight(kind, 0) || kind.EqualsT? || IsCompound(kind)
  }

  /** Tokens an expression can begin with. */
  predicate Begins(kind: TokenType) {
    IsAtom(kind) || kind.NotT? || kind.MinusT? || IsOpening(kind)
  }

  /**
   * The parser of this level, started at `c`, has read `e` up to `n` and goes on from there with the
   * loop of the level.
   */
  ghost predicate Yields(ts: seq<Token>, c: Cursor, e: Expr, n: Cursor, level: nat)
    requires Stream(ts) && In(ts, c) && In(ts, n) && level <= 8
  {
    if level == 0 then Assignment(ts, c) == Parsed(e, n)
    else if level == 7 then UnaryLevel(ts, c) == Parsed(e, n)
    else if level == 8 then Postfix(ts, c) == PostfixLoop(ts, n, e)
    else BinaryLevel(ts, c, level) == BinaryLoop(ts, n, e, level)
  }

  // ---------- first tokens ----------

  lemma {:induction false} BodyBegins(e: Expr)
    requires Producible(e)
    ensures Body(e) != [] && Begins(Body(e)[0].kind)
    ensures Binding(e) == 8 ==> !Body(e)[0].kind.NotT? && !Body(e)[0].kind.MinusT?
    decreases e, 0
  {
    match e {
      case Binary(op, l, r) => ShowBegins(l, LevelOf(op));
      case Call(f, _) => ShowBegins(f, 8); ShowBegins(f, 9);
      case Dot(o, _) => ShowBegins(o, 8);
      case Index(o, _) => ShowBegins(o, 8);
      case IndexAssign(o, _, _) => ShowBegins(o, 8);
      case DictAssign(o, _, _) => ShowBegins(o, 8);
      case Number(_) =>
      case Str(_) =>
      case Bool(_) =>
      case Null =>
      case List(_) =>
      case Dict(_) =>
      case Variable(_) =>
      case Assign(_, _) =>
      case Unary(_, _) =>
      case Super(_) =>
    }
  }

  lemma {:induction false} ShowBegins(e: Expr, level: nat)
    requires Producible(e)
    ensures Show(e, level) != [] && Begins(Show(e, level)[0].kind)
    ensures level >= 8 ==> !Show(e, level)[0].kind.NotT? && !Show(e, level)[0].kind.MinusT?
    decreases e, 1
  {
    BodyBegins(e);
  }

  // ---------- from one level to a looser one ----------

  lemma {:induction false} ClimbToUnary(ts: seq<Token>, c: Cursor, e: Expr, n: Cursor)
    requires Stream(ts) && In(ts, c) && In(ts, n) && Yields(ts, c, e, n, 8)
    requires !IsOpener(Kind(ts, n)) && !Kind(ts, c).NotT? && !Kind(ts, c).MinusT?
    ensures Yields(ts, c, e, n, 7)
  {
    hide Primary, Elements, Expression, PropertyName, Postfix;
  }

  lemma {:induction false} ClimbOne(ts: seq<Token>, c: Cursor, e: Expr, n: Cursor, level: nat)
    requires Stream(ts) && In(ts, c) && In(ts, n) && 1 <= level < 7 && Yields(ts, c, e, n, level + 1)
    requires LevelOf(Kind(ts, n)) <= level
    ensures Yields(ts, c, e, n, level)
  {
    hide UnaryLevel, LevelOf;
    if level + 1 == 7 {
      assert BinaryLevel(ts, c, 7) == UnaryLevel(ts, c);
    } else {
      assert BinaryLoop(ts, n, e, level + 1) == Parsed(e, n);
    }
  }

  lemma {:induction false} ClimbToAssignment(ts: seq<Token>, c: Cursor, e: Expr, n: Cursor)
    requires Stream(ts) && In(ts, c) && In(ts, n) && Yields(ts, c, e, n, 1)
    requires !Extends(Kind(ts, n))
    ensures Yields(ts, c, e, n, 0)
  {
    assert BinaryLoop(ts, n, e, 1) == Parsed(e, n);
    assert Compound(ts, n, e) == Parsed(e, n);
  }

  lemma {:induction false} Climb(ts: seq<Token>, c: Cursor, e: Expr, n: Cursor, from: nat, to: nat)
    requires Stream(ts) && In(ts, c) && In(ts, n) && to <= from <= 8 && Yields(ts, c, e, n, from)
    requires to < from ==> !Tight(Kind(ts, n), to)
    requires to < from && to == 0 ==> !Extends(Kind(ts, n))
    requires from == 8 && to < 8 ==> !Kind(ts, c).NotT? && !Kind(ts, c).MinusT?
    ensures Yields(ts, c, e, n, to)
    decreases from
  {
    hide Yields, LevelOf;
    if to < from {
      if from == 8 {
        ClimbToUnary(ts, c, e, n);
      } else if from == 1 {
        ClimbToAssignment(ts, c, e, n);
      } else {
        ClimbOne(ts, c, e, n, from - 1);
      }
      Climb(ts, c, e, n, from - 1, to);
    }
  }

  // ---------- the tokens of a tree ----------

  /** A tree written for a level, in front of a token that does not bind it tighter. */
  lemma {:induction false} ShowAt(ts: seq<Token>, c: Cursor, e: Expr, level: nat)
    requires Stream(ts) && Producible(e) && level <= 8 && Stands(ts, c, Show(e, level))
    requires var k := ts[c.pos + |Show(e, level)|].kind;
             && (level < 8 ==> !Tight(k, level))
             && (level == 0 ==> !Extends(k))
             && (level == 8 && e == Variable("super") ==> !k.LParenT?)
    ensures Yields(ts, c, e, Ahead(c, |Show(e, level)|), level)
    decreases e, 7
  {
    hide Yields, Tight, Extends, Producible, Body, LevelOf;
    var n := Ahead(c, |Show(e, level)|);
    ShowBegins(e, level);
    AtIndex(ts, c.pos, Show(e, level), 0);
    if Binding(e) < level {
      ParenthesesAt(ts, c, e);
      Climb(ts, c, e, n, 8, level);
    } else {
      BodyBegins(e);
      TightWeakens(ts[n.pos].kind, level, Binding(e));
      BodyAt(ts, c, e);
      Climb(ts, c, e, n, Binding(e), level);
    }
  }

  lemma {:induction false} TightWeakens(kind: TokenType, low: nat, high: nat)
    requires low <= high
    ensures Tight(kind, high) ==> Tight(kind, low)
    ensures Tight(kind, low) ==> low == 0 ==> Extends(kind)
    ensures Tight(kind, 0) ==> Extends(kind)
    ensures kind.LParenT? ==> Tight(kind, low)
  {
  }

  lemma {:induction false} ParenthesesAt(ts: seq<Token>, c: Cursor, e: Expr)
    requires Stream(ts) && Producible(e) && Stands(ts, c, [LPAREN] + (Body(e) + [RPAREN]))
    ensures Yields(ts, c, e, Ahead(c, |Body(e)| + 2), 8)
    decreases e, 6
  {
    hide Body, Assignment, PostfixLoop, Producible, At;
    AtOne(ts, c.pos, LPAREN, Body(e) + [RPAREN]);
    AtTail(ts, c.pos + 1, Body(e), [RPAREN]);
    AtIndex(ts, c.pos + 1 + |Body(e)|, [RPAREN], 0);
    WholeAt(ts, Next(c), e);
    var n := Ahead(c, |Body(e)| + 2);
    assert Advance(ts, c) == Next(c);
    assert Expression(ts, Next(c)) == Parsed(e, Ahead(Next(c), |Body(e)|));
    assert Bracketed(ts, Next(c), LParenT) == Parsed(e, n);
    assert Primary(ts, c) == Parsed(e, n);
  }

  /** A tree without parentheses around it, as a whole expression. */
  lemma {:induction false} WholeAt(ts: seq<Token>, c: Cursor, e: Expr)
    requires Stream(ts) && Producible(e) && Stands(ts, c, Body(e))
    requires !Extends(ts[c.pos + |Body(e)|].kind)
    ensures Assignment(ts, c) == Parsed(e, Ahead(c, |Body(e)|))
    decreases e, 5
  {
    hide Body, Producible, Tight, Extends, LevelOf, Assignment;
    var n := Ahead(c, |Body(e)|);
    BodyBegins(e);
    AtIndex(ts, c.pos, Body(e), 0);
    TightWeakens(ts[n.pos].kind, 0, Binding(e));
    BodyAt(ts, c, e);
    Climb(ts, c, e, n, Binding(e), 0);
  }

  // ---------- each form of tree ----------

  /** A tree at its own level. */
  lemma {:induction false} BodyAt(ts: seq<Token>, c: Cursor, e: Expr)
    requires Stream(ts) && Producible(e) && Stands(ts, c, Body(e))
    requires var k := ts[c.pos + |Body(e)|].kind;
             && (Binding(e) < 8 ==> !Tight(k, Binding(e)))
             && (Binding(e) == 0 ==> !Extends(k))
             && (e == Variable("super") ==> !k.LParenT?)
    ensures Yields(ts, c, e, Ahead(c, |Body(e)|), Binding(e))
    decreases e, 4
  {
    hide Body, Producible, Tight, Extends, LevelOf, Yields, Stands;
    if e.Number? || e.Str? || e.Bool? || e.Null? {
      AtomAt(ts, c, e);
    } else if e.Variable? {
      NamedAt(ts, c, e);
    } else if e.List? || e.Super? || e.Dict? {
      BracketedAt(ts, c, e);
    } else if e.Call? {
      CallAt(ts, c, e);
    } else if e.Dot? {
      DotAt(ts, c, e);
    } else if e.Index? {
      IndexAt(ts, c, e);
    } else if e.Unary? {
      UnaryAt(ts, c, e);
    } else if e.Binary? {
      BinaryAt(ts, c, e);
    } else {
      AssignmentAt(ts, c, e);
    }
  }

  lemma {:induction false} AtomAt(ts: seq<Token>, c: Cursor, e: Expr)
    requires Stream(ts) && Producible(e) && Stands(ts, c, Body(e))
    requires e.Number? || e.Str? || e.Bool? || e.Null?
    ensures Yields(ts, c, e, Ahead(c, |Body(e)|), 8)
  {
    hide PostfixLoop, NumberValue;
    AtIndex(ts, c.pos, Body(e), 0);
    assert Primary(ts, c) == Parsed(e, Next(c));
  }

  lemma {:induction false} NamedAt(ts: seq<Token>, c: Cursor, e: Expr)
    requires Stream(ts) && Producible(e) && Stands(ts, c, Body(e)) && e.Variable?
    requires e == Variable("super") ==> !ts[c.pos + |Body(e)|].kind.LParenT?
    ensures Yields(ts, c, e, Ahead(c, |Body(e)|), 8)
  {
    hide Yields, VariableToken;
    VariableAt(ts, c, e.name);
  }

  lemma {:induction false} VariableAt(ts: seq<Token>, c: Cursor, name: string)
    requires Stream(ts) && IsVariableName(name) && Stands(ts, c, [VariableToken(name)])
    requires name == "super" ==> !ts[c.pos + 1].kind.LParenT?
    ensures Yields(ts, c, Variable(name), Next(c), 8)
  {
    hide PostfixLoop, Elements;
    AtIndex(ts, c.pos, [VariableToken(name)], 0);
    assert Primary(ts, c) == Parsed(Variable(name), Next(c));
  }

  /** A list of expressions up to its closing bracket. */
  lemma {:induction false} ElementsAt(ts: seq<Token>, c: Cursor, es: seq<Expr>, close: Token)
    requires Stream(ts) && AllProducible(es) && Stands(ts, c, ShowAll(es) + [close])
    requires close.kind.RParenT? || close.kind.RBracketT?
    ensures Elements(ts, c, close.kind) == Parsed(es, Ahead(c, |ShowAll(es)| + 1))
    decreases es, 1
  {
    hide Commas, Show, Producible, At;
    AtTail(ts, c.pos, ShowAll(es), [close]);
    AtIndex(ts, c.pos + |ShowAll(es)|, [close], 0);
    if es != [] {
      ShowBegins(es[0], 0);
      AtIndex(ts, c.pos, ShowAll(es), 0);
      CommasAt(ts, c, es, []);
      assert [] + es == es;
    }
  }

  lemma {:induction false} CommaStep(ts: seq<Token>, c: Cursor, found: seq<Expr>, e: Expr, d: Cursor)
    requires Stream(ts) && In(ts, c) && In(ts, d) && c.pos <= d.pos && Assignment(ts, c) == Parsed(e, d)
    ensures !Kind(ts, d).CommaT? ==> Commas(ts, c, found) == Parsed(found + [e], d)
    ensures Kind(ts, d).CommaT? && d.pos + 1 < |ts| ==> Commas(ts, c, found) == Commas(ts, Next(d), found + [e])
  {
    hide Assignment;
    assert Expression(ts, c) == Parsed(e, d);
  }

  lemma {:induction false} CommasAt(ts: seq<Token>, c: Cursor, es: seq<Expr>, found: seq<Expr>)
    requires Stream(ts) && es != [] && AllProducible(es) && Stands(ts, c, ShowAll(es))
    requires var k := ts[c.pos + |ShowAll(es)|].kind; k.RParenT? || k.RBracketT?
    ensures Commas(ts, c, found) == Parsed(found + es, Ahead(c, |ShowAll(es)|))
    decreases es, 0
  {
    hide Assignment, Commas, Show, Producible, At;
    var first := Show(es[0], 0);
    var d := Ahead(c, |first|);
    if |es| == 1 {
      ShowAt(ts, c, es[0], 0);
      CommaStep(ts, c, found, es[0], d);
      assert es == [es[0]];
    } else {
      AtTail(ts, c.pos, first, [COMMA] + ShowAll(es[1..]));
      AtOne(ts, d.pos, COMMA, ShowAll(es[1..]));
      ShowAt(ts, c, es[0], 0);
      CommaStep(ts, c, found, es[0], d);
      CommasAt(ts, Next(d), es[1..], found + [es[0]]);
      assert found + [es[0]] + es[1..] == found + es;
    }
  }

  lemma {:induction false} PairStep(ts: seq<Token>, c: Cursor, found: seq<Pair>, e: Expr, d: Cursor)
    requires Stream(ts) && c.pos + 2 < |ts| && In(ts, d) && c.pos <= d.pos
    requires ts[c.pos].kind.StringT? && ts[c.pos + 1].kind.ColonT? && Assignment(ts, Ahead(c, 2)) == Parsed(e, d)
    ensures var all := found + [Pair(ts[c.pos].value, e)];
            && (!Kind(ts, d).CommaT? ==> Pairs(ts, c, found) == Parsed(all, d))
            && (Kind(ts, d).CommaT? && d.pos + 1 < |ts| ==> Pairs(ts, c, found) == Pairs(ts, Next(d), all))
  {
    hide Assignment;
    assert Expect(ts, c, StringT) == Parsed(ts[c.pos].value, Next(c));
    assert Expect(ts, Next(c), ColonT).at == Ahead(c, 2);
    assert Expression(ts, Ahead(c, 2)) == Parsed(e, d);
  }

  lemma {:induction false} PairAt(ts: seq<Token>, c: Cursor, p: Pair, d: Cursor)
    requires Stream(ts) && Producible(p.value) && At(ts, c.pos, ShowPair(p))
    requires d == Ahead(c, |ShowPair(p)|) && In(ts, d) && !Extends(Kind(ts, d))
    ensures c.pos + 2 <= d.pos && ts[c.pos] == Token(StringT, p.key) && ts[c.pos + 1] == COLON
    ensures Assignment(ts, Ahead(c, 2)) == Parsed(p.value, d)
    decreases p, 0
  {
    hide Assignment, Show, Producible, At;
    AtOne(ts, c.pos, Token(StringT, p.key), [COLON] + Show(p.value, 0));
    AtOne(ts, c.pos + 1, COLON, Show(p.value, 0));
    ValueAt(ts, Ahead(c, 2), p.value);
  }

  lemma {:induction false} PairsParts(ps: seq<Pair>)
    requires ps != [] && PairsProducible(ps)
    ensures Producible(ps[0].value) && PairsProducible(ps[1..])
    ensures |ps| == 1 ==> ShowPairs(ps) == ShowPair(ps[0])
    ensures |ps| > 1 ==> ShowPairs(ps) == ShowPair(ps[0]) + ([COMMA] + ShowPairs(ps[1..]))
  {
    hide Producible, ShowPair;
  }

  lemma {:induction false} PairsAt(ts: seq<Token>, c: Cursor, ps: seq<Pair>, found: seq<Pair>)
    requires Stream(ts) && ps != [] && PairsProducible(ps) && Stands(ts, c, ShowPairs(ps))
    requires ts[c.pos + |ShowPairs(ps)|].kind.RBraceT?
    ensures Pairs(ts, c, found) == Parsed(found + ps, Ahead(c, |ShowPairs(ps)|))
    decreases ps, 0
  {
    hide Assignment, Pairs, ShowPair, ShowPairs, Producible, PairsProducible, At;
    PairsParts(ps);
    var d := Ahead(c, |ShowPair(ps[0])|);
    var all := found + [ps[0]];
    if |ps| == 1 {
      PairAt(ts, c, ps[0], d);
      PairStep(ts, c, found, ps[0].value, d);
      assert all == found + ps;
    } else {
      AtTail(ts, c.pos, ShowPair(ps[0]), [COMMA] + ShowPairs(ps[1..]));
      AtOne(ts, d.pos, COMMA, ShowPairs(ps[1..]));
      PairAt(ts, c, ps[0], d);
      PairStep(ts, c, found, ps[0].value, d);
      PairsAt(ts, Next(d), ps[1..], all);
      assert all + ps[1..] == found + ps;
    }
  }

  lemma {:induction false} BracketedAt(ts: seq<Token>, c: Cursor, e: Expr)
    requires Stream(ts) && Producible(e) && Stands(ts, c, Body(e)) && (e.List? || e.Super? || e.Dict?)
    ensures Yields(ts, c, e, Ahead(c, |Body(e)|), 8)
    decreases e, 1
  {
    hide PostfixLoop, Primary, Bracketed, ShowAll, ShowPairs, AllProducible, PairsProducible, At;
    var n := Ahead(c, |Body(e)|);
    if e.List? {
      AtOne(ts, c.pos, LBRACKET, ShowAll(e.elements) + [RBRACKET]);
      ElementsAt(ts, Next(c), e.elements, RBRACKET);
      BracketStep(ts, c, n, e);
    } else if e.Super? {
      AtOne(ts, c.pos, Token(SuperT, "super"), [LPAREN] + (ShowAll(e.args) + [RPAREN]));
      AtOne(ts, c.pos + 1, LPAREN, ShowAll(e.args) + [RPAREN]);
      ElementsAt(ts, Ahead(c, 2), e.args, RPAREN);
      BracketStep(ts, c, n, e);
    } else {
      AtOne(ts, c.pos, LBRACE, ShowPairs(e.pairs) + [RBRACE]);
      DictAt(ts, Next(c), e.pairs);
      BracketStep(ts, c, n, e);
    }
    assert Primary(ts, c) == Parsed(e, n);
  }

  /** What a bracket or `super` makes of what was read behind it. */
  lemma {:induction false} BracketStep(ts: seq<Token>, c: Cursor, n: Cursor, e: Expr)
    requires Stream(ts) && c.pos + 1 < |ts| && (e.List? || e.Super? || e.Dict?)
    requires e.List? ==> Kind(ts, c).LBracketT? && Elements(ts, Next(c), RBracketT) == Parsed(e.elements, n)
    requires e.Super? ==> Kind(ts, c).SuperT? && ts[c.pos + 1].kind.LParenT? && c.pos + 2 < |ts|
                          && Elements(ts, Ahead(c, 2), RParenT) == Parsed(e.args, n)
    requires e.Dict? ==> Kind(ts, c).LBraceT? && Bracketed(ts, Next(c), LBraceT) == Parsed(e, n)
    ensures Primary(ts, c) == Parsed(e, n)
  {
    hide Elements, Pairs, Expression;
    if e.Dict? {
      hide Bracketed;
    }
  }

  lemma {:induction false} DictStep(ts: seq<Token>, c: Cursor, ps: seq<Pair>, d: Cursor)
    requires Stream(ts) && In(ts, c) && d.pos + 1 < |ts| && Kind(ts, d).RBraceT?
    requires if Kind(ts, c).RBraceT? then ps == [] && c == d else Pairs(ts, c, []) == Parsed(ps, d)
    ensures Bracketed(ts, c, LBraceT) == Parsed(Dict(ps), Next(d))
  {
    hide Pairs, Assignment, Elements;
  }

  lemma {:induction false} PairsBegin(ps: seq<Pair>)
    requires ps != [] && PairsProducible(ps)
    ensures ShowPairs(ps) != [] && ShowPairs(ps)[0].kind.StringT?
  {
    hide Producible, Show;
  }

  lemma {:induction false} DictAt(ts: seq<Token>, c: Cursor, ps: seq<Pair>)
    requires Stream(ts) && PairsProducible(ps) && Stands(ts, c, ShowPairs(ps) + [RBRACE])
    ensures Bracketed(ts, c, LBraceT) == Parsed(Dict(ps), Ahead(c, |ShowPairs(ps)| + 1))
    decreases ps, 1
  {
    hide Pairs, ShowPair, Producible, Bracketed, PairsProducible, At;
    AtTail(ts, c.pos, ShowPairs(ps), [RBRACE]);
    AtIndex(ts, c.pos + |ShowPairs(ps)|, [RBRACE], 0);
    if ps != [] {
      PairsBegin(ps);
      AtIndex(ts, c.pos, ShowPairs(ps), 0);
      PairsAt(ts, c, ps, []);
      assert [] + ps == ps;
    }
    DictStep(ts, c, ps, Ahead(c, |ShowPairs(ps)|));
  }

  lemma {:induction false} CallAt(ts: seq<Token>, c: Cursor, e: Expr)
    requires Stream(ts) && Producible(e) && Stands(ts, c, Body(e)) && e.Call?
    ensures Yields(ts, c, e, Ahead(c, |Body(e)|), 8)
    decreases e, 1
  {
    hide Postfix, Elements, ShowAll, AllProducible, Show, At;
    var f := ShowCallee(e.callee);
    var d := Ahead(c, |f|);
    AtTail(ts, c.pos, f, [LPAREN] + (ShowAll(e.args) + [RPAREN]));
    AtOne(ts, d.pos, LPAREN, ShowAll(e.args) + [RPAREN]);
    CalleeAt(ts, c, e.callee);
    ElementsAt(ts, Next(d), e.args, RPAREN);
    assert PostfixLoop(ts, d, e.callee) == PostfixLoop(ts, Ahead(c, |Body(e)|), e);
  }

  lemma {:induction false} CalleeAt(ts: seq<Token>, c: Cursor, f: Expr)
    requires Stream(ts) && Producible(f) && Stands(ts, c, ShowCallee(f))
    ensures Yields(ts, c, f, Ahead(c, |ShowCallee(f)|), 8)
    decreases f, 8
  {
    hide Yields, Producible, Body;
    if f == Variable("super") {
      ParenthesesAt(ts, c, f);
    } else {
      ShowAt(ts, c, f, 8);
    }
  }

  lemma {:induction false} DotAt(ts: seq<Token>, c: Cursor, e: Expr)
    requires Stream(ts) && Producible(e) && Stands(ts, c, Body(e)) && e.Dot?
    ensures Yields(ts, c, e, Ahead(c, |Body(e)|), 8)
    decreases e, 1
  {
    DotOf(ts, c, e, e.obj, e.property);
  }

  lemma {:induction false} PropertyIsNotEnd(kind: TokenType)
    requires IsPropertyKind(kind)
    ensures !kind.EndOfFileT?
  {
  }

  /** `obj.property`, as a tree of its own or as the target of an assignment. */
  lemma {:induction false} DotOf(ts: seq<Token>, c: Cursor, e: Expr, o: Expr, p: string)
    requires (e.Dot? && o == e.obj && p == e.property) || (e.DictAssign? && o == e.obj && p == e.key)
    requires Stream(ts) && Producible(o) && IsPropertyName(p)
    requires Stands(ts, c, Show(o, 8) + ([DOT] + [PropertyToken(p)]))
    ensures Yields(ts, c, Dot(o, p), Ahead(c, |Show(o, 8)| + 2), 8)
    decreases e, 0
  {
    hide Postfix, Show, IsPropertyKind, KeywordToTokenType, Producible, IsWord, At;
    var d := Ahead(c, |Show(o, 8)|);
    AtTail(ts, c.pos, Show(o, 8), [DOT] + [PropertyToken(p)]);
    AtOne(ts, d.pos, DOT, [PropertyToken(p)]);
    AtIndex(ts, d.pos + 1, [PropertyToken(p)], 0);
    ShowAt(ts, c, o, 8);
    PropertyIsNotEnd(KeywordToTokenType(p));
    assert PropertyName(ts, Next(d)) == Parsed(p, Ahead(d, 2));
    assert PostfixLoop(ts, d, o) == PostfixLoop(ts, Ahead(d, 2), Dot(o, p));
  }

  lemma {:induction false} IndexAt(ts: seq<Token>, c: Cursor, e: Expr)
    requires Stream(ts) && Producible(e) && Stands(ts, c, Body(e)) && e.Index?
    ensures Yields(ts, c, e, Ahead(c, |Body(e)|), 8)
    decreases e, 1
  {
    hide Show, Producible;
    assert Producible(e.obj) && Producible(e.index) by { IndexParts(e); }
    IndexOf(ts, c, e, e.obj, e.index);
  }

  lemma {:induction false} IndexParts(e: Expr)
    requires Producible(e) && e.Index?
    ensures Producible(e.obj) && Producible(e.index)
  {
  }

  lemma {:induction false} IndexStep(ts: seq<Token>, d: Cursor, o: Expr, i: Expr, close: Cursor)
    requires Stream(ts) && In(ts, d) && close.pos + 1 < |ts| && d.pos < close.pos
    requires Kind(ts, d).LBracketT? && Assignment(ts, Next(d)) == Parsed(i, close) && Kind(ts, close).RBracketT?
    ensures PostfixLoop(ts, d, o) == PostfixLoop(ts, Next(close), Index(o, i))
  {
    hide Assignment;
    assert Expression(ts, Next(d)) == Parsed(i, close);
  }

  lemma {:induction false} BracketsAt(ts: seq<Token>, c: Cursor, a: seq<Token>, b: seq<Token>)
    requires Stands(ts, c, a + ([LBRACKET] + (b + [RBRACKET])))
    ensures var p := c.pos + |a|;
            && At(ts, c.pos, a) && p + |b| + 2 < |ts| && ts[p] == LBRACKET
            && At(ts, p + 1, b) && ts[p + 1 + |b|] == RBRACKET
  {
    hide At;
    var p := c.pos + |a|;
    AtTail(ts, c.pos, a, [LBRACKET] + (b + [RBRACKET]));
    AtOne(ts, p, LBRACKET, b + [RBRACKET]);
    AtTail(ts, p + 1, b, [RBRACKET]);
    AtIndex(ts, p + 1 + |b|, [RBRACKET], 0);
  }

  /** `obj[index]`, as a tree of its own or as the target of an assignment. */
  lemma {:induction false} IndexOf(ts: seq<Token>, c: Cursor, e: Expr, o: Expr, i: Expr)
    requires (e.Index? || e.IndexAssign?) && o == e.obj && i == e.index
    requires Stream(ts) && Producible(o) && Producible(i)
    requires Stands(ts, c, Show(o, 8) + ([LBRACKET] + (Show(i, 0) + [RBRACKET])))
    ensures Yields(ts, c, Index(o, i), Ahead(c, |Show(o, 8)| + |Show(i, 0)| + 2), 8)
    decreases e, 0
  {
    hide Postfix, PostfixLoop, Show, Assignment, Producible, At;
    var d := Ahead(c, |Show(o, 8)|);
    var close := Ahead(d, 1 + |Show(i, 0)|);
    BracketsAt(ts, c, Show(o, 8), Show(i, 0));
    ShowAt(ts, c, o, 8);
    ValueAt(ts, Next(d), i);
    IndexStep(ts, d, o, i, close);
  }

  lemma {:induction false} UnaryAt(ts: seq<Token>, c: Cursor, e: Expr)
    requires Stream(ts) && Producible(e) && Stands(ts, c, Body(e)) && e.Unary?
    requires !Tight(ts[c.pos + |Body(e)|].kind, 7)
    ensures Yields(ts, c, e, Ahead(c, |Body(e)|), 7)
    decreases e, 1
  {
    hide Postfix, Show, Tight, LevelOf, OperatorText, At;
    AtOne(ts, c.pos, Operator(e.op), Show(e.operand, 7));
    ShowAt(ts, Next(c), e.operand, 7);
  }

  lemma {:induction false} BinaryAt(ts: seq<Token>, c: Cursor, e: Expr)
    requires Stream(ts) && Producible(e) && Stands(ts, c, Body(e)) && e.Binary?
    requires !Tight(ts[c.pos + |Body(e)|].kind, LevelOf(e.op))
    ensures Yields(ts, c, e, Ahead(c, |Body(e)|), LevelOf(e.op))
    decreases e, 1
  {
    hide Show, OperatorText, BinaryLevel, UnaryLevel, Producible, LevelOf, At;
    var p := LevelOf(e.op);
    assert 1 <= p <= 6 && Producible(e.left) && Producible(e.right) by { BinaryParts(e); }
    var l, r := Show(e.left, p), Show(e.right, p + 1);
    var d, n := Ahead(c, |l|), Ahead(c, |Body(e)|);
    AtTail(ts, c.pos, l, [Operator(e.op)] + r);
    AtOne(ts, d.pos, Operator(e.op), r);
    OperatorIsLoose(e.op);
    ShowAt(ts, c, e.left, p);
    ShowAt(ts, Next(d), e.right, p + 1);
    RightOperand(ts, Next(d), e.right, n, p);
  }

  lemma {:induction false} BinaryParts(e: Expr)
    requires Producible(e) && e.Binary?
    ensures 1 <= LevelOf(e.op) <= 6 && Producible(e.left) && Producible(e.right)
  {
  }

  lemma {:induction false} OperatorIsLoose(op: TokenType)
    requires LevelOf(op) > 0
    ensures !Tight(op, LevelOf(op)) && !op.EndOfFileT?
  {
  }

  /** The right operand of an operator of level `p` ends before the next operator of that level. */
  lemma {:induction false} RightOperand(ts: seq<Token>, c: Cursor, e: Expr, n: Cursor, p: nat)
    requires Stream(ts) && In(ts, c) && In(ts, n) && 1 <= p <= 6 && Yields(ts, c, e, n, p + 1)
    requires !Tight(Kind(ts, n), p)
    ensures BinaryLevel(ts, c, p + 1) == Parsed(e, n)
  {
    hide UnaryLevel, LevelOf;
    if p < 6 {
      assert BinaryLoop(ts, n, e, p + 1) == Parsed(e, n);
    }
  }

  /** The assignment a target and a value make. */
  function Assigned(target: Expr, value: Expr): Expr
    requires target.Variable? || target.Index? || target.Dot?
  {
    if target.Variable? then Assign(target.name, value)
    else if target.Index? then IndexAssign(target.obj, target.index, value)
    else DictAssign(target.obj, target.property, value)
  }

  lemma {:induction false} AssignTail(ts: seq<Token>, c: Cursor, target: Expr, d: Cursor, value: Expr, n: Cursor)
    requires Stream(ts) && In(ts, c) && In(ts, d) && In(ts, n) && d.pos + 1 < |ts|
    requires target.Variable? || target.Index? || target.Dot?
    requires Yields(ts, c, target, d, 8) && Kind(ts, d).EqualsT? && !Kind(ts, c).NotT? && !Kind(ts, c).MinusT?
    requires c.pos <= d.pos && Assignment(ts, Next(d)) == Parsed(value, n)
    ensures Assignment(ts, c) == Parsed(Assigned(target, value), n)
  {
    Climb(ts, c, target, d, 8, 1);
    hide BinaryLevel;
    assert BinaryLoop(ts, d, target, 1) == Parsed(target, d);
    assert Advance(ts, d) == Next(d);
  }

  lemma {:induction false} CompoundTail(ts: seq<Token>, c: Cursor, name: string, d: Cursor, value: Expr, n: Cursor)
    requires Stream(ts) && In(ts, c) && In(ts, d) && In(ts, n) && d.pos + 1 < |ts|
    requires Yields(ts, c, Variable(name), d, 8)
    requires IsCompound(Kind(ts, d)) && !Kind(ts, c).NotT? && !Kind(ts, c).MinusT?
    requires c.pos <= d.pos && Assignment(ts, Next(d)) == Parsed(value, n)
    ensures Assignment(ts, c) == Parsed(Assign(name, Binary(Kind(ts, d), Variable(name), value)), n)
  {
    Climb(ts, c, Variable(name), d, 8, 1);
    hide BinaryLevel;
    assert BinaryLoop(ts, d, Variable(name), 1) == Parsed(Variable(name), d);
    assert Compound(ts, d, Variable(name)) == Parsed(Assign(name, Binary(Kind(ts, d), Variable(name), value)), n);
  }

  lemma {:induction false} AssignmentAt(ts: seq<Token>, c: Cursor, e: Expr)
    requires Stream(ts) && Producible(e) && Stands(ts, c, Body(e)) && Binding(e) == 0 && !e.Binary?
    requires !Extends(ts[c.pos + |Body(e)|].kind)
    ensures Yields(ts, c, e, Ahead(c, |Body(e)|), 0)
    decreases e, 3
  {
    hide Body, Producible, Extends, Assignment, Tight;
    if e.Assign? {
      if IsCompoundForm(e.target, e.value) {
        CompoundAssignAt(ts, c, e);
      } else {
        AssignAt(ts, c, e);
      }
    } else if e.IndexAssign? {
      IndexAssignAt(ts, c, e);
    } else {
      DictAssignAt(ts, c, e);
    }
  }

  lemma {:induction false} AssignAt(ts: seq<Token>, c: Cursor, e: Expr)
    requires Stream(ts) && Producible(e) && Stands(ts, c, Body(e))
    requires e.Assign? && !IsCompoundForm(e.target, e.value)
    requires !Extends(ts[c.pos + |Body(e)|].kind)
    ensures Assignment(ts, c) == Parsed(e, Ahead(c, |Body(e)|))
    decreases e, 0
  {
    hide Show, Assignment, VariableToken, Extends, IsVariableName, Yields, At;
    AtOne(ts, c.pos, VariableToken(e.target), [EQUALS] + Show(e.value, 0));
    AtOne(ts, c.pos + 1, EQUALS, Show(e.value, 0));
    VariableAt(ts, c, e.target);
    TightWeakens(ts[c.pos + |Body(e)|].kind, 0, 0);
    ValueAt(ts, Ahead(c, 2), e.value);
    AssignTail(ts, c, Variable(e.target), Next(c), e.value, Ahead(c, |Body(e)|));
  }

  /** The value of an assignment. */
  lemma {:induction false} ValueAt(ts: seq<Token>, c: Cursor, v: Expr)
    requires Stream(ts) && Producible(v) && Stands(ts, c, Show(v, 0))
    requires !Extends(ts[c.pos + |Show(v, 0)|].kind)
    ensures Assignment(ts, c) == Parsed(v, Ahead(c, |Show(v, 0)|))
    decreases v, 8
  {
    hide Show, Assignment;
    ShowAt(ts, c, v, 0);
  }

  lemma {:induction false} CompoundAssignAt(ts: seq<Token>, c: Cursor, e: Expr)
    requires Stream(ts) && Producible(e) && Stands(ts, c, Body(e))
    requires e.Assign? && IsCompoundForm(e.target, e.value)
    requires !Extends(ts[c.pos + |Body(e)|].kind)
    ensures Assignment(ts, c) == Parsed(e, Ahead(c, |Body(e)|))
    decreases e, 0
  {
    hide Show, Assignment, VariableToken, Extends, IsVariableName, Yields, OperatorText, IsCompound, At;
    var right := Show(e.value.right, 0);
    AtOne(ts, c.pos, VariableToken(e.target), [Operator(e.value.op)] + right);
    AtOne(ts, c.pos + 1, Operator(e.value.op), right);
    CompoundIsNoParenthesis(e.value.op);
    VariableAt(ts, c, e.target);
    ValueAt(ts, Ahead(c, 2), e.value.right);
    CompoundTail(ts, c, e.target, Next(c), e.value.right, Ahead(c, |Body(e)|));
  }

  lemma {:induction false} CompoundIsNoParenthesis(kind: TokenType)
    requires IsCompound(kind)
    ensures !kind.LParenT?
  {
  }

  lemma {:induction false} IndexAssignAt(ts: seq<Token>, c: Cursor, e: Expr)
    requires Stream(ts) && Producible(e) && Stands(ts, c, Body(e)) && e.IndexAssign?
    requires !Extends(ts[c.pos + |Body(e)|].kind)
    ensures Assignment(ts, c) == Parsed(e, Ahead(c, |Body(e)|))
    decreases e, 1
  {
    hide Show, Assignment, Extends, Yields, At;
    var o, i, v := Show(e.obj, 8), Show(e.index, 0), Show(e.value, 0);
    var target := o + ([LBRACKET] + (i + [RBRACKET]));
    assert Body(e) == target + ([EQUALS] + v);
    var d := Ahead(c, |target|);
    AtTail(ts, c.pos, target, [EQUALS] + v);
    AtOne(ts, d.pos, EQUALS, v);
    IndexOf(ts, c, e, e.obj, e.index);
    ShowBegins(e.obj, 8);
    AtIndex(ts, c.pos, target, 0);
    ValueAt(ts, Next(d), e.value);
    AssignTail(ts, c, Index(e.obj, e.index), d, e.value, Ahead(c, |Body(e)|));
  }

  lemma {:induction false} DictAssignAt(ts: seq<Token>, c: Cursor, e: Expr)
    requires Stream(ts) && Producible(e) && Stands(ts, c, Body(e)) && e.DictAssign?
    requires !Extends(ts[c.pos + |Body(e)|].kind)
    ensures Assignment(ts, c) == Parsed(e, Ahead(c, |Body(e)|))
    decreases e, 1
  {
    hide Show, Assignment, Extends, Yields, PropertyToken, IsPropertyName, KeywordToTokenType, At;
    var o, v := Show(e.obj, 8), Show(e.value, 0);
    var target := o + ([DOT] + [PropertyToken(e.key)]);
    assert Body(e) == target + ([EQUALS] + v);
    var d := Ahead(c, |target|);
    AtTail(ts, c.pos, target, [EQUALS] + v);
    AtOne(ts, d.pos, EQUALS, v);
    DotOf(ts, c, e, e.obj, e.key);
    ShowBegins(e.obj, 8);
    AtIndex(ts, c.pos, target, 0);
    ValueAt(ts, Next(d), e.value);
    AssignTail(ts, c, Dot(e.obj, e.key), d, e.value, Ahead(c, |Body(e)|));
  }
}
