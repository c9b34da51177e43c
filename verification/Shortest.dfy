/** The printer is as brief as the grammar allows: no other tokens for a tree are fewer. */
module Shortest {
  import opened Tokens
  import opened Ast
  import opened Grammar
  import opened Printing

  // ---------- how many tokens a tree is printed with ----------

  function Cost(e: Expr, level: nat): nat
    decreases e, 1
  {
    if Binding(e) < level then BodyCost(e) + 2 else BodyCost(e)
  }

  function CalleeCost(e: Expr): nat
    decreases e, 2
  {
    if e == Variable("super") then 3 else Cost(e, 8)
  }

  function BodyCost(e: Expr): nat
    decreases e, 0
  {
    match e
    case Number(_) => 1
    case Str(_) => 1
    case Bool(_) => 1
    case Null => 1
    case List(es) => AllCost(es) + 2
    case Dict(ps) => PairsCost(ps) + 2
    case Variable(_) => 1
    case Assign(t, v) => if IsCompoundForm(t, v) then 2 + Cost(v.right, 0) else 2 + Cost(v, 0)
    case IndexAssign(o, i, v) => Cost(o, 8) + Cost(i, 0) + Cost(v, 0) + 3
    case DictAssign(o, _, v) => Cost(o, 8) + Cost(v, 0) + 3
    case Binary(op, l, r) => Cost(l, LevelOf(op)) + Cost(r, LevelOf(op) + 1) + 1
    case Unary(_, x) => Cost(x, 7) + 1
    case Call(f, args) => CalleeCost(f) + AllCost(args) + 2
    case Dot(o, _) => Cost(o, 8) + 2
    case Index(o, i) => Cost(o, 8) + Cost(i, 0) + 2
    case Super(args) => AllCost(args) + 3
  }

  /** With a comma behind each but the last. */
  function AllCost(es: seq<Expr>): nat
    decreases es
  {
    if es == [] then 0 else if |es| == 1 then Cost(es[0], 0) else Cost(es[0], 0) + 1 + AllCost(es[1..])
  }

  function PairsCost(ps: seq<Pair>): nat
    decreases ps
  {
    if ps == [] then 0
    else if |ps| == 1 then Cost(ps[0].value, 0) + 2
    else Cost(ps[0].value, 0) + 3 + PairsCost(ps[1..])
  }

  lemma {:induction false} CostIsLength(e: Expr, level: nat)
    requires Producible(e)
    ensures |Show(e, level)| == Cost(e, level)
    decreases e, 1
  {
    hide Body, BodyCost, Producible;
    BodyCostIsLength(e);
  }

  lemma {:induction false} BodyCostIsLength(e: Expr)
    requires Producible(e)
    ensures |Body(e)| == BodyCost(e)
    decreases e, 0
  {
    hide IsVariableName, IsDecimal, IsPropertyName, Cost, Show, AllCost, ShowAll, PairsCost, ShowPairs;
    match e
    case Number(_) =>
    case Str(_) =>
    case Bool(_) =>
    case Null =>
    case Variable(_) =>
    case List(es) => AllCostIsLength(es);
    case Dict(ps) => PairsCostIsLength(ps);
    case Assign(t, v) => if IsCompoundForm(t, v) { CostIsLength(v.right, 0); } else { CostIsLength(v, 0); }
    case IndexAssign(o, i, v) => CostIsLength(o, 8); CostIsLength(i, 0); CostIsLength(v, 0);
    case DictAssign(o, _, v) => CostIsLength(o, 8); CostIsLength(v, 0);
    case Binary(op, l, r) => CostIsLength(l, LevelOf(op)); CostIsLength(r, LevelOf(op) + 1);
    case Unary(_, x) => CostIsLength(x, 7);
    case Call(f, args) => CalleeCostIsLength(f); AllCostIsLength(args);
    case Dot(o, _) => CostIsLength(o, 8);
    case Index(o, i) => CostIsLength(o, 8); CostIsLength(i, 0);
    case Super(args) => AllCostIsLength(args);
  }

  lemma {:induction false} CalleeCostIsLength(e: Expr)
    requires Producible(e)
    ensures |ShowCallee(e)| == CalleeCost(e)
    decreases e, 2
  {
    hide Producible;
    CostIsLength(e, 8);
  }

  lemma {:induction false} AllCostIsLength(es: seq<Expr>)
    requires AllProducible(es)
    ensures |ShowAll(es)| == AllCost(es)
    decreases es
  {
    hide Cost, Show, Producible;
    if es != [] {
      CostIsLength(es[0], 0);
      AllCostIsLength(es[1..]);
    }
  }

  lemma {:induction false} PairsCostIsLength(ps: seq<Pair>)
    requires PairsProducible(ps)
    ensures |ShowPairs(ps)| == PairsCost(ps)
    decreases ps
  {
    hide Cost, Show, Producible;
    if ps != [] {
      CostIsLength(ps[0].value, 0);
      PairsCostIsLength(ps[1..]);
    }
  }

  // ---------- lists grow at their end ----------

  lemma {:induction false} AllCostSnoc(es: seq<Expr>, e: Expr)
    ensures AllCost(es + [e]) == AllCost(es) + (if es == [] then 0 else 1) + Cost(e, 0)
    decreases es
  {
    hide Cost;
    if es == [] {
      assert es + [e] == [e];
    } else {
      assert (es + [e])[1..] == es[1..] + [e];
      AllCostSnoc(es[1..], e);
    }
  }

  lemma {:induction false} PairsCostSnoc(ps: seq<Pair>, p: Pair)
    ensures PairsCost(ps + [p]) == PairsCost(ps) + (if ps == [] then 2 else 3) + Cost(p.value, 0)
    decreases ps
  {
    hide Cost;
    if ps == [] {
      assert ps + [p] == [p];
    } else {
      assert (ps + [p])[1..] == ps[1..] + [p];
      PairsCostSnoc(ps[1..], p);
    }
  }

  // ---------- the parser takes at least as many ----------

  /** `super` is a keyword, not an identifier, as the lexer has it. */
  ghost predicate Keyworded(ts: seq<Token>) {
    forall k :: 0 <= k < |ts| && ts[k].kind.IdentifierT? ==> ts[k].value != "super"
  }

  ghost predicate Ready(ts: seq<Token>, c: Cursor) {
    Stream(ts) && Keyworded(ts) && In(ts, c)
  }

  /** Without a diagnostic, `spent` tokens and those from `c` to `d` are enough for `cost`. */
  predicate Pays(spent: nat, c: Cursor, d: Cursor, cost: nat) {
    d.errors == c.errors ==> spent + d.pos - c.pos >= cost
  }

  lemma {:induction false} ExpressionPays(ts: seq<Token>, c: Cursor)
    requires Ready(ts, c)
    ensures Pays(0, c, Expression(ts, c).at, Cost(Expression(ts, c).node, 0))
    decreases |ts| - c.pos, 21
  {
    AssignmentPays(ts, c);
  }

  lemma {:induction false} AssignmentPays(ts: seq<Token>, c: Cursor)
    requires Ready(ts, c)
    ensures Pays(0, c, Assignment(ts, c).at, Cost(Assignment(ts, c).node, 0))
    decreases |ts| - c.pos, 20
  {
    hide BinaryLevel, Cost, Compound;
    LevelPays(ts, c, 1);
    var l := BinaryLevel(ts, c, 1);
    if Kind(ts, l.at).EqualsT? {
      AssignmentPays(ts, Advance(ts, l.at));
      var v := Assignment(ts, Advance(ts, l.at));
      if l.node.Variable? {
        AssignCost(l.node.name, v.node);
      } else if l.node.Index? {
        PlaceCost(l.node.obj, l.node.index, "", v.node);
      } else if l.node.Dot? {
        PlaceCost(l.node.obj, Null, l.node.property, v.node);
      } else {
        CompoundPays(ts, Fault(v.at), l.node);
      }
    } else {
      CompoundPays(ts, l.at, l.node);
    }
  }

  lemma {:induction false} CompoundPays(ts: seq<Token>, c: Cursor, e: Expr)
    requires Ready(ts, c)
    ensures Pays(Cost(e, 1), c, Compound(ts, c, e).at, Cost(Compound(ts, c, e).node, 0))
    decreases |ts| - c.pos, 19
  {
    if IsCompound(Kind(ts, c)) {
      AssignmentPays(ts, Advance(ts, c));
    }
  }

  lemma {:induction false} LevelPays(ts: seq<Token>, c: Cursor, level: nat)
    requires Ready(ts, c) && 1 <= level <= 7
    ensures Pays(0, c, BinaryLevel(ts, c, level).at, Cost(BinaryLevel(ts, c, level).node, level))
    decreases |ts| - c.pos, 5, 7 - level, 1
  {
    if level == 7 {
      UnaryPays(ts, c);
    } else {
      LevelPays(ts, c, level + 1);
      var l := BinaryLevel(ts, c, level + 1);
      LoopPays(ts, l.at, l.node, level);
    }
  }

  lemma {:induction false} LoopPays(ts: seq<Token>, c: Cursor, left: Expr, level: nat)
    requires Ready(ts, c) && 1 <= level < 7
    ensures Pays(Cost(left, level), c, BinaryLoop(ts, c, left, level).at, Cost(BinaryLoop(ts, c, left, level).node, level))
    decreases |ts| - c.pos, 5, 7 - level, 0
  {
    hide Cost;
    if LevelOf(Kind(ts, c)) == level {
      var next := Advance(ts, c);
      LevelPays(ts, next, level + 1);
      var right := BinaryLevel(ts, next, level + 1);
      var b := Binary(Kind(ts, c), left, right.node);
      BinaryCost(Kind(ts, c), left, right.node);
      LoopPays(ts, right.at, b, level);
    }
  }

  lemma {:induction false} BinaryCost(op: TokenType, l: Expr, r: Expr)
    ensures Cost(Binary(op, l, r), LevelOf(op)) == Cost(l, LevelOf(op)) + Cost(r, LevelOf(op) + 1) + 1
  {
    hide LevelOf;
    assert BodyCost(Binary(op, l, r)) == Cost(l, LevelOf(op)) + Cost(r, LevelOf(op) + 1) + 1;
  }

  lemma {:induction false} AssignCost(t: string, v: Expr)
    ensures Cost(Assign(t, v), 0) <= Cost(v, 0) + 2 && Cost(Variable(t), 1) == 1
  {
    hide LevelOf;
    if IsCompoundForm(t, v) {
      assert Cost(v, 0) == BodyCost(v) >= Cost(v.right, LevelOf(v.op) + 1) >= Cost(v.right, 0);
    }
  }

  lemma {:induction false} PlaceCost(o: Expr, i: Expr, key: string, v: Expr)
    ensures Cost(IndexAssign(o, i, v), 0) == Cost(Index(o, i), 1) + 1 + Cost(v, 0)
    ensures Cost(DictAssign(o, key, v), 0) == Cost(Dot(o, key), 1) + 1 + Cost(v, 0)
  {
  }

  lemma {:induction false} UnaryPays(ts: seq<Token>, c: Cursor)
    requires Ready(ts, c)
    ensures Pays(0, c, UnaryLevel(ts, c).at, Cost(UnaryLevel(ts, c).node, 7))
    decreases |ts| - c.pos, 4
  {
    if Kind(ts, c).NotT? || Kind(ts, c).MinusT? {
      UnaryPays(ts, Advance(ts, c));
    } else {
      PostfixPays(ts, c);
    }
  }

  lemma {:induction false} PostfixPays(ts: seq<Token>, c: Cursor)
    requires Ready(ts, c)
    ensures Pays(0, c, Postfix(ts, c).at, Cost(Postfix(ts, c).node, 8))
    decreases |ts| - c.pos, 3
  {
    hide Primary;
    PrimaryPays(ts, c);
    var e := Primary(ts, c);
    ChainPays(ts, e.at, e.node, if e.at.errors == c.errors then e.at.pos - c.pos else Cost(e.node, 8) + 2);
  }

  lemma {:induction false} ChainPays(ts: seq<Token>, c: Cursor, e: Expr, spent: nat)
    requires Ready(ts, c) && spent >= Cost(e, 8) && (Kind(ts, c).LParenT? ==> spent >= CalleeCost(e))
    ensures Pays(spent, c, PostfixLoop(ts, c, e).at, Cost(PostfixLoop(ts, c, e).node, 8))
    decreases |ts| - c.pos, 2
  {
    hide Elements, Expression, PropertyName, AllCost;
    var next := Advance(ts, c);
    if Kind(ts, c).LParenT? {
      ElementsPay(ts, next, RParenT);
      var args := Elements(ts, next, RParenT);
      ChainPays(ts, args.at, Call(e, args.node), CalleeCost(e) + AllCost(args.node) + 2);
    } else if Kind(ts, c).DotT? {
      var name := PropertyName(ts, next);
      PropertyPays(ts, next);
      ChainPays(ts, name.at, Dot(e, name.node), Cost(e, 8) + 2);
    } else if Kind(ts, c).LBracketT? {
      ExpressionPays(ts, next);
      var index := Expression(ts, next);
      ChainPays(ts, Expect(ts, index.at, RBracketT).at, Index(e, index.node), Cost(e, 8) + Cost(index.node, 0) + 2);
    }
  }

  lemma {:induction false} PropertyPays(ts: seq<Token>, c: Cursor)
    requires Ready(ts, c)
    ensures Pays(0, c, PropertyName(ts, c).at, 1)
  {
  }

  /** An operand; one that is called is not a bare `super`. */
  lemma {:induction false} PrimaryPays(ts: seq<Token>, c: Cursor)
    requires Ready(ts, c)
    ensures var p := Primary(ts, c);
            Pays(0, c, p.at, Cost(p.node, 8)) && (Kind(ts, p.at).LParenT? ==> Pays(0, c, p.at, CalleeCost(p.node)))
    decreases |ts| - c.pos, 1
  {
    hide Bracketed;
    if !IsAtom(Kind(ts, c)) && IsOpening(Kind(ts, c)) {
      BracketedPays(ts, Advance(ts, c), Kind(ts, c));
    }
  }

  lemma {:induction false} BracketedPays(ts: seq<Token>, c: Cursor, kind: TokenType)
    requires Ready(ts, c) && IsOpening(kind)
    ensures var b := Bracketed(ts, c, kind);
            Pays(1, c, b.at, Cost(b.node, 8)) && (Kind(ts, b.at).LParenT? ==> Pays(1, c, b.at, CalleeCost(b.node)))
    decreases |ts| - c.pos, 24
  {
    hide Elements, Expression, Pairs, AllCost, PairsCost;
    if kind.SuperT? {
      if Kind(ts, c).LParenT? {
        ElementsPay(ts, Advance(ts, c), RParenT);
      }
    } else if kind.LParenT? {
      ExpressionPays(ts, c);
    } else if kind.LBracketT? {
      ElementsPay(ts, c, RBracketT);
    } else {
      NoPairs();
      if !Kind(ts, c).RBraceT? {
        PairsPay(ts, c, []);
      }
    }
  }

  lemma {:induction false} NoPairs()
    ensures PairsCost([]) == 0 && AllCost([]) == 0
  {
  }

  lemma {:induction false} ElementsPay(ts: seq<Token>, c: Cursor, close: TokenType)
    requires Ready(ts, c)
    ensures Pays(0, c, Elements(ts, c, close).at, AllCost(Elements(ts, c, close).node) + 1)
    decreases |ts| - c.pos, 23
  {
    hide Commas, AllCost;
    NoPairs();
    if !Check(ts, c, close) {
      CommasPay(ts, c, []);
    }
  }

  lemma {:induction false} CommasPay(ts: seq<Token>, c: Cursor, found: seq<Expr>)
    requires Ready(ts, c)
    ensures var r := Commas(ts, c, found);
            Pays(AllCost(found) + (if found == [] then 0 else 1), c, r.at, AllCost(r.node))
    decreases |ts| - c.pos, 22
  {
    hide Expression, AllCost, Cost;
    ExpressionPays(ts, c);
    var e := Expression(ts, c);
    AllCostSnoc(found, e.node);
    if Kind(ts, e.at).CommaT? {
      CommasPay(ts, Advance(ts, e.at), found + [e.node]);
    }
  }

  lemma {:induction false} OnePairPays(ts: seq<Token>, c: Cursor)
    requires Ready(ts, c)
    ensures var e := Expression(ts, Expect(ts, Expect(ts, c, StringT).at, ColonT).at);
            Pays(0, c, e.at, Cost(e.node, 0) + 2)
    decreases |ts| - c.pos, 22, 0
  {
    hide Expression, Cost;
    ExpressionPays(ts, Expect(ts, Expect(ts, c, StringT).at, ColonT).at);
  }

  lemma {:induction false} PairsPay(ts: seq<Token>, c: Cursor, found: seq<Pair>)
    requires Ready(ts, c)
    ensures var r := Pairs(ts, c, found);
            Pays(PairsCost(found) + (if found == [] then 0 else 1), c, r.at, PairsCost(r.node))
    decreases |ts| - c.pos, 22
  {
    hide Expression, Expect, PairsCost, Cost;
    var key := Expect(ts, c, StringT);
    var e := Expression(ts, Expect(ts, key.at, ColonT).at);
    OnePairPays(ts, c);
    PairsCostSnoc(found, Pair(key.node, e.node));
    if Kind(ts, e.at).CommaT? {
      PairsPay(ts, Advance(ts, e.at), found + [Pair(key.node, e.node)]);
    }
  }

  /**
   * Whatever tokens are parsed as an expression without a diagnostic, printing the tree takes no more of them. So
   * no pair of parentheses the printer writes can be left out.
   */
  lemma {:induction false} NoTextIsShorter(ts: seq<Token>, c: Cursor)
    requires Ready(ts, c)
    ensures var r := Expression(ts, c);
            r.at.errors == c.errors && Producible(r.node) ==> r.at.pos - c.pos >= |Show(r.node, 0)|
  {
    hide Expression, Show, Producible;
    ExpressionPays(ts, c);
    var r := Expression(ts, c);
    if r.at.errors == c.errors && Producible(r.node) {
      CostIsLength(r.node, 0);
    }
  }
}
