/** `else` takes a block and nothing else: what becomes of `else if`. */
module ElseIf {
  import opened Slices
  import opened Tokens
  import opened Ast
  import opened Grammar
  import opened Printing
  import opened ExpressionRoundTrip
  import opened StatementRoundTrip

  const ELSE := Token(ElseT, "else")

  /** Everything behind `else` up to a closing brace. */
  ghost function Unopened(ss: seq<Stmt>): seq<Token>
    requires AllStmts(ss)
  {
    [ELSE] + (ShowStmts(ss) + [RBRACE])
  }

  lemma {:induction false} IfComesFirst(ts: seq<Token>, c: Cursor, ss: seq<Stmt>)
    requires Stream(ts) && AllStmts(ss) && ss != [] && ss[0].If? && Stands(ts, c, ShowStmts(ss))
    ensures Kind(ts, c).IfT?
  {
    hide ShowBlock, ShowElse, ShowCondition;
    AtTail(ts, c.pos, ShowStmt(ss[0]), ShowStmts(ss[1..]));
    AtIndex(ts, c.pos, ShowStmt(ss[0]), 0);
  }

  lemma {:induction false} ElseIfAt(ts: seq<Token>, c: Cursor, ss: seq<Stmt>)
    requires Stream(ts) && AllStmts(ss) && ss != [] && ss[0].If? && Stands(ts, c, Unopened(ss))
    ensures ElsePart(ts, c) == Done(ss, Fault(Ahead(c, |Unopened(ss)|)))
  {
    hide BlockLoop, ShowStmts, AllStmts, At, Statement;
    AtOne(ts, c.pos, ELSE, ShowStmts(ss) + [RBRACE]);
    AtTail(ts, c.pos + 1, ShowStmts(ss), [RBRACE]);
    var d := Fault(Ahead(c, 1 + |ShowStmts(ss)|));
    AtIndex(ts, d.pos, [RBRACE], 0);
    IfComesFirst(ts, Next(c), ss);
    StatementsAt(ts, Fault(Next(c)), ss, [], InBlock);
    assert [] + ss == ss;
    ExpectAt(ts, d, RBraceT);
  }

  /**
   * `if (c) { .. } else if ..` is read with one diagnostic, and everything up to the brace that closes the
   * enclosing block becomes the `else` part; that brace is gone.
   */
  lemma {:induction false} ElseIfTakesTheRest(ts: seq<Token>, c: Cursor, cond: Expr, body: seq<Stmt>, ss: seq<Stmt>)
    requires Stream(ts) && Producible(cond) && AllStmts(body) && AllStmts(ss) && ss != [] && ss[0].If?
    requires Stands(ts, c, ShowCondition(cond) + (ShowBlock(body) + Unopened(ss)))
    ensures IfStatement(ts, c) ==
            Done(If(cond, body, ss), Fault(Ahead(c, |ShowCondition(cond) + (ShowBlock(body) + Unopened(ss))|)))
  {
    hide Condition, ShowCondition, Block, ShowBlock, ElsePart, Unopened, Producible, AllStmts, At;
    AtTail(ts, c.pos, ShowCondition(cond), ShowBlock(body) + Unopened(ss));
    var b := Ahead(c, |ShowCondition(cond)|);
    AtTail(ts, b.pos, ShowBlock(body), Unopened(ss));
    ConditionAt(ts, c, cond);
    BlockAt(ts, b, body);
    ElseIfAt(ts, Ahead(b, |ShowBlock(body)|), ss);
  }
}
