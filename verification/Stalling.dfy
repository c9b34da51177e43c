/** Where statement parsing moves on, and where its loops repeat one turn for ever. */
module Stalling {
  import opened Tokens
  import opened Ast
  import opened Grammar
  import opened StatementRoundTrip

  /** An operator that is consumed even if nothing stands in front of it. */
  predicate IsInfix(kind: TokenType) {
    LevelOf(kind) > 0 || kind.EqualsT? || IsCompound(kind)
  }

  /** A token that begins an operand. */
  predicate StartsOperand(kind: TokenType) {
    IsAtom(kind) || kind.DeclaratorT? || kind.NewT? || IsOpening(kind) || kind.NotT? || kind.MinusT?
  }

  /** A token that begins a statement other than an expression. */
  predicate StartsStatement(kind: TokenType) {
    || IsCompoundKeyword(kind) || kind.ReturnT? || kind.PrintT? || kind.BreakT? || kind.ContinueT?
    || kind.ConstT? || IsTypeKind(kind)
  }

  /** A token no rule of the grammar takes at the beginning of a statement. */
  predicate IsStuck(kind: TokenType) {
    !StartsStatement(kind) && !StartsOperand(kind) && !IsInfix(kind) && !kind.DotT? && !kind.SemicolonT?
  }

  // ---------- expressions ----------

  /** No operand here: one diagnostic, no move. */
  lemma {:induction false} NoOperand(ts: seq<Token>, c: Cursor)
    requires Stream(ts) && In(ts, c) && !StartsOperand(Kind(ts, c)) && !Kind(ts, c).DotT?
    ensures UnaryLevel(ts, c) == Parsed(Null, Fault(c))
  {
    hide Expression, Elements, PropertyName;
    assert Primary(ts, c) == Parsed(Null, Fault(c));
    assert PostfixLoop(ts, Fault(c), Null) == Parsed(Null, Fault(c));
    assert UnaryLevel(ts, c) == Postfix(ts, c);
  }

  lemma {:induction false} NoOperandAt(ts: seq<Token>, c: Cursor, level: nat)
    requires Stream(ts) && In(ts, c) && 1 <= level <= 7 && UnaryLevel(ts, c) == Parsed(Null, Fault(c))
    requires LevelOf(Kind(ts, c)) < level
    ensures BinaryLevel(ts, c, level) == Parsed(Null, Fault(c))
    decreases 7 - level
  {
    hide UnaryLevel;
    if level < 7 {
      NoOperandAt(ts, c, level + 1);
      assert BinaryLoop(ts, Fault(c), Null, level) == Parsed(Null, Fault(c));
    }
  }

  lemma {:induction false} OperandMoves(ts: seq<Token>, c: Cursor)
    requires Stream(ts) && In(ts, c) && (StartsOperand(Kind(ts, c)) || Kind(ts, c).DotT?)
    ensures UnaryLevel(ts, c).at.pos > c.pos
  {
    hide Expression, Elements, Bracketed, Expect;
    if Kind(ts, c).NotT? || Kind(ts, c).MinusT? {
    } else if Kind(ts, c).DotT? {
      assert Primary(ts, c) == Parsed(Null, Fault(c));
      assert PostfixLoop(ts, Fault(c), Null).at.pos > c.pos;
      assert UnaryLevel(ts, c) == Postfix(ts, c);
    } else {
      assert Primary(ts, c).at.pos > c.pos;
      assert UnaryLevel(ts, c) == Postfix(ts, c);
    }
  }

  lemma {:induction false} LevelMoves(ts: seq<Token>, c: Cursor, level: nat)
    requires Stream(ts) && In(ts, c) && 1 <= level <= 7
    requires StartsOperand(Kind(ts, c)) || Kind(ts, c).DotT? || level <= LevelOf(Kind(ts, c))
    ensures BinaryLevel(ts, c, level).at.pos > c.pos
    decreases 7 - level
  {
    hide UnaryLevel, StartsOperand;
    if level == 7 {
      OperandMoves(ts, c);
    } else if StartsOperand(Kind(ts, c)) || Kind(ts, c).DotT? || level + 1 <= LevelOf(Kind(ts, c)) {
      LevelMoves(ts, c, level + 1);
    } else {
      NoOperand(ts, c);
      NoOperandAt(ts, c, level + 1);
    }
  }

  lemma {:induction false} ExpressionMoves(ts: seq<Token>, c: Cursor)
    requires Stream(ts) && In(ts, c)
    ensures Expression(ts, c).at.pos == c.pos <==>
              !StartsOperand(Kind(ts, c)) && !IsInfix(Kind(ts, c)) && !Kind(ts, c).DotT?
    ensures Expression(ts, c).at.pos == c.pos ==> Expression(ts, c) == Parsed(Null, Fault(c))
  {
    hide BinaryLevel, UnaryLevel, StartsOperand, LevelOf;
    if StartsOperand(Kind(ts, c)) || Kind(ts, c).DotT? || 1 <= LevelOf(Kind(ts, c)) {
      LevelMoves(ts, c, 1);
    } else {
      NoOperand(ts, c);
      NoOperandAt(ts, c, 1);
      assert Compound(ts, Fault(c), Null).at.pos == c.pos <==> !IsCompound(Kind(ts, c));
      assert Kind(ts, Fault(c)) == Kind(ts, c);
    }
  }

  // ---------- statements ----------

  /**
   * A statement is parsed without moving exactly at a stuck token, and then it is the `null` expression,
   * with one diagnostic.
   */
  lemma {:induction false} StatementStalls(ts: seq<Token>, c: Cursor)
    requires Stream(ts) && In(ts, c)
    ensures (Statement(ts, c).Done? && Statement(ts, c).at.pos == c.pos) <==> IsStuck(Kind(ts, c))
    ensures IsStuck(Kind(ts, c)) ==> Statement(ts, c) == Done(ExprStmt(Null), Fault(c))
  {
    hide Expression, CompoundStatement, Declaration, StartsOperand, LevelOf;
    ExpressionMoves(ts, c);
    if StartsStatement(Kind(ts, c)) {
      KeywordsStartNoOperand(Kind(ts, c));
      KeywordsAreNoOperators(Kind(ts, c));
      KeywordsDoNotAssign(Kind(ts, c));
    }
  }

  lemma {:induction false} KeywordsStartNoOperand(kind: TokenType)
    requires StartsStatement(kind)
    ensures !StartsOperand(kind)
  {
  }

  lemma {:induction false} KeywordsAreNoOperators(kind: TokenType)
    requires StartsStatement(kind)
    ensures LevelOf(kind) == 0
  {
  }

  lemma {:induction false} KeywordsDoNotAssign(kind: TokenType)
    requires StartsStatement(kind)
    ensures !kind.EqualsT? && !IsCompound(kind)
  {
  }

  // ---------- statement loops ----------

  /** Where the loop ends. The loop of a class body does not look for the end marker. */
  predicate Stops(ts: seq<Token>, c: Cursor, w: Where)
    requires In(ts, c)
  {
    match w
    case InBlock => Kind(ts, c).RBraceT? || AtEnd(ts, c)
    case InClass => Kind(ts, c).RBraceT?
    case InProgram => AtEnd(ts, c)
  }

  /** `n` statements in a row, each of which moves, lead from `c` to `d` without meeting the end of the loop. */
  ghost predicate Arrives(ts: seq<Token>, c: Cursor, d: Cursor, n: nat, w: Where)
    requires Stream(ts) && In(ts, c)
    decreases n
  {
    if n == 0 then c == d
    else
      && !Stops(ts, c, w)
      && Statement(ts, c).Done?
      && Statement(ts, c).at.pos > c.pos
      && Arrives(ts, Statement(ts, c).at, d, n - 1, w)
  }

  /** The loop cannot go on here: a stuck token, or a statement that itself never ends. */
  predicate Hangs(ts: seq<Token>, d: Cursor, w: Where)
    requires Stream(ts) && In(ts, d)
  {
    !Stops(ts, d, w) && (IsStuck(Kind(ts, d)) || Statement(ts, d).Spins?)
  }

  ghost predicate GetsStuck(ts: seq<Token>, c: Cursor, w: Where)
    requires Stream(ts) && In(ts, c)
  {
    exists d: Cursor, n: nat :: Arrives(ts, c, d, n, w) && In(ts, d) && Hangs(ts, d, w)
  }

  lemma {:induction false} StuckNow(ts: seq<Token>, c: Cursor, w: Where)
    requires Stream(ts) && In(ts, c)
    ensures Hangs(ts, c, w) ==> GetsStuck(ts, c, w)
    ensures Stops(ts, c, w) ==> !GetsStuck(ts, c, w)
  {
    hide Statement, Hangs;
    if Hangs(ts, c, w) {
      assert Arrives(ts, c, c, 0, w);
    }
    if Stops(ts, c, w) {
      assert !Hangs(ts, c, w) by { NoHang(ts, c, w); }
    }
  }

  lemma {:induction false} NoHang(ts: seq<Token>, c: Cursor, w: Where)
    requires Stream(ts) && In(ts, c) && Stops(ts, c, w)
    ensures !Hangs(ts, c, w)
  {
  }

  lemma {:induction false} StuckLater(ts: seq<Token>, c: Cursor, w: Where)
    requires Stream(ts) && In(ts, c) && !Stops(ts, c, w) && !Hangs(ts, c, w)
    requires Statement(ts, c).Done? && Statement(ts, c).at.pos > c.pos
    ensures GetsStuck(ts, c, w) <==> GetsStuck(ts, Statement(ts, c).at, w)
  {
    hide Statement, Hangs, Stops;
    var next := Statement(ts, c).at;
    if GetsStuck(ts, c, w) {
      var d: Cursor, n: nat :| Arrives(ts, c, d, n, w) && In(ts, d) && Hangs(ts, d, w);
      assert n > 0 && Arrives(ts, next, d, n - 1, w);
    }
    if GetsStuck(ts, next, w) {
      var d: Cursor, n: nat :| Arrives(ts, next, d, n, w) && In(ts, d) && Hangs(ts, d, w);
      assert Arrives(ts, c, d, n + 1, w);
    }
  }

  /** A statement loop runs for ever exactly if it arrives at a place where it hangs. */
  lemma {:induction false} LoopSpins(ts: seq<Token>, c: Cursor, found: seq<Stmt>, w: Where)
    requires Stream(ts) && In(ts, c)
    ensures Loop(ts, c, found, w).Spins? <==> GetsStuck(ts, c, w)
    decreases |ts| - c.pos
  {
    hide Statement, IsStuck, GetsStuck;
    StatementStalls(ts, c);
    StuckNow(ts, c, w);
    if !Stops(ts, c, w) && !Hangs(ts, c, w) {
      var s := Statement(ts, c);
      StuckLater(ts, c, w);
      LoopSpins(ts, s.at, found + [s.node], w);
    }
  }

  /** An unfinished block ends at the end marker with a diagnostic; an unfinished class body never ends. */
  lemma {:induction false} UnfinishedBodies(ts: seq<Token>, c: Cursor, d: Cursor, n: nat, found: seq<Stmt>)
    requires Stream(ts) && In(ts, c) && In(ts, d) && AtEnd(ts, d)
    requires Arrives(ts, c, d, n, InClass)
    ensures ClassLoop(ts, c, found).Spins?
    ensures BlockLoop(ts, c, found).Done? && BlockLoop(ts, c, found).at == d
    decreases n
  {
    hide Statement;
    if n == 0 {
      assert IsStuck(EndOfFileT);
      StatementStalls(ts, c);
    } else {
      var s := Statement(ts, c);
      NotAtEnd(ts, c);
      UnfinishedBodies(ts, s.at, d, n - 1, found + [s.node]);
    }
  }

  lemma {:induction false} NotAtEnd(ts: seq<Token>, c: Cursor)
    requires Stream(ts) && In(ts, c) && Statement(ts, c).Done? && Statement(ts, c).at.pos > c.pos
    ensures !AtEnd(ts, c)
  {
    hide Statement;
    StatementStalls(ts, c);
  }
}
