/** How often a `for` goes round. */
module ForLoops {
  import opened Options
  import opened Ast
  import opened Values
  import opened Environments
  import opened Evaluation

  /** The state behind `k` turns, if the condition held before each of them and each ended normally. */
  function AfterTurns(h: Host, st: Stmt, s: State, k: nat, fuel: nat): (r: Option<State>)
    requires Sound(s) && st.For?
    ensures r.Some? ==> Sound(r.value)
    decreases k
  {
    if k == 0 then Some(s)
    else
      match AfterTurns(h, st, s, k - 1, fuel)
      case None => None
      case Some(t) => OneTurn(h, st, t, fuel)
  }

  function OneTurn(h: Host, st: Stmt, s: State, fuel: nat): (r: Option<State>)
    requires Sound(s) && st.For?
    ensures r.Some? ==> Sound(r.value)
  {
    var d := Evaluate(h, st.condition, s, fuel);
    if d.Done? && Truthy(d.result, d.state.objects) then
      var t := ForTurn(h, st, d.state, fuel);
      if t.Done? then Some(t.state) else None
    else None
  }

  /** The loop is left from this state: the condition is evaluated, and either fails, or the last turn does. */
  function LeftFrom(h: Host, st: Stmt, s: State, last: bool, fuel: nat): Outcome<Value>
    requires Sound(s) && st.For?
  {
    var d :- Evaluate(h, st.condition, s, fuel);
    if last || !Truthy(d.result, d.state.objects) then Done(NullV, d.state) else ForTurn(h, st, d.state, fuel)
  }

  /** The loop completes exactly `k` turns, and then this is how it ends. */
  ghost predicate MakesTurns(h: Host, st: Stmt, s: State, k: nat, fuel: nat)
    requires Sound(s) && st.For? && k <= FOR_LIMIT
  {
    var t := AfterTurns(h, st, s, k, fuel);
    && t.Some?
    && (k < FOR_LIMIT ==> OneTurn(h, st, t.value, fuel).None?)
    && ForLoop(h, st, 0, s, fuel) == LeftFrom(h, st, t.value, k == FOR_LIMIT, fuel)
  }

  lemma {:induction false} TurnsUnroll(h: Host, st: Stmt, s: State, k: nat, fuel: nat)
    requires Sound(s) && st.For? && k <= FOR_LIMIT && AfterTurns(h, st, s, k, fuel).Some?
    ensures ForLoop(h, st, 0, s, fuel) == ForLoop(h, st, k, AfterTurns(h, st, s, k, fuel).value, fuel)
    decreases k
  {
    hide Evaluate, ForTurn, Truthy, Framed;
    if k > 0 {
      TurnsUnroll(h, st, s, k - 1, fuel);
    }
  }

  lemma {:induction false} FromHere(h: Host, st: Stmt, s: State, k: nat, fuel: nat) returns (n: nat)
    requires Sound(s) && st.For? && k <= FOR_LIMIT && AfterTurns(h, st, s, k, fuel).Some?
    ensures n <= FOR_LIMIT && MakesTurns(h, st, s, n, fuel)
    decreases FOR_LIMIT - k
  {
    hide Evaluate, ForTurn, Truthy, Framed;
    TurnsUnroll(h, st, s, k, fuel);
    var t := AfterTurns(h, st, s, k, fuel).value;
    if k < FOR_LIMIT && OneTurn(h, st, t, fuel).Some? {
      n := FromHere(h, st, s, k + 1, fuel);
    } else {
      n := k;
    }
  }

  /**
   * Any `for` makes some number of turns, at most `FOR_LIMIT`, and the way it ends is known for each number. It
   * makes `FOR_LIMIT`, and ends there whatever the condition says, exactly if the condition has held before each
   * of that many turns and each has ended normally.
   */
  lemma {:induction false} EndlessForIsCut(h: Host, st: Stmt, s: State, fuel: nat)
    requires Sound(s) && st.For?
    ensures exists k: nat :: k <= FOR_LIMIT && MakesTurns(h, st, s, k, fuel)
    ensures MakesTurns(h, st, s, FOR_LIMIT, fuel) <==> AfterTurns(h, st, s, FOR_LIMIT, fuel).Some?
    ensures AfterTurns(h, st, s, FOR_LIMIT, fuel).Some? ==>
              var d := Evaluate(h, st.condition, AfterTurns(h, st, s, FOR_LIMIT, fuel).value, fuel);
              d.Done? ==> ForLoop(h, st, 0, s, fuel) == Done(NullV, d.state)
  {
    hide AfterTurns, Evaluate, ForTurn, Truthy, Framed;
    assert AfterTurns(h, st, s, 0, fuel) == Some(s) by { NoTurns(h, st, s, fuel); }
    var k := FromHere(h, st, s, 0, fuel);
    if AfterTurns(h, st, s, FOR_LIMIT, fuel).Some? {
      TurnsUnroll(h, st, s, FOR_LIMIT, fuel);
    }
  }

  lemma {:induction false} NoTurns(h: Host, st: Stmt, s: State, fuel: nat)
    requires Sound(s) && st.For?
    ensures AfterTurns(h, st, s, 0, fuel) == Some(s)
  {
  }
}
