/**
 * The relay's connection table, shared by the accept loop and one handler thread for each client. A step of
 * the machine is one access to the table or to the descriptors of the process; any thread may take the next.
 */
module ConnectionTable {
  import opened Options

  const MAX_CLIENTS := 1024

  datatype Client = Client(fd: int, user: int, alive: bool)

  /** A handler that has not read its slot yet, one at work, and one that has given its slot back. */
  datatype Handler = Starting(slot: nat) | Running(slot: nat, fd: int) | Cleared(slot: nat, fd: int)

  /** The accept loop: waiting, holding a new connection, or about to start the handler of a slot. */
  datatype Acceptor = Waiting | Pending(fd: int) | Spawning(slot: nat)

  /** `open` are the descriptors of client connections the process has open. */
  datatype State = State(table: seq<Client>, handlers: map<nat, Handler>, acceptor: Acceptor, open: set<int>)

  function Initial(): State {
    State(seq(MAX_CLIENTS, _ => Client(0, 0, false)), map[], Waiting, {})
  }

  /** The first slot that is not alive. */
  function FreeSlot(table: seq<Client>): (r: Option<nat>)
    ensures r.Some? ==> r.value < |table| && !table[r.value].alive && forall k :: 0 <= k < r.value ==> table[k].alive
    ensures r.None? ==> forall k :: 0 <= k < |table| ==> table[k].alive
  {
    FreeSlotFrom(table, 0)
  }

  function FreeSlotFrom(table: seq<Client>, i: nat): (r: Option<nat>)
    requires i <= |table|
    ensures r.Some? ==> i <= r.value < |table| && !table[r.value].alive && forall k :: i <= k < r.value ==> table[k].alive
    ensures r.None? ==> forall k :: i <= k < |table| ==> table[k].alive
    decreases |table| - i
  {
    if i == |table| then None else if !table[i].alive then Some(i) else FreeSlotFrom(table, i + 1)
  }

  // ---------- steps ----------

  datatype Step =
    | Accept(fd: int)
    | Reject
    | Register(user: int)
    | Spawn(thread: nat)
    | Start(thread: nat)
    | Clear(thread: nat)
    | Close(thread: nat)

  /** When a step can be taken. The system hands out only descriptors that are not open. */
  predicate Enabled(s: State, step: Step) {
    match step
    case Accept(fd) => s.acceptor.Waiting? && fd !in s.open
    case Reject => s.acceptor.Pending?
    case Register(_) => s.acceptor.Pending?
    case Spawn(t) => s.acceptor.Spawning? && t !in s.handlers
    case Start(t) => t in s.handlers && s.handlers[t].Starting? && s.handlers[t].slot < |s.table|
    case Clear(t) => t in s.handlers && s.handlers[t].Running? && s.handlers[t].slot < |s.table|
    case Close(t) => t in s.handlers && s.handlers[t].Cleared?
  }

  /** A full table closes the new connection; a handler first clears `alive`, then closes its descriptor. */
  function Take(s: State, step: Step): State
    requires Enabled(s, step)
  {
    match step
    case Accept(fd) => s.(acceptor := Pending(fd), open := s.open + {fd})
    case Reject => s.(acceptor := Waiting, open := s.open - {s.acceptor.fd})
    case Register(user) =>
      (match FreeSlot(s.table)
       case None => s.(acceptor := Waiting, open := s.open - {s.acceptor.fd})
       case Some(k) => s.(table := s.table[k := Client(s.acceptor.fd, user, true)], acceptor := Spawning(k)))
    case Spawn(t) => s.(handlers := s.handlers[t := Starting(s.acceptor.slot)], acceptor := Waiting)
    case Start(t) =>
      var slot := s.handlers[t].slot;
      s.(handlers := s.handlers[t := Running(slot, s.table[slot].fd)])
    case Clear(t) =>
      var slot := s.handlers[t].slot;
      s.(handlers := s.handlers[t := Cleared(slot, s.handlers[t].fd)], table := s.table[slot := s.table[slot].(alive := false)])
    case Close(t) => s.(handlers := s.handlers - {t}, open := s.open - {s.handlers[t].fd})
  }

  // ---------- the invariant ----------

  /** Thread `t` is in charge of the live slot. */
  ghost predicate Serves(s: State, t: nat, slot: nat) {
    t in s.handlers && !s.handlers[t].Cleared? && s.handlers[t].slot == slot
  }

  predicate Live(s: State, k: nat) {
    k < |s.table| && s.table[k].alive
  }

  /** Who holds a descriptor: a live slot, a handler that has cleared its slot, or the accept loop. */
  datatype Holder = Slot(k: nat) | Thread(t: nat) | AcceptLoop

  ghost predicate Holds(s: State, h: Holder) {
    match h
    case Slot(k) => Live(s, k)
    case Thread(t) => t in s.handlers && s.handlers[t].Cleared?
    case AcceptLoop => s.acceptor.Pending?
  }

  ghost function Held(s: State, h: Holder): int
    requires Holds(s, h)
  {
    match h
    case Slot(k) => s.table[k].fd
    case Thread(t) => s.handlers[t].fd
    case AcceptLoop => s.acceptor.fd
  }

  /** Handlers and the accept loop refer to live slots, and a handler at work knows the descriptor of its slot. */
  ghost predicate SlotsServed(s: State) {
    && (forall t :: t in s.handlers && !s.handlers[t].Cleared? ==> Live(s, s.handlers[t].slot))
    && (forall t :: t in s.handlers && s.handlers[t].Running? ==> s.handlers[t].fd == s.table[s.handlers[t].slot].fd)
    && (s.acceptor.Spawning? ==> Live(s, s.acceptor.slot))
  }

  /** A live slot is served by exactly one handler, or will be: then the accept loop is about to start it. */
  ghost predicate OneHandlerEach(s: State) {
    && (forall t, u, k :: Serves(s, t, k) && Serves(s, u, k) ==> t == u)
    && (forall k :: Live(s, k) ==> (s.acceptor == Spawning(k)) != (exists t :: Serves(s, t, k)))
  }

  /** Every descriptor held is open, no two holders share one, and no open descriptor is without a holder. */
  ghost predicate DescriptorsOwned(s: State) {
    && (forall h :: Holds(s, h) ==> Held(s, h) in s.open)
    && (forall g, h :: Holds(s, g) && Holds(s, h) && g != h ==> Held(s, g) != Held(s, h))
    && (forall fd :: fd in s.open ==> exists h :: Holds(s, h) && Held(s, h) == fd)
  }

  ghost predicate Inv(s: State) {
    SlotsServed(s) && OneHandlerEach(s) && DescriptorsOwned(s)
  }

  lemma {:induction false} InitialInv()
    ensures Inv(Initial())
  {
    var s := Initial();
    assert forall k :: !Live(s, k);
    assert forall h :: !Holds(s, h);
  }

  // ---------- how descriptors change hands ----------

  /** In `t` the same holders hold the same descriptors as in `s`, leaving aside `g` and `h`. */
  ghost predicate OthersKeep(s: State, t: State, g: Holder, h: Holder) {
    forall x :: x != g && x != h ==> (Holds(t, x) <==> Holds(s, x)) && (Holds(s, x) ==> Held(t, x) == Held(s, x))
  }

  lemma {:induction false} HandedOver(s: State, t: State, g: Holder, h: Holder)
    requires DescriptorsOwned(s) && OthersKeep(s, t, g, h) && t.open == s.open && g != h
    requires Holds(s, g) && !Holds(t, g) && !Holds(s, h) && Holds(t, h) && Held(t, h) == Held(s, g)
    ensures DescriptorsOwned(t)
  {
    hide Holds, Held;
    forall fd | fd in t.open ensures exists x :: Holds(t, x) && Held(t, x) == fd {
      var x :| Holds(s, x) && Held(s, x) == fd;
      assert if x == g then Holds(t, h) && Held(t, h) == fd else Holds(t, x) && Held(t, x) == fd;
    }
  }

  lemma {:induction false} Opened(s: State, t: State, h: Holder, fd: int)
    requires DescriptorsOwned(s) && OthersKeep(s, t, h, h) && fd !in s.open && t.open == s.open + {fd}
    requires !Holds(s, h) && Holds(t, h) && Held(t, h) == fd
    ensures DescriptorsOwned(t)
  {
    hide Holds, Held;
    forall d | d in t.open ensures exists x :: Holds(t, x) && Held(t, x) == d {
      if d == fd {
        assert Holds(t, h) && Held(t, h) == d;
      } else {
        var x :| Holds(s, x) && Held(s, x) == d;
        assert Holds(t, x) && Held(t, x) == d;
      }
    }
  }

  lemma {:induction false} Released(s: State, t: State, h: Holder)
    requires DescriptorsOwned(s) && OthersKeep(s, t, h, h) && Holds(s, h) && !Holds(t, h)
    requires t.open == s.open - {Held(s, h)}
    ensures DescriptorsOwned(t)
  {
    hide Holds, Held;
    forall d | d in t.open ensures exists x :: Holds(t, x) && Held(t, x) == d {
      var x :| Holds(s, x) && Held(s, x) == d;
      assert Holds(t, x) && Held(t, x) == d;
    }
  }

  lemma {:induction false} Unmoved(s: State, t: State)
    requires DescriptorsOwned(s) && t.open == s.open
    requires forall x :: (Holds(t, x) <==> Holds(s, x)) && (Holds(s, x) ==> Held(t, x) == Held(s, x))
    ensures DescriptorsOwned(t)
  {
    hide Holds, Held;
    forall d | d in t.open ensures exists x :: Holds(t, x) && Held(t, x) == d {
      var x :| Holds(s, x) && Held(s, x) == d;
      assert Holds(t, x) && Held(t, x) == d;
    }
  }

  /** Every step hands descriptors over so that each one open has exactly one holder. */
  lemma {:induction false} StepKeepsDescriptors(s: State, step: Step)
    requires Inv(s) && Enabled(s, step)
    ensures DescriptorsOwned(Take(s, step))
  {
    hide DescriptorsOwned, OneHandlerEach;
    var t := Take(s, step);
    match step
    case Accept(fd) => Opened(s, t, AcceptLoop, fd);
    case Reject => Released(s, t, AcceptLoop);
    case Register(_) =>
      if FreeSlot(s.table).None? {
        Released(s, t, AcceptLoop);
      } else {
        HandedOver(s, t, AcceptLoop, Slot(FreeSlot(s.table).value));
      }
    case Spawn(_) => Unmoved(s, t);
    case Start(_) => Unmoved(s, t);
    case Clear(h) => HandedOver(s, t, Slot(s.handlers[h].slot), Thread(h));
    case Close(h) => Released(s, t, Thread(h));
  }

  // ---------- how slots change hands ----------

  /** The handler of a slot is the only one, and the accept loop is not about to start another. */
  lemma {:induction false} SoleHandler(s: State, h: nat)
    requires Inv(s) && h in s.handlers && !s.handlers[h].Cleared?
    ensures var k := s.handlers[h].slot;
      Live(s, k) && s.acceptor != Spawning(k) && forall t :: Serves(s, t, k) ==> t == h
  {
    hide DescriptorsOwned;
    assert Serves(s, h, s.handlers[h].slot);
  }

  lemma {:induction false} StepKeepsSlots(s: State, step: Step)
    requires Inv(s) && Enabled(s, step)
    ensures SlotsServed(Take(s, step))
  {
    hide DescriptorsOwned, FreeSlot;
    if step.Clear? {
      SoleHandler(s, step.thread);
      var k := s.handlers[step.thread].slot;
      forall t | t in s.handlers && !s.handlers[t].Cleared? && s.handlers[t].slot == k ensures t == step.thread {
        assert Serves(s, t, k);
      }
    }
  }

  /** Nobody has changed who serves what. */
  lemma {:induction false} SameService(s: State, t: State)
    requires OneHandlerEach(s) && s.acceptor.Spawning? == t.acceptor.Spawning?
    requires s.acceptor.Spawning? ==> s.acceptor == t.acceptor
    requires forall h, k :: Serves(t, h, k) <==> Serves(s, h, k)
    requires forall k :: Live(t, k) <==> Live(s, k)
    ensures OneHandlerEach(t)
  {
    hide Serves, Live;
    forall k | Live(t, k) ensures (t.acceptor == Spawning(k)) != (exists h :: Serves(t, h, k)) {
      assert Live(s, k);
      if h :| Serves(s, h, k) {
        assert Serves(t, h, k);
      }
    }
  }

  lemma {:induction false} StepKeepsHandlers(s: State, step: Step)
    requires Inv(s) && Enabled(s, step)
    ensures OneHandlerEach(Take(s, step))
  {
    hide DescriptorsOwned, OneHandlerEach;
    var t := Take(s, step);
    match step
    case Accept(_) => SameService(s, t);
    case Reject => SameService(s, t);
    case Register(_) =>
      if FreeSlot(s.table).None? {
        SameService(s, t);
      } else {
        RegisterKeepsHandlers(s, t, FreeSlot(s.table).value);
      }
    case Spawn(h) => SpawnKeepsHandlers(s, t, h);
    case Start(_) => SameService(s, t);
    case Clear(h) => ClearKeepsHandlers(s, t, h);
    case Close(_) => SameService(s, t);
  }

  lemma {:induction false} RegisterKeepsHandlers(s: State, t: State, k: nat)
    requires Inv(s) && !s.acceptor.Spawning? && k < |s.table| == |t.table| && !s.table[k].alive
    requires t.handlers == s.handlers && t.acceptor == Spawning(k)
    requires t.table[k].alive && forall j :: 0 <= j < |s.table| && j != k ==> t.table[j] == s.table[j]
    ensures OneHandlerEach(t)
  {
    hide DescriptorsOwned;
    forall h, j | Serves(t, h, j) ensures Serves(s, h, j) && Live(s, j) {}
    forall j | Live(t, j) ensures (t.acceptor == Spawning(j)) != (exists h :: Serves(t, h, j)) {
      if j != k {
        assert Live(s, j);
        if h :| Serves(s, h, j) {
          assert Serves(t, h, j);
        }
      }
    }
  }

  lemma {:induction false} SpawnKeepsHandlers(s: State, t: State, h: nat)
    requires Inv(s) && s.acceptor.Spawning? && h !in s.handlers
    requires t == s.(handlers := s.handlers[h := Starting(s.acceptor.slot)], acceptor := Waiting)
    ensures OneHandlerEach(t)
  {
    hide DescriptorsOwned;
    var k := s.acceptor.slot;
    assert Serves(t, h, k);
    forall u, j | Serves(t, u, j) && u != h ensures Serves(s, u, j) && j != k {
      assert Serves(s, u, j);
    }
    forall j | Live(t, j) ensures (t.acceptor == Spawning(j)) != (exists u :: Serves(t, u, j)) {
      if j != k {
        assert Live(s, j);
        if u :| Serves(s, u, j) {
          assert Serves(t, u, j);
        }
      }
    }
  }

  lemma {:induction false} ClearKeepsHandlers(s: State, t: State, h: nat)
    requires Inv(s) && Enabled(s, Clear(h)) && t == Take(s, Clear(h))
    ensures OneHandlerEach(t)
  {
    hide DescriptorsOwned;
    SoleHandler(s, h);
    forall u, j | Serves(t, u, j) ensures Serves(s, u, j) && u != h {}
    forall j | Live(t, j) ensures (t.acceptor == Spawning(j)) != (exists u :: Serves(t, u, j)) {
      assert Live(s, j) && j != s.handlers[h].slot;
      if u :| Serves(s, u, j) {
        assert Serves(t, u, j);
      }
    }
  }

  // ---------- runs ----------

  /** The state behind a run of steps, if each of them could be taken. */
  function Run(s: State, steps: seq<Step>): Option<State>
    decreases |steps|
  {
    if steps == [] then Some(s)
    else if !Enabled(s, steps[0]) then None
    else Run(Take(s, steps[0]), steps[1..])
  }

  lemma {:induction false} RunKeepsInv(s: State, steps: seq<Step>)
    requires Inv(s) && Run(s, steps).Some?
    ensures Inv(Run(s, steps).value)
    decreases |steps|
  {
    if steps != [] {
      StepKeepsDescriptors(s, steps[0]);
      StepKeepsSlots(s, steps[0]);
      StepKeepsHandlers(s, steps[0]);
      hide SlotsServed, OneHandlerEach, DescriptorsOwned, Take, Enabled;
      RunKeepsInv(Take(s, steps[0]), steps[1..]);
    }
  }

  /**
   * In every interleaving of the accept loop and the handlers: each live slot has exactly one handler (or the
   * one about to be started), and the descriptors of live slots, of handlers between clearing and closing and
   * of a connection just accepted are open, pairwise distinct, and all that is open.
   */
  lemma {:induction false} EveryInterleavingIsSafe(steps: seq<Step>)
    requires Run(Initial(), steps).Some?
    ensures Inv(Run(Initial(), steps).value)
  {
    hide Inv, Run;
    InitialInv();
    RunKeepsInv(Initial(), steps);
  }

  /** A message to a user goes to the descriptor of a live slot, which is open and which no other slot shares. */
  lemma {:induction false} LiveDescriptorsAreOwn(s: State, j: nat, k: nat)
    requires Inv(s) && Live(s, j) && Live(s, k) && j != k
    ensures s.table[j].fd in s.open && s.table[j].fd != s.table[k].fd
  {
    assert Holds(s, Slot(j)) && Holds(s, Slot(k));
    assert Held(s, Slot(j)) != Held(s, Slot(k));
  }

  // ---------- the other order ----------

  /** A machine whose handlers close their descriptor in the first of the two last steps, and clear `alive` in the second. */
  function TakeSwapped(s: State, step: Step): State
    requires Enabled(s, step)
  {
    if step.Clear? then
      var h := s.handlers[step.thread];
      s.(handlers := s.handlers[step.thread := Cleared(h.slot, h.fd)], open := s.open - {h.fd})
    else if step.Close? && s.handlers[step.thread].slot < |s.table| then
      var slot := s.handlers[step.thread].slot;
      s.(handlers := s.handlers - {step.thread}, table := s.table[slot := s.table[slot].(alive := false)])
    else Take(s, step)
  }

  function RunSwapped(s: State, steps: seq<Step>): Option<State>
    decreases |steps|
  {
    if steps == [] then Some(s)
    else if !Enabled(s, steps[0]) then None
    else RunSwapped(TakeSwapped(s, steps[0]), steps[1..])
  }

  lemma {:induction false} SwappedStep(s: State, steps: seq<Step>, step: Step)
    requires Enabled(s, step)
    ensures RunSwapped(s, [step] + steps) == RunSwapped(TakeSwapped(s, step), steps)
  {
    assert ([step] + steps)[1..] == steps;
  }

  lemma {:induction false} FirstFree(table: seq<Client>, k: nat)
    requires k < |table| && !table[k].alive && forall j :: 0 <= j < k ==> table[j].alive
    ensures FreeSlot(table) == Some(k)
  {
  }

  /** A live slot of the first user with the descriptor, closed by its handler and open again for the second user. */
  function Mixed(fd: int, first: int, second: int): State {
    var idle := Initial().table;
    State(idle[0 := Client(fd, first, true)][1 := Client(fd, second, true)], map[0 := Cleared(0, fd)], Spawning(1), {fd})
  }

  /** One client comes, and its handler has closed the descriptor but not cleared `alive` yet. */
  lemma {:induction false} ClosedFirst(fd: int, first: int, steps: seq<Step>)
    ensures RunSwapped(Initial(), [Accept(fd)] + ([Register(first)] + ([Spawn(0)] + ([Start(0)] + ([Clear(0)] + steps))))) ==
      RunSwapped(State(Initial().table[0 := Client(fd, first, true)], map[0 := Cleared(0, fd)], Waiting, {}), steps)
  {
    var s0 := Initial();
    FirstFree(s0.table, 0);
    hide FreeSlot;
    var one := s0.table[0 := Client(fd, first, true)];
    var s1 := TakeSwapped(s0, Accept(fd));
    var s2 := TakeSwapped(s1, Register(first));
    assert s2 == State(one, map[], Spawning(0), {fd});
    var s3 := TakeSwapped(s2, Spawn(0));
    var s4 := TakeSwapped(s3, Start(0));
    assert s4 == State(one, map[0 := Running(0, fd)], Waiting, {fd});
    assert TakeSwapped(s4, Clear(0)) == State(one, map[0 := Cleared(0, fd)], Waiting, {});
    hide TakeSwapped, Enabled;
    SwappedStep(s0, [Register(first)] + ([Spawn(0)] + ([Start(0)] + ([Clear(0)] + steps))), Accept(fd));
    SwappedStep(s1, [Spawn(0)] + ([Start(0)] + ([Clear(0)] + steps)), Register(first));
    SwappedStep(s2, [Start(0)] + ([Clear(0)] + steps), Spawn(0));
    SwappedStep(s3, [Clear(0)] + steps, Start(0));
    SwappedStep(s4, steps, Clear(0));
  }

  /**
   * With the two steps the other way round a descriptor can be handed out again while its old slot is still
   * alive: the slots of two users share it, and what is sent to the first reaches the second.
   */
  lemma {:induction false} SwappedOrderMixesUsers(fd: int, first: int, second: int)
    ensures var steps := [Accept(fd)] + ([Register(first)] + ([Spawn(0)] + ([Start(0)] + ([Clear(0)] + [Accept(fd), Register(second)]))));
      RunSwapped(Initial(), steps) == Some(Mixed(fd, first, second))
    ensures var s := Mixed(fd, first, second);
      Live(s, 0) && Live(s, 1) && s.table[0] == Client(fd, first, true) && s.table[1] == Client(fd, second, true)
  {
    var one := Initial().table[0 := Client(fd, first, true)];
    FirstFree(one, 1);
    hide FreeSlot;
    ClosedFirst(fd, first, [Accept(fd), Register(second)]);
    var s5 := State(one, map[0 := Cleared(0, fd)], Waiting, {});
    var s6 := TakeSwapped(s5, Accept(fd));
    assert TakeSwapped(s6, Register(second)) == Mixed(fd, first, second);
    hide TakeSwapped, Enabled;
    assert [Accept(fd), Register(second)] == [Accept(fd)] + ([Register(second)] + []);
    SwappedStep(s5, [Register(second)] + [], Accept(fd));
    SwappedStep(s6, [], Register(second));
  }
}
