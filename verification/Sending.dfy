/**
 * Sending to a user looks the descriptor up and then writes to it. The table is locked meanwhile, so no
 * connection is registered, but handlers clear and close without the lock.
 */
module Sending {
  import opened Options
  import opened ConnectionTable

  /** The descriptor is that of the live slot, or of a handler that has cleared the slot and not closed yet. */
  ghost predicate Belongs(s: State, k: nat, fd: int) {
    || (Live(s, k) && s.table[k].fd == fd)
    || exists t :: t in s.handlers && s.handlers[t] == Cleared(k, fd)
  }

  predicate Closes(s: State, step: Step, k: nat, fd: int) {
    step.Close? && step.thread in s.handlers && s.handlers[step.thread] == Cleared(k, fd)
  }

  /** One of the steps closes the descriptor of the slot. */
  predicate ClosedBy(s: State, steps: seq<Step>, k: nat, fd: int)
    decreases |steps|
  {
    && steps != []
    && Enabled(s, steps[0])
    && (Closes(s, steps[0], k, fd) || ClosedBy(Take(s, steps[0]), steps[1..], k, fd))
  }

  predicate Locked(steps: seq<Step>) {
    forall i :: 0 <= i < |steps| ==> !steps[i].Register?
  }

  lemma {:induction false} StepKeepsOwner(s: State, step: Step, k: nat, fd: int)
    requires Inv(s) && Enabled(s, step) && !step.Register?
    ensures Belongs(Take(s, step), k, fd) <==> Belongs(s, k, fd) && !Closes(s, step, k, fd)
  {
    hide OneHandlerEach;
    var t := Take(s, step);
    if step.Clear? && s.handlers[step.thread].slot == k && s.handlers[step.thread].fd == fd {
      assert t.handlers[step.thread] == Cleared(k, fd);
    } else if step.Close? && Closes(s, step, k, fd) {
      assert Holds(s, Thread(step.thread));
      assert Held(s, Thread(step.thread)) == fd;
      forall u | u in s.handlers && s.handlers[u] == Cleared(k, fd) ensures u == step.thread {
        assert Holds(s, Thread(u)) && Held(s, Thread(u)) == fd;
      }
      assert Live(s, k) ==> Holds(s, Slot(k)) && Held(s, Slot(k)) == s.table[k].fd;
    } else if u :| u in s.handlers && s.handlers[u] == Cleared(k, fd) {
      assert t.handlers[u] == Cleared(k, fd);
    }
  }

  lemma {:induction false} TakeKeepsInv(s: State, step: Step)
    requires Inv(s) && Enabled(s, step)
    ensures Inv(Take(s, step))
  {
    StepKeepsDescriptors(s, step);
    StepKeepsSlots(s, step);
    StepKeepsHandlers(s, step);
    hide SlotsServed, OneHandlerEach, DescriptorsOwned, Take, Enabled;
  }

  lemma {:induction false} RunKeepsOwner(s: State, k: nat, fd: int, steps: seq<Step>)
    requires Inv(s) && Locked(steps) && Run(s, steps).Some?
    ensures var t := Run(s, steps).value; Inv(t) && (Belongs(t, k, fd) <==> Belongs(s, k, fd) && !ClosedBy(s, steps, k, fd))
    decreases |steps|
  {
    hide Inv, Belongs, Closes, Take, Enabled;
    if steps != [] {
      assert !steps[0].Register?;
      TakeKeepsInv(s, steps[0]);
      StepKeepsOwner(s, steps[0], k, fd);
      RunKeepsOwner(Take(s, steps[0]), k, fd, steps[1..]);
    }
  }

  lemma {:induction false} OwnerIsAlone(s: State, k: nat, fd: int)
    requires Inv(s) && Belongs(s, k, fd)
    ensures fd in s.open && s.acceptor != Pending(fd)
    ensures forall j: nat :: Live(s, j) && s.table[j].fd == fd ==> j == k
  {
    hide OneHandlerEach, SlotsServed;
    var h := if Live(s, k) && s.table[k].fd == fd then Slot(k) else
      var t :| t in s.handlers && s.handlers[t] == Cleared(k, fd); Thread(t);
    assert Holds(s, h) && Held(s, h) == fd;
    assert s.acceptor.Pending? ==> Holds(s, AcceptLoop);
    forall j: nat | Live(s, j) && s.table[j].fd == fd ensures j == k {
      assert Holds(s, Slot(j)) && Held(s, Slot(j)) == fd;
    }
  }

  /**
   * However the threads interleave between looking a descriptor up and writing to it: it still is that of the
   * receiver, open and shared with nobody, exactly if the receiver's handler has not closed it.
   */
  lemma {:induction false} ReceiverKeepsDescriptor(s: State, k: nat, steps: seq<Step>)
    requires Inv(s) && Live(s, k) && Locked(steps) && Run(s, steps).Some?
    ensures var (t, fd) := (Run(s, steps).value, s.table[k].fd);
            && (Belongs(t, k, fd) <==> !ClosedBy(s, steps, k, fd))
            && (Belongs(t, k, fd) ==>
                  fd in t.open && t.acceptor != Pending(fd) && forall j: nat :: Live(t, j) && t.table[j].fd == fd ==> j == k)
  {
    hide Inv, Run, ClosedBy;
    var (t, fd) := (Run(s, steps).value, s.table[k].fd);
    RunKeepsOwner(s, k, fd, steps);
    if Belongs(t, k, fd) {
      OwnerIsAlone(t, k, fd);
    }
  }

  /** Once it is closed, the descriptor may be that of a connection just accepted when the message is written. */
  lemma {:induction false} DescriptorCanBeReused(s: State, h: nat)
    requires Inv(s) && h in s.handlers && s.handlers[h].Running? && s.acceptor.Waiting?
    ensures var (k, fd) := (s.handlers[h].slot, s.handlers[h].fd);
            var r := Run(s, [Clear(h), Close(h), Accept(fd)]);
            && Live(s, k) && s.table[k].fd == fd
            && r.Some? && r.value.acceptor == Pending(fd) && !Belongs(r.value, k, fd)
  {
    var (k, fd) := (s.handlers[h].slot, s.handlers[h].fd);
    var steps := [Clear(h), Close(h), Accept(fd)];
    assert steps[1..] == [Close(h), Accept(fd)] && steps[1..][1..] == [Accept(fd)] && steps[1..][1..][1..] == [];
    var t := Take(s, Clear(h));
    assert t.handlers[h] == Cleared(k, fd) && Enabled(t, Close(h));
    var u := Take(t, Close(h));
    assert Enabled(u, Accept(fd));
    assert Run(u, [Accept(fd)]) == Some(Take(u, Accept(fd)));
    assert Run(s, steps) == Some(Take(u, Accept(fd)));
    ReceiverKeepsDescriptor(s, k, steps);
    assert Closes(t, Close(h), k, fd) && ClosedBy(t, steps[1..], k, fd);
  }
}
