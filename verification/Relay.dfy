/** The relay's searches through its table of clients. */
module Relay {
  import opened Options
  import opened Bytes
  import opened ConnectionTable

  /** The first live slot of a user. */
  ghost predicate IsFirstOf(table: seq<Client>, user: int, k: nat) {
    && k < |table| && table[k].alive && table[k].user == user
    && forall j :: 0 <= j < k ==> !(table[j].alive && table[j].user == user)
  }

  ghost predicate IsOnline(table: seq<Client>, user: int) {
    exists k :: 0 <= k < |table| && table[k].alive && table[k].user == user
  }

  /** The table, and for each message sent the descriptor it was written to. */
  class Table {
    const clients: array<Client>
    var sent: seq<(int, seq<byte>)>

    constructor ()
      ensures fresh(clients) && clients[..] == Initial().table && sent == []
    {
      clients := new Client[MAX_CLIENTS](_ => Client(0, 0, false));
      sent := [];
    }

    method FindClientSlot() returns (slot: int)
      ensures match FreeSlot(clients[..])
              case Some(k) => slot == k
              case None => slot == -1
    {
      for i := 0 to clients.Length
        invariant FreeSlot(clients[..]) == FreeSlotFrom(clients[..], i)
      {
        if !clients[i].alive {
          return i;
        }
      }
      slot := -1;
    }

    /** The critical section of the accept loop: the slot filled, or nothing changed where the table is full. */
    method Register(fd: int, user: int) returns (slot: int)
      modifies clients
      ensures match FreeSlot(old(clients[..]))
              case Some(k) => slot == k && clients[..] == old(clients[..])[k := Client(fd, user, true)]
              case None => slot == -1 && clients[..] == old(clients[..])
    {
      slot := FindClientSlot();
      if slot >= 0 {
        clients[slot] := Client(fd, user, true);
      }
    }

    /** Written once, to the descriptor of the user's first live slot; not at all if there is none. */
    method SendToUser(user: int, json: seq<byte>) returns (delivered: bool)
      modifies this`sent
      ensures delivered <==> IsOnline(clients[..], user)
      ensures delivered ==> exists k: nat :: IsFirstOf(clients[..], user, k) && sent == old(sent) + [(clients[k].fd, json)]
      ensures !delivered ==> sent == old(sent)
    {
      for i := 0 to clients.Length
        invariant sent == old(sent)
        invariant forall j :: 0 <= j < i ==> !(clients[j].alive && clients[j].user == user)
      {
        if clients[i].alive && clients[i].user == user {
          sent := sent + [(clients[i].fd, json)];
          assert IsFirstOf(clients[..], user, i);
          assert clients[..][i].alive && clients[..][i].user == user;
          return true;
        }
      }
      delivered := false;
    }
  }
}
