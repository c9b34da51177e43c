/** The allocator of relay ports: a 16-bit counter that starts again at 60000. */
module RelayPorts {

  const LAST := 60000

  type Port = p: int | 0 <= p < 0x1_0000 witness 0

  datatype Allocator = Allocator(next: Port, allocations: map<string, Port>)

  /** The port the next peer gets. */
  function Offered(start: Port, next: Port): Port {
    if next >= LAST then start else next
  }

  /** The port is remembered as the latest of the peer; the counter moves on and wraps at 16 bits. */
  function Allocate(start: Port, s: Allocator, peer: string): Allocator {
    var port := Offered(start, s.next);
    Allocator((port + 1) % 0x1_0000, s.allocations[peer := port])
  }

  /** The allocator behind allocations for those peers in that order. */
  function After(start: Port, peers: seq<string>): Allocator {
    if peers == [] then Allocator(start, map[])
    else Allocate(start, After(start, peers[..|peers| - 1]), peers[|peers| - 1])
  }

  /** How many different ports there are. */
  function Window(start: Port): (w: nat)
    ensures w > 0
  {
    if start < LAST then LAST - start else if start < 0xFFFF then 1 else LAST + 1
  }

  /** The port of the `k`-th allocation, counted from 0. */
  function NthPort(start: Port, k: nat): Port {
    var i := k % Window(start);
    if start < 0xFFFF then start + i else if i == 0 then start else i - 1
  }

  lemma {:induction false} NextIndex(k: nat, w: nat)
    requires w > 0
    ensures (k + 1) % w == if k % w == w - 1 then 0 else k % w + 1
  {
    var q, r := k / w, k % w;
    assert k == q * w + r;
    if r == w - 1 {
      assert k + 1 == (q + 1) * w by { assert (q + 1) * w == q * w + w; }
      ModIs(k + 1, w, q + 1, 0);
    } else {
      ModIs(k + 1, w, q, r + 1);
    }
  }

  lemma {:induction false} Grows(d: nat, w: nat)
    requires d > 0
    ensures d * w >= w
  {
    if d > 1 {
      Grows(d - 1, w);
      assert d * w == (d - 1) * w + w;
    }
  }

  lemma {:induction false} ModIs(n: nat, w: nat, q: nat, r: nat)
    requires w > 0 && n == q * w + r && r < w
    ensures n % w == r
  {
    var p := n / w;
    assert n == p * w + n % w;
    if q > p {
      Grows(q - p, w);
      assert false;
    } else if p > q {
      Grows(p - q, w);
      assert false;
    }
  }

  /** Whatever peers ask, the `k`-th allocation gets the `k`-th port, wrapping over the window. */
  lemma {:induction false} KthAllocation(start: Port, peers: seq<string>)
    ensures Offered(start, After(start, peers).next) == NthPort(start, |peers|)
    decreases |peers|
  {
    if peers == [] {
      ModIs(0, Window(start), 0, 0);
    } else {
      KthAllocation(start, peers[..|peers| - 1]);
      NextIndex(|peers| - 1, Window(start));
    }
  }

  // ---------- collisions ----------

  lemma {:induction false} SamePort(start: Port, i: nat, j: nat)
    ensures NthPort(start, i) == NthPort(start, j) <==> i % Window(start) == j % Window(start)
  {
  }

  /** Ports given out within one window of allocations are pairwise distinct. */
  lemma {:induction false} WindowIsDistinct(start: Port, i: nat, j: nat)
    requires i < j < i + Window(start)
    ensures NthPort(start, i) != NthPort(start, j)
  {
    var w := Window(start);
    SamePort(start, i, j);
    if i % w == j % w {
      var p, q := i / w, j / w;
      assert i == p * w + i % w && j == q * w + j % w;
      if q > p {
        Grows(q - p, w);
      } else if p > q {
        Grows(p - q, w);
      }
      assert false;
    }
  }

  /** The index of the latest allocation of a peer. */
  function Latest(peers: seq<string>, peer: string): nat
    requires peer in peers
  {
    if peers[|peers| - 1] == peer then |peers| - 1
    else
      assert peers == peers[..|peers| - 1] + [peers[|peers| - 1]];
      Latest(peers[..|peers| - 1], peer)
  }

  lemma {:induction false} StoredPort(start: Port, peers: seq<string>, peer: string)
    ensures peer in After(start, peers).allocations <==> peer in peers
    ensures peer in peers ==> After(start, peers).allocations[peer] == NthPort(start, Latest(peers, peer))
    decreases |peers|
  {
    if peers != [] {
      var before := peers[..|peers| - 1];
      assert peers == before + [peers[|peers| - 1]];
      KthAllocation(start, before);
      StoredPort(start, before, peer);
    }
  }

  /** Two peers are stored with the same port exactly if their latest allocations are whole windows apart. */
  lemma {:induction false} Collisions(start: Port, peers: seq<string>, p: string, q: string)
    requires p in peers && q in peers
    ensures p in After(start, peers).allocations && q in After(start, peers).allocations
    ensures After(start, peers).allocations[p] == After(start, peers).allocations[q]
            <==> Latest(peers, p) % Window(start) == Latest(peers, q) % Window(start)
  {
    StoredPort(start, peers, p);
    StoredPort(start, peers, q);
    SamePort(start, Latest(peers, p), Latest(peers, q));
  }

  // ---------- the server ----------

  class TurnServer {
    const relayStartPort: Port
    var nextRelayPort: Port
    var allocations: map<string, Port>

    constructor (start: Port)
      ensures relayStartPort == start && Allocator(nextRelayPort, allocations) == After(start, [])
    {
      relayStartPort, nextRelayPort, allocations := start, start, map[];
    }

    /** Called for the peers so far, and now for one more. */
    method AllocateRelay(ghost peers: seq<string>, peer: string) returns (port: Port)
      requires Allocator(nextRelayPort, allocations) == After(relayStartPort, peers)
      modifies this
      ensures Allocator(nextRelayPort, allocations) == After(relayStartPort, peers + [peer])
      ensures port == NthPort(relayStartPort, |peers|)
    {
      KthAllocation(relayStartPort, peers);
      if nextRelayPort >= LAST {
        nextRelayPort := relayStartPort;
      }
      port := nextRelayPort;
      nextRelayPort := (nextRelayPort + 1) % 0x1_0000;
      allocations := allocations[peer := port];
      assert (peers + [peer])[..|peers|] == peers;
    }

    method GetAllocation(peer: string) returns (found: bool, port: Port)
      ensures found == (peer in allocations) && (found ==> port == allocations[peer])
    {
      found, port := false, 0;
      if peer in allocations {
        found, port := true, allocations[peer];
      }
    }
  }
}
