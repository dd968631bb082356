/** When a suspended port is connected. */
module Suspension {
  import opened Wrappers
  import opened Topology
  import opened Agreement
  import opened Effects
  import opened Histories

  /** Every suspended port is connected. */
  ghost predicate SuspendedIsConnected(w: World) {
    forall p: nat :: p in w.hub.suspended ==> w.Connected(p)
  }

  /** No port becomes suspended, and none that loses its connection stays so. */
  ghost predicate Rests(w: World, v: World) {
    forall p: nat :: p in v.hub.suspended ==> p in w.hub.suspended && (w.Connected(p) ==> v.Connected(p))
  }

  /** A request that suspends a port. */
  predicate Suspends(w: World, op: Op) {
    op.SetPortFeature? && op.feature == SUSPEND && w.PortValid(op.port)
  }

  /** Every request but that one. */
  lemma OthersRest(w: World, op: Op)
    requires Inv(w) && !Suspends(w, op)
    ensures Rests(w, Do(w, op).world)
  {
    hide Inv, Do, World.Connected;
    forall p: nat | p in Do(w, op).world.hub.suspended
      ensures p in w.hub.suspended && (w.Connected(p) ==> Do(w, op).world.Connected(p))
    {
      StoredExact(w, op, p);
    }
  }

  /** The one request that leaves a suspended port unconnected, from a state that has none:
      suspending a port that is not connected. */
  lemma SuspensionExact(w: World, op: Op)
    requires Inv(w) && SuspendedIsConnected(w)
    ensures SuspendedIsConnected(Do(w, op).world) <==> !(Suspends(w, op) && !w.Connected(op.port))
  {
    var v := Do(w, op).world;
    if Suspends(w, op) {
      assert v == w.(hub := w.hub.(suspended := w.hub.suspended + {op.port}));
      assert forall q: nat :: v.Connected(q) == w.Connected(q);
    } else {
      OthersRest(w, op);
    }
  }

  /** Hosts that suspend connected ports only never see a suspended port without a connection. */
  lemma {:induction false} PoliteHosts(n: nat, listening: bool, ops: seq<Op>)
    requires 0 < n <= MAX_PORTS
    requires forall i :: 0 <= i < |ops| ==> Polite(Run(Boot(n, listening), ops[..i]), ops[i])
    ensures SuspendedIsConnected(Run(Boot(n, listening), ops))
    decreases |ops|
  {
    if ops != [] {
      var last := |ops| - 1;
      forall i | 0 <= i < last ensures Polite(Run(Boot(n, listening), ops[..last][..i]), ops[..last][i]) {
        assert ops[..last][..i] == ops[..i];
      }
      RunInv(n, listening, ops[..last]);
      PoliteHosts(n, listening, ops[..last]);
      assert Polite(Run(Boot(n, listening), ops[..last]), ops[last]);
      SuspensionExact(Run(Boot(n, listening), ops[..last]), ops[last]);
    }
  }

  predicate Polite(w: World, op: Op) { Suspends(w, op) ==> w.Connected(op.port) }

  /** One request to a hub that has just been set up suspends a port that nothing is attached to. */
  lemma SuspendedUnconnected()
    ensures exists w :: Reachable(w) && !SuspendedIsConnected(w)
  {
    var boot, ops := Boot(1, false), [SetPortFeature(1, SUSPEND)];
    var w := Run(boot, ops);
    assert ops[..0] == [] && Run(boot, []) == boot;
    assert Reachable(w);
    assert 1 in w.hub.suspended && !w.Connected(1);
  }
}
