/** What the requests that change a link amount to, in every reachable state; and a run that
    brings a device all the way to an enabled port. */
module Requests {
  import opened Wrappers
  import opened Topology
  import opened Agreement
  import opened Effects
  import opened Histories

  /** Attaching a registered loose device to a free port links both ends and touches no other port
      or device; the port is connected if it has VBUS and the device signals, and marked if so. */
  lemma Attaches(w: World, d: nat, p: nat)
    requires Reachable(w) && d in w.devices && w.devices[d].registered && w.devices[d].port == None
    requires 0 < p <= |w.hub.ports| && w.hub.ports[p - 1].peer == None
    ensures var r := Do(w, AttachDevice(d, p));
      && r.error == None
      && r.world.hub.ports == w.hub.ports[p - 1 := w.hub.ports[p - 1].(peer := Some(d))]
      && r.world.devices == w.devices[d := w.devices[d].(port := Some(p))]
      && r.world.Connected(p) == (w.hub.ports[p - 1].powered && w.devices[d].signaling)
      && forall q: nat ::
           && (q != p ==> r.world.Connected(q) == w.Connected(q))
           && (q in r.world.hub.cConnected <==> q in w.hub.cConnected || (q == p && r.world.Connected(p)))
  {
    ReachableInv(w);
    KnownIds(w);
    AnswerExact(w, AttachDevice(d, p));
    AttachFollows(w, d, p);
    hide Inv, Follows, World.Attach;
    forall q: nat ensures var v := Do(w, AttachDevice(d, p)).world;
      q in v.hub.cConnected <==> q in w.hub.cConnected || w.Connected(q) != v.Connected(q)
    {
      ChangesExact(w, AttachDevice(d, p), q);
    }
    AttachLinks(w, d, p);
  }

  lemma AttachLinks(w: World, d: nat, p: nat)
    requires Inv(w) && w.Found(d) && w.devices[d].port == None && w.PortValid(p) && w.hub.ports[p - 1].peer == None
    ensures var v := w.(hub := w.hub.(ports := w.hub.ports[p - 1 := w.hub.ports[p - 1].(peer := Some(d))]),
                        devices := w.devices[d := w.devices[d].(port := Some(p))]);
      && !w.Connected(p) && v.Connected(p) == (w.hub.ports[p - 1].powered && w.devices[d].signaling)
      && forall q: nat :: q != p ==> v.Connected(q) == w.Connected(q)
  {
    var v := w.(hub := w.hub.(ports := w.hub.ports[p - 1 := w.hub.ports[p - 1].(peer := Some(d))]),
                devices := w.devices[d := w.devices[d].(port := Some(p))]);
    assert forall q: nat :: v.Peer(q) == if q == p then Some(d) else w.Peer(q);
  }

  /** Detaching a device clears both ends and touches no other port or device; its port is not
      connected any more, and marked if it was. */
  lemma Detaches(w: World, d: nat, p: nat)
    requires Reachable(w) && d in w.devices && w.devices[d].port == Some(p)
    ensures 0 < p <= |w.hub.ports|
    ensures var r := Do(w, DetachDevice(d));
      && r.error == None
      && r.world.hub.ports == w.hub.ports[p - 1 := w.hub.ports[p - 1].(peer := None)]
      && r.world.devices == w.devices[d := w.devices[d].(port := None)]
      && !r.world.Connected(p)
      && forall q: nat ::
           && (q != p ==> r.world.Connected(q) == w.Connected(q))
           && (q in r.world.hub.cConnected <==> q in w.hub.cConnected || (q == p && w.Connected(p)))
  {
    ReachableInv(w);
    KnownIds(w);
    AnswerExact(w, DetachDevice(d));
    TopologyIsMatching(w, p, d);
    UnplugFollows(w, d);
    UnplugGood(w, d);
    hide Inv, Follows, Marks, World.Unplug;
    forall q: nat ensures var v := Do(w, DetachDevice(d)).world;
      q in v.hub.cConnected <==> q in w.hub.cConnected || w.Connected(q) != v.Connected(q)
    {
      ChangesExact(w, DetachDevice(d), q);
    }
  }

  /** A registered device signals or falls silent: nothing else about it changes, and nothing about any
      other device or port; the port it is attached to is connected if it has VBUS and the device now
      signals, and marked if that is a change. */
  lemma Signals(w: World, d: nat, on: bool)
    requires Reachable(w) && d in w.devices && w.devices[d].registered
    ensures var r := Do(w, SetSignaling(d, on));
      && r.error == None && r.world.hub.ports == w.hub.ports
      && r.world.devices == w.devices[d := w.devices[d].(signaling := on)]
      && (forall q: nat ::
           && r.world.Connected(q) ==
                (if w.devices[d].port == Some(q) then on && 0 < q <= |w.hub.ports| && w.hub.ports[q - 1].powered else w.Connected(q))
           && (q in r.world.hub.cConnected <==> q in w.hub.cConnected || w.Connected(q) != r.world.Connected(q)))
  {
    ReachableInv(w);
    KnownIds(w);
    AnswerExact(w, SetSignaling(d, on));
    SignalFollows(w, d, on);
    SignalLinks(w, d, on);
    hide Inv, Follows, World.Signal, World.Connected;
    SameLinked(w.WithDevice(d, w.devices[d].(signaling := on)), Do(w, SetSignaling(d, on)).world);
    forall q: nat ensures var v := Do(w, SetSignaling(d, on)).world;
      q in v.hub.cConnected <==> q in w.hub.cConnected || w.Connected(q) != v.Connected(q)
    {
      ChangesExact(w, SetSignaling(d, on), q);
    }
  }

  lemma SignalLinks(w: World, d: nat, on: bool)
    requires Inv(w) && d in w.devices
    ensures forall q: nat ::
      w.WithDevice(d, w.devices[d].(signaling := on)).Connected(q) ==
        (if w.devices[d].port == Some(q) then on && w.Powered(q) else w.Connected(q))
  {
    var v := w.WithDevice(d, w.devices[d].(signaling := on));
    assert forall q: nat :: v.Peer(q) == w.Peer(q);
  }

  lemma SameLinked(w: World, v: World)
    requires v.hub.ports == w.hub.ports && v.devices == w.devices
    ensures forall q: nat :: v.Connected(q) == w.Connected(q)
  {
  }

  /** A request to switch port p's VBUS, the control plane's or the host's (feature 8 is PORT_POWER), leaves
      the port with VBUS or without: in individual mode that port alone and in ganged mode every port.
      Nothing else about any port or device changes; each port whose connection that changes is marked. */
  lemma Powers(w: World, op: Op, p: nat, on: bool)
    requires Reachable(w) && 0 < p <= |w.hub.ports|
    requires op == SetPower(p, on) || op == (if on then SetPortFeature(p, 8) else ClearPortFeature(p, 8))
    ensures var r := Do(w, op);
      && r.error == None && r.world.devices == w.devices && |r.world.hub.ports| == |w.hub.ports|
      && forall q: nat :: 0 < q <= |w.hub.ports| ==>
           && r.world.hub.ports[q - 1] ==
                (if q == p || w.hub.power == Ganged then w.hub.ports[q - 1].(powered := on) else w.hub.ports[q - 1])
           && r.world.Connected(q) ==
                (if q == p || w.hub.power == Ganged
                 then on && exists d :: d in w.devices && w.devices[d].port == Some(q) && w.devices[d].signaling
                 else w.Connected(q))
           && (q in r.world.hub.cConnected <==> q in w.hub.cConnected || w.Connected(q) != r.world.Connected(q))
  {
    ReachableInv(w);
    AnswerExact(w, op);
    PortPowerFollows(w, p, on);
    var v := Do(w, op).world;
    assert v == w.SetPortPower(p, on).world;
    hide Inv, Follows, World.SetPortPower, Do, World.Connected;
    forall q: nat | 0 < q <= |w.hub.ports|
      ensures v.Connected(q) ==
                (if q == p || w.hub.power == Ganged
                 then on && exists d :: d in w.devices && w.devices[d].port == Some(q) && w.devices[d].signaling
                 else w.Connected(q))
      ensures q in v.hub.cConnected <==> q in w.hub.cConnected || w.Connected(q) != v.Connected(q)
    {
      ChangesExact(w, op, q);
      PowerLink(w, v, q, on);
    }
  }

  lemma PowerLink(w: World, v: World, q: nat, on: bool)
    requires Reachable(w) && v.devices == w.devices && |v.hub.ports| == |w.hub.ports| && 0 < q <= |w.hub.ports|
    ensures v.hub.ports[q - 1] == w.hub.ports[q - 1].(powered := on) ==>
      v.Connected(q) == (on && exists d :: d in w.devices && w.devices[d].port == Some(q) && w.devices[d].signaling)
    ensures v.hub.ports[q - 1] == w.hub.ports[q - 1] ==> v.Connected(q) == w.Connected(q)
  {
    ReachableInv(w);
    assert w.Peer(q) == w.hub.ports[q - 1].peer;
  }

  // ---- it happens: from boot to an enabled port ----------------------------------------

  lemma RunNext(w: World, op: Op)
    requires Reachable(w)
    ensures Reachable(Do(w, op).world)
  {
    var n: nat, listening: bool, ops: seq<Op> :| 0 < n <= MAX_PORTS && w == Run(Boot(n, listening), ops);
    var more := ops + [op];
    assert more[..|more| - 1] == ops && more[|more| - 1] == op;
    assert Run(Boot(n, listening), more) == Do(w, op).world;
  }

  /** Reachable, with n ports and device 1 registered with these capabilities. */
  ghost predicate Stands(w: World, n: nat, caps: bv8) {
    Reachable(w) && 0 < |w.hub.ports| == n && 1 in w.devices && w.devices[1].registered && w.devices[1].caps == caps
  }

  lemma Created(n: nat, caps: bv8)
    requires 0 < n <= MAX_PORTS && 0 < caps < 8
    ensures var w := Do(Boot(n, false), CreateDevice(caps, true, true, true)).world;
      Stands(w, n, caps) && w.devices[1] == Device(caps, false, None, true) && w.hub.ports[0].peer == None
  {
    var boot, create := Boot(n, false), CreateDevice(caps, true, true, true);
    assert boot == Run(boot, []);
    ReachableInv(boot);
    DevicesExact(boot, create);
    CreateAndTellFollows(boot, caps, true, true, true);
    RunNext(boot, create);
  }

  /** From there to a connected port. */
  lemma Connects(w: World, n: nat, caps: bv8) returns (v: World)
    requires Stands(w, n, caps) && w.devices[1] == Device(caps, false, None, true) && w.hub.ports[0].peer == None
    ensures Stands(v, n, caps) && v.Connected(1) && v.devices[1].port == Some(1)
  {
    hide Reachable, Do, World.Connected;
    var a := Do(w, AttachDevice(1, 1)).world;
    Attaches(w, 1, 1);
    RunNext(w, AttachDevice(1, 1));
    var b := Do(a, SetSignaling(1, true)).world;
    Signals(a, 1, true);
    RunNext(a, SetSignaling(1, true));
    v := Do(b, SetPortFeature(1, 8)).world;
    Powers(b, SetPortFeature(1, 8), 1, true);
    RunNext(b, SetPortFeature(1, 8));
  }

  /** On a hub of any size, some run brings a device up: its port is connected, and enabled at the
      highest speed the device is capable of. */
  lemma ComesUp(n: nat, caps: bv8)
    requires 0 < n <= MAX_PORTS && 0 < caps < 8
    ensures exists w ::
      && Reachable(w) && |w.hub.ports| == n && w.Connected(1) && 1 in w.hub.enabled
      && 1 in w.devices && w.devices[1].registered && w.devices[1].caps == caps && w.devices[1].port == Some(1)
      && w.SpeedOf(1) == if caps & 4 != 0 then High else if caps & 2 != 0 then Full else Low
  {
    hide Reachable, Do, World.Connected;
    Created(n, caps);
    var v := Connects(Do(Boot(n, false), CreateDevice(caps, true, true, true)).world, n, caps);
    ReachableInv(v);
    var w := Do(v, SetPortFeature(1, 4)).world;
    ResetIffConnected(v, 1, 1);
    DeviceExact(v, SetPortFeature(1, 4), 1);
    PortExact(v, SetPortFeature(1, 4), 1);
    RunNext(v, SetPortFeature(1, 4));
    StoredAgreesWithLink(w);
  }
}
