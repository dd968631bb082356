/** What holds of the hub and its devices after any sequence of requests. */
module Histories {
  import opened Wrappers
  import opened Topology
  import opened Agreement
  import opened Effects

  ghost predicate Reachable(w: World) {
    exists n: nat, listening: bool, ops: seq<Op> :: 0 < n <= MAX_PORTS && w == Run(Boot(n, listening), ops)
  }

  lemma {:induction false} RunInv(n: nat, listening: bool, ops: seq<Op>)
    requires 0 < n <= MAX_PORTS
    ensures Inv(Run(Boot(n, listening), ops)) && Run(Boot(n, listening), ops).hub.listening == listening
    decreases |ops|
  {
    if ops == [] {
      BootInv(n, listening);
    } else {
      RunInv(n, listening, ops[..|ops| - 1]);
      DoLawful(Run(Boot(n, listening), ops[..|ops| - 1]), ops[|ops| - 1]);
    }
  }

  lemma ReachableInv(w: World)
    requires Reachable(w)
    ensures Inv(w)
  {
    var n: nat, listening: bool, ops: seq<Op> :| 0 < n <= MAX_PORTS && w == Run(Boot(n, listening), ops);
    RunInv(n, listening, ops);
  }

  /** A port is connected exactly if it has VBUS and the device that is attached to it signals. */
  lemma ConnectedExact(w: World, p: nat)
    requires Reachable(w)
    ensures w.Connected(p) <==>
      && 0 < p <= |w.hub.ports| && w.hub.ports[p - 1].powered
      && exists d :: d in w.devices && w.devices[d].port == Some(p) && w.devices[d].signaling
  {
    ReachableInv(w);
    if w.Connected(p) { assert w.devices[w.Peer(p).value].port == Some(p); }
  }

  /** The capabilities of the device at a connected port are valid, and name its speed: high if it can,
      else full if it can, else low. */
  lemma FastestOf(w: World, p: nat, d: nat)
    requires Reachable(w) && d in w.devices && w.devices[d].port == Some(p)
    ensures w.CommonSpeed(p) ==
      if w.devices[d].caps & 4 != 0 then High else if w.devices[d].caps & 2 != 0 then Full else Low
  {
    ReachableInv(w);
    assert w.Peer(p) == Some(d) && CapsValid(w.devices[d].caps);
  }

  /** An enabled port is connected and has a speed; a port with a speed is connected, and its
      speed is the highest that its device is capable of; no reset is under way; and no bitmap
      has a bit outside the ports. */
  lemma StoredAgreesWithLink(w: World)
    requires Reachable(w)
    ensures forall p: nat :: p in w.hub.enabled ==> w.Connected(p) && w.SpeedOf(p) != NoSpeed
    ensures forall p: nat :: w.SpeedOf(p) != NoSpeed ==> w.Connected(p)
    ensures forall p: nat, d: nat :: w.SpeedOf(p) != NoSpeed && d in w.devices && w.devices[d].port == Some(p) ==>
      w.SpeedOf(p) == if w.devices[d].caps & 4 != 0 then High else if w.devices[d].caps & 2 != 0 then Full else Low
    ensures w.hub.reset == {}
    ensures Within(w.hub.enabled + w.hub.suspended, |w.hub.ports|)
    ensures Within(w.hub.cConnected + w.hub.cEnabled + w.hub.cSuspended + w.hub.cReset + w.hub.cOverCurrent, |w.hub.ports|)
  {
    ReachableInv(w);
    forall p: nat ensures p in w.hub.enabled ==> w.Connected(p) && w.SpeedOf(p) != NoSpeed
                  ensures w.SpeedOf(p) != NoSpeed ==> w.Connected(p) && w.SpeedOf(p) == w.CommonSpeed(p)
    {
      assert Agrees(w, p);
    }
    hide Inv, World.Connected, World.CommonSpeed, World.SpeedOf;
    forall p: nat, d: nat | w.SpeedOf(p) != NoSpeed && d in w.devices && w.devices[d].port == Some(p)
      ensures w.SpeedOf(p) == if w.devices[d].caps & 4 != 0 then High else if w.devices[d].caps & 2 != 0 then Full else Low
    {
      FastestOf(w, p, d);
    }
  }

  /** Ports and attached devices pair off, so a port routes to the device that is attached
      to it; and a device that is no longer registered, which alone may be freed, has no peer. */
  lemma TopologyIsMatching(w: World, p: nat, d: nat)
    requires Reachable(w)
    ensures d in w.devices && w.devices[d].port == Some(p) <==> 0 < p <= |w.hub.ports| && w.hub.ports[p - 1].peer == Some(d)
    ensures d in w.devices && w.devices[d].port.Some? ==> w.devices[d].registered
    ensures 0 < p <= |w.hub.ports| ==> forall i :: 0 <= i < |w.hub.ports| && i != p - 1 && w.hub.ports[i].peer.Some? ==>
      w.hub.ports[i].peer != w.hub.ports[p - 1].peer
  {
    ReachableInv(w);
    assert forall i :: 0 <= i < |w.hub.ports| ==> w.Peer(i + 1) == w.hub.ports[i].peer;
  }

  /** A port can be reset exactly when it is connected, is then enabled and no longer suspended, and has the
      highest speed that its device is capable of. */
  lemma ResetIffConnected(w: World, p: nat, d: nat)
    requires Reachable(w)
    ensures Do(w, SetPortFeature(p, 4)).error == None <==> w.Connected(p)
    ensures w.Connected(p) && d in w.devices && w.devices[d].port == Some(p) ==>
      var h, caps := Do(w, SetPortFeature(p, 4)).world.hub, w.devices[d].caps;
      && p in h.enabled && p !in h.suspended && p in h.cReset && p in h.speed
      && (h.speed[p] == High <==> caps & 4 != 0)
      && (h.speed[p] == Full <==> caps & 4 == 0 && caps & 2 != 0)
      && (h.speed[p] == Low <==> caps & 6 == 0)
  {
    ReachableInv(w);
    hide Inv, World.Connected, World.CommonSpeed, World.ResetPort;
    ResetIs(w, p);
    if w.Connected(p) && d in w.devices && w.devices[d].port == Some(p) { FastestOf(w, p, d); }
  }

  // ---- features ------------------------------------------------------------------------

  /** The ports that have the state or change a feature selector names. */
  function Bits(w: World, feature: nat): set<nat> {
    if feature == ENABLE then w.hub.enabled
    else if feature == SUSPEND then w.hub.suspended
    else if feature == RESET then w.hub.reset
    else if feature == C_CONNECTION then w.hub.cConnected
    else if feature == C_ENABLE then w.hub.cEnabled
    else if feature == C_SUSPEND then w.hub.cSuspended
    else if feature == C_OVER_CURRENT then w.hub.cOverCurrent
    else if feature == C_RESET then w.hub.cReset
    else {}
  }

  /** Between w and v, port p's bit of one feature may differ and nothing else does. */
  ghost predicate OneBit(w: World, v: World, p: nat, feature: nat) {
    && v.hub.ports == w.hub.ports && v.devices == w.devices && v.hub.speed == w.hub.speed && v.hub.emitted == w.hub.emitted
    && forall f: nat, q: nat :: f != feature || q != p ==> (q in Bits(v, f) <==> q in Bits(w, f))
  }

  /** Clearing a feature other than power clears that port's bit and no other; a
      feature that cannot be cleared is refused. */
  lemma ClearsOneBit(w: World, p: nat, feature: nat)
    requires w.PortValid(p) && feature != POWER
    ensures w.ClearFeature(p, feature).error == None <==>
      feature in {ENABLE, SUSPEND, C_CONNECTION, C_ENABLE, C_SUSPEND, C_OVER_CURRENT, C_RESET}
    ensures w.ClearFeature(p, feature).error == None ==>
      p !in Bits(w.ClearFeature(p, feature).world, feature) && OneBit(w, w.ClearFeature(p, feature).world, p, feature)
  {
    var v := w.ClearFeature(p, feature).world;
    hide World.SetPortPower;
    forall f: nat, q: nat | f != feature || q != p ensures q in Bits(v, f) <==> q in Bits(w, f) {
    }
  }

  /** Setting PORT_SUSPEND sets that port's bit and no other, connected or not. */
  lemma SuspendsOneBit(w: World, p: nat)
    requires w.PortValid(p)
    ensures w.SetFeature(p, SUSPEND).error == None && p in w.SetFeature(p, SUSPEND).world.hub.suspended
    ensures OneBit(w, w.SetFeature(p, SUSPEND).world, p, SUSPEND)
  {
    var v := w.SetFeature(p, SUSPEND).world;
    forall f: nat, q: nat | f != SUSPEND || q != p ensures q in Bits(v, f) <==> q in Bits(w, f) {
    }
  }

  // ---- bits that nothing sets ------------------------------------------------------

  /** Over every run these three change bits stay clear, for the hub and for every port. */
  lemma {:induction false} NeverNoted(n: nat, listening: bool, ops: seq<Op>)
    requires 0 < n <= MAX_PORTS
    ensures var h := Run(Boot(n, listening), ops).hub; h.cEnabled == h.cSuspended == h.cOverCurrent == {}
    decreases |ops|
  {
    if ops != [] {
      var last := |ops| - 1;
      var w, op := Run(Boot(n, listening), ops[..last]), ops[last];
      NeverNoted(n, listening, ops[..last]);
      RunInv(n, listening, ops[..last]);
      hide Inv, Do;
      forall p: nat ensures var h := Do(w, op).world.hub; p !in h.cEnabled && p !in h.cSuspended && p !in h.cOverCurrent {
        ChangesExact(w, op, p);
      }
    }
  }

  // ---- the connection change bit ---------------------------------------------------

  /** Request i of the run changed port p's connection. */
  ghost predicate TogglesAt(w: World, ops: seq<Op>, i: nat, p: nat)
    requires i < |ops|
  {
    p in Toggled(Run(w, ops[..i]), Run(w, ops[..i + 1]))
  }

  /** Request i of the run acknowledged port p's connection change. */
  ghost predicate AcknowledgesAt(w: World, ops: seq<Op>, i: nat, p: nat)
    requires i < |ops|
  {
    p in Acknowledged(Run(w, ops[..i]), ops[i])
  }

  /** Port p's connection has changed at some request, and no request from then on acknowledged it. */
  ghost predicate ChangedSinceClear(w: World, ops: seq<Op>, p: nat) {
    exists i :: 0 <= i < |ops| && TogglesAt(w, ops, i, p) && forall j :: i <= j < |ops| ==> !AcknowledgesAt(w, ops, j, p)
  }

  lemma PrefixSame(w: World, ops: seq<Op>, i: nat, p: nat)
    requires i < |ops| - 1
    ensures TogglesAt(w, ops, i, p) == TogglesAt(w, ops[..|ops| - 1], i, p)
    ensures AcknowledgesAt(w, ops, i, p) == AcknowledgesAt(w, ops[..|ops| - 1], i, p)
  {
    var front := ops[..|ops| - 1];
    assert front[..i] == ops[..i] && front[..i + 1] == ops[..i + 1];
  }

  /** One more request: still changed, unless it acknowledges; or changed now. */
  lemma ChangedStep(w: World, ops: seq<Op>, p: nat)
    requires ops != []
    ensures ChangedSinceClear(w, ops, p) <==>
      !AcknowledgesAt(w, ops, |ops| - 1, p) && (ChangedSinceClear(w, ops[..|ops| - 1], p) || TogglesAt(w, ops, |ops| - 1, p))
  {
    hide TogglesAt, AcknowledgesAt;
    var front, last := ops[..|ops| - 1], |ops| - 1;
    forall i | 0 <= i < last
      ensures TogglesAt(w, ops, i, p) == TogglesAt(w, front, i, p) && AcknowledgesAt(w, ops, i, p) == AcknowledgesAt(w, front, i, p)
    {
      PrefixSame(w, ops, i, p);
    }
    if ChangedSinceClear(w, front, p) && !AcknowledgesAt(w, ops, last, p) {
      var i :| 0 <= i < |front| && TogglesAt(w, front, i, p) && forall j :: i <= j < |front| ==> !AcknowledgesAt(w, front, j, p);
      assert TogglesAt(w, ops, i, p);
    }
    if ChangedSinceClear(w, ops, p) && !TogglesAt(w, ops, last, p) {
      var i :| 0 <= i < |ops| && TogglesAt(w, ops, i, p) && forall j :: i <= j < |ops| ==> !AcknowledgesAt(w, ops, j, p);
      assert TogglesAt(w, front, i, p);
    }
  }

  /** The connection change bit of a port is set exactly while its derived connection
      has changed since the bit was last cleared or the hub last reset. */
  lemma {:induction false} ConnectionChangeExact(n: nat, listening: bool, ops: seq<Op>, p: nat)
    requires 0 < n <= MAX_PORTS
    ensures p in Run(Boot(n, listening), ops).hub.cConnected <==> ChangedSinceClear(Boot(n, listening), ops, p)
    decreases |ops|
  {
    var w := Boot(n, listening);
    if ops != [] {
      var last := |ops| - 1;
      RunInv(n, listening, ops[..last]);
      DoLawful(Run(w, ops[..last]), ops[last]);
      ConnectionChangeExact(n, listening, ops[..last], p);
      ChangedStep(w, ops, p);
      assert ops[..last + 1] == ops;
    }
  }

  // ---- notifications ------------------------------------------------------------------

  /** Connection and reset change bits that one request clears. */
  function ClearedBy(w: World, v: World): nat {
    |w.hub.cConnected - v.hub.cConnected| + |w.hub.cReset - v.hub.cReset|
  }

  function Cleared(w: World, ops: seq<Op>): nat
    decreases |ops|
  {
    if ops == [] then 0
    else Cleared(w, ops[..|ops| - 1]) + ClearedBy(Run(w, ops[..|ops| - 1]), Run(w, ops))
  }

  lemma Exchange(a: set<nat>, b: set<nat>)
    ensures |b| == |a| + |b - a| - |a - b|
  {
    assert a == (a * b) + (a - b) && b == (a * b) + (b - a);
    assert (a * b) !! (a - b) && (a * b) !! (b - a);
  }

  /** A newly set change bit is announced once and a bit already set never again: what
      was announced is what is set now, plus what has been cleared; and nothing without a listener. */
  lemma {:induction false} NotificationsConserved(n: nat, listening: bool, ops: seq<Op>)
    requires 0 < n <= MAX_PORTS
    ensures var v := Run(Boot(n, listening), ops);
      v.hub.emitted == if listening then |v.hub.cConnected| + |v.hub.cReset| + Cleared(Boot(n, listening), ops) else 0
    decreases |ops|
  {
    if ops != [] {
      var w := Boot(n, listening);
      var last := |ops| - 1;
      RunInv(n, listening, ops[..last]);
      DoLawful(Run(w, ops[..last]), ops[last]);
      NotificationsConserved(n, listening, ops[..last]);
      Exchange(Run(w, ops[..last]).hub.cConnected, Run(w, ops).hub.cConnected);
      Exchange(Run(w, ops[..last]).hub.cReset, Run(w, ops).hub.cReset);
      hide Inv, Do;
    }
  }

  // ---- ganged power --------------------------------------------------------------------

  /** The individual power request for port p and every port after it, in order. */
  function InTurn(w: World, p: nat, on: bool): World
    requires 0 < p
    decreases |w.hub.ports| + 1 - p
  {
    if p > |w.hub.ports| then w
    else
      var v := w.SetPortPower(p, on).world;
      assert |v.hub.ports| == |w.hub.ports|;
      InTurn(v, p + 1, on)
  }

  /** Switching one port does not depend on the mode. */
  lemma OneInEitherMode(w: World, g: World, p: nat, on: bool)
    requires w.PortValid(p) && g == w.(hub := w.hub.(power := Ganged)) && w.hub.power == Individual
    ensures var v := w.PowerOne(p, on);
      && g.PowerOne(p, on) == v.(hub := v.hub.(power := Ganged))
      && |v.hub.ports| == |w.hub.ports| && v.hub.power == Individual
  {
    assert g.Connected(p) == w.Connected(p);
  }

  lemma {:induction false} EachInTurn(w: World, g: World, p: nat, on: bool)
    requires 0 < p && g == w.(hub := w.hub.(power := Ganged)) && w.hub.power == Individual
    ensures g.PowerEach(p, on) == InTurn(w, p, on).(hub := InTurn(w, p, on).hub.(power := Ganged))
    decreases |w.hub.ports| + 1 - p
  {
    if p <= |w.hub.ports| {
      var v := w.PowerOne(p, on);
      OneInEitherMode(w, g, p, on);
      hide World.PowerOne;
      EachInTurn(v, v.(hub := v.hub.(power := Ganged)), p + 1, on);
    }
  }

  /** A ganged power request does what individual requests to ports 1..n in order would:
      the same ports, the same change bits, the same notifications. */
  lemma GangedIsInTurn(w: World, p: nat, on: bool)
    requires w.PortValid(p) && w.hub.power == Individual
    ensures var g := w.(hub := w.hub.(power := Ganged));
      && g.SetPortPower(p, on).error == None
      && g.SetPortPower(p, on).world == InTurn(w, 1, on).(hub := InTurn(w, 1, on).hub.(power := Ganged))
  {
    EachInTurn(w, w.(hub := w.hub.(power := Ganged)), 1, on);
  }

  /** A ganged request switches every port; exactly the ports whose connection that changes
      are marked, each announced once if it was not marked before. */
  lemma GangedSwitchesAll(w: World, p: nat, on: bool, q: nat)
    requires Reachable(w) && w.PortValid(p) && w.PortValid(q) && w.hub.power == Ganged
    ensures var v := w.SetPortPower(p, on).world;
      && v.hub.ports[q - 1] == w.hub.ports[q - 1].(powered := on) && v.devices == w.devices && Marks(w, v)
      && v.Connected(q) == (on && exists d :: d in w.devices && w.devices[d].port == Some(q) && w.devices[d].signaling)
  {
    ReachableInv(w);
    PortPowerFollows(w, p, on);
    PortPowerGood(w, p, on);
    assert w.hub.ports[q - 1].peer == w.Peer(q);
    hide Marks, World.SetPortPower, Follows;
  }
}
