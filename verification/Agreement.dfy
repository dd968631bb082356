/** The stored USB state agrees with the derived link, and the topology is a
    matching, in every state that any sequence of requests reaches. */
module Agreement {
  import opened Wrappers
  import opened Topology

  predicate Within(s: set<nat>, n: nat) {
    forall p: nat :: p in s ==> 0 < p <= n
  }

  /** Ports and devices pair off, and only registered devices are attached. */
  ghost predicate Matching(w: World) {
    && (forall p: nat :: w.Peer(p).Some? ==> w.Peer(p).value in w.devices && w.devices[w.Peer(p).value].port == Some(p))
    && (forall d: nat :: d in w.devices && w.devices[d].port.Some? ==>
          w.devices[d].registered && w.Peer(w.devices[d].port.value) == Some(d))
  }

  /** What is stored about a port is what its link says. */
  predicate Agrees(w: World, p: nat) {
    && (p in w.hub.enabled ==> w.Connected(p) && w.SpeedOf(p) != NoSpeed)
    && (w.SpeedOf(p) != NoSpeed ==> w.Connected(p) && w.SpeedOf(p) == w.CommonSpeed(p))
  }

  ghost predicate Sized(w: World) {
    && 0 < |w.hub.ports| <= MAX_PORTS
    && w.hub.reset == {}
    && Within(w.hub.enabled, |w.hub.ports|) && Within(w.hub.suspended, |w.hub.ports|)
    && Within(w.hub.cConnected, |w.hub.ports|) && Within(w.hub.cEnabled, |w.hub.ports|)
    && Within(w.hub.cSuspended, |w.hub.ports|) && Within(w.hub.cReset, |w.hub.ports|) && Within(w.hub.cOverCurrent, |w.hub.ports|)
  }

  ghost predicate Numbered(w: World) {
    && 0 < w.next <= U32_MAX + 1
    && (forall d: nat :: d in w.devices ==> 0 < d < w.next && CapsValid(w.devices[d].caps))
  }

  ghost predicate Inv(w: World) {
    Sized(w) && Numbered(w) && Matching(w) && forall p: nat :: Agrees(w, p)
  }

  lemma BootInv(n: nat, listening: bool)
    requires 0 < n <= MAX_PORTS
    ensures Inv(Boot(n, listening))
  {
  }

  /** The stored part of the hub state. */
  predicate SameStored(w: World, v: World) {
    v.hub.(ports := w.hub.ports) == w.hub && |v.hub.ports| == |w.hub.ports|
  }

  /** v differs from w in the link of port p and nothing else; if p is connected
      in both, then to a device of the same capabilities. */
  ghost predicate Touches(w: World, v: World, p: nat) {
    && w.PortValid(p) && SameStored(w, v) && Numbered(v) && Matching(v)
    && (forall q: nat :: q != p ==> v.Connected(q) == w.Connected(q) && v.CommonSpeed(q) == w.CommonSpeed(q))
    && (w.Connected(p) && v.Connected(p) ==> v.CommonSpeed(p) == w.CommonSpeed(p))
  }

  /** Comparing and marking afterwards restores the agreement. */
  lemma SettledKeeps(w: World, v: World, p: nat)
    requires Inv(w) && Touches(w, v, p)
    ensures Inv(v.Settled(w.Connected(p), p))
  {
    var r := v.Settled(w.Connected(p), p);
    SettledStores(v, w.Connected(p), p);
    SameTopology(v, r);
    assert Sized(r);
    forall q: nat ensures Agrees(r, q) {
      assert Agrees(w, q);
      hide Matching, Numbered, Sized, World.Connected, World.CommonSpeed, World.Settled;
    }
  }

  /** What a comparison does to the stored state: nothing, or a port that is gone is quiet. */
  lemma SettledStores(w: World, was: bool, p: nat)
    ensures var v := w.Settled(was, p);
      && v.hub.ports == w.hub.ports && v.devices == w.devices && v.next == w.next
      && (was == w.Connected(p) || !w.PortValid(p) ==> v == w)
      && v.hub.(cConnected := w.hub.cConnected, emitted := w.hub.emitted) ==
           (if was != w.Connected(p) && w.PortValid(p) && !w.Connected(p) then w.Quieted(p).hub else w.hub)
  {
    hide World.Connected;
  }

  /** What depends on the ports and the devices alone. */
  lemma SameTopology(w: World, v: World)
    requires v.hub.ports == w.hub.ports && v.devices == w.devices && v.next == w.next
    ensures Matching(w) ==> Matching(v)
    ensures Numbered(w) ==> Numbered(v)
    ensures forall p: nat :: v.Connected(p) == w.Connected(p) && v.CommonSpeed(p) == w.CommonSpeed(p)
  {
    assert forall p: nat :: v.Peer(p) == w.Peer(p);
  }

  lemma PowerTouches(w: World, p: nat, on: bool)
    requires Inv(w) && w.PortValid(p)
    ensures Touches(w, w.WithPort(p, w.hub.ports[p - 1].(powered := on)), p)
  {
    var v := w.WithPort(p, w.hub.ports[p - 1].(powered := on));
    assert forall q: nat :: v.Peer(q) == w.Peer(q);
  }

  lemma LinkTouches(w: World, d: nat, p: nat)
    requires Inv(w) && w.PortValid(p) && w.Found(d) && w.Peer(p) == None && w.devices[d].port == None
    ensures Touches(w, w.Linked(d, p), p)
  {
    var v := w.Linked(d, p);
    assert forall q: nat :: v.Peer(q) == if q == p then Some(d) else w.Peer(q);
  }

  lemma UnlinkTouches(w: World, d: nat, p: nat)
    requires Inv(w) && d in w.devices && w.devices[d].port == Some(p)
    ensures w.PortValid(p) && Touches(w, w.Unlinked(d, p), p) && !w.Unlinked(d, p).Connected(p)
  {
    assert w.Peer(p) == Some(d);
    var v := w.Unlinked(d, p);
    assert forall q: nat :: v.Peer(q) == if q == p then None else w.Peer(q);
  }

  lemma SignalTouches(w: World, d: nat, p: nat, on: bool)
    requires Inv(w) && d in w.devices && w.devices[d].port == Some(p)
    ensures w.PortValid(p) && Touches(w, w.WithDevice(d, w.devices[d].(signaling := on)), p)
  {
    assert w.Peer(p) == Some(d);
    var v := w.WithDevice(d, w.devices[d].(signaling := on));
    assert forall q: nat :: v.Peer(q) == w.Peer(q);
  }

  /** A change of a device that is not attached touches no port. */
  lemma LooseDevice(w: World, d: nat, device: Device)
    requires Inv(w) && device.port == None && CapsValid(device.caps)
    requires d in w.devices ==> w.devices[d].port == None
    requires 0 < d < w.next
    ensures Inv(w.WithDevice(d, device))
    ensures forall q: nat :: w.WithDevice(d, device).Connected(q) == w.Connected(q)
  {
    var v := w.WithDevice(d, device);
    assert forall q: nat :: v.Peer(q) == w.Peer(q);
    forall q: nat ensures Agrees(v, q) && v.Connected(q) == w.Connected(q) { assert Agrees(w, q); }
  }

  // ---- change bits and notifications ------------------------------------------

  /** The ports whose derived connection differs. */
  function Toggled(w: World, v: World): set<nat> {
    set p: nat | 0 < p <= |w.hub.ports| && w.Connected(p) != v.Connected(p)
  }

  /** Exactly the ports whose connection changed have become marked, and the hub
      was told once for each that was not marked before. */
  ghost predicate Marks(w: World, v: World) {
    && |v.hub.ports| == |w.hub.ports| && v.hub.listening == w.hub.listening
    && v.hub.cConnected == w.hub.cConnected + Toggled(w, v)
    && v.hub.cReset == w.hub.cReset
    && v.hub.emitted == w.hub.emitted + if w.hub.listening then |Toggled(w, v) - w.hub.cConnected| else 0
  }

  lemma SettledMarks(w: World, v: World, p: nat)
    requires Inv(w) && Touches(w, v, p)
    ensures Marks(w, v.Settled(w.Connected(p), p))
  {
    var r := v.Settled(w.Connected(p), p);
    assert forall q: nat :: r.Connected(q) == v.Connected(q);
    if w.Connected(p) != v.Connected(p) {
      assert Toggled(w, r) == {p};
      assert Toggled(w, r) - w.hub.cConnected == if p in w.hub.cConnected then {} else {p};
    } else {
      assert Toggled(w, r) == {};
      assert Toggled(w, r) - w.hub.cConnected == {};
    }
  }

  /** Two changes in a row mark like one, if no port changes back. */
  lemma MarksCompose(w: World, u: World, v: World)
    requires Marks(w, u) && Marks(u, v) && Toggled(w, u) !! Toggled(u, v)
    ensures Marks(w, v) && Toggled(w, v) == Toggled(w, u) + Toggled(u, v)
  {
    var a, b, c := Toggled(w, u), Toggled(u, v), w.hub.cConnected;
    forall p: nat | p in a + b ensures p in Toggled(w, v) {
      assert p in a || p in b;
      assert p !in a || p !in b;
    }
    assert Toggled(w, v) == a + b;
    assert (a + b) - c == (a - c) + (b - (c + a));
    assert (a - c) !! (b - (c + a));
  }

  lemma MarksNone(w: World, v: World)
    requires |v.hub.ports| == |w.hub.ports| && v.hub.listening == w.hub.listening
    requires v.hub.cConnected == w.hub.cConnected && v.hub.cReset == w.hub.cReset && v.hub.emitted == w.hub.emitted
    requires forall p: nat :: v.Connected(p) == w.Connected(p)
    ensures Marks(w, v) && Toggled(w, v) == {}
  {
    assert Toggled(w, v) == {};
    assert Toggled(w, v) - w.hub.cConnected == {};
  }

  // ---- the operations -----------------------------------------------------------

  ghost predicate Good(w: World, v: World) { Inv(v) && Marks(w, v) }

  lemma Settles(w: World, v: World, p: nat)
    requires Inv(w) && Touches(w, v, p)
    ensures Good(w, v.Settled(w.Connected(p), p))
  {
    SettledKeeps(w, v, p);
    SettledMarks(w, v, p);
  }

  lemma PowerOneGood(w: World, p: nat, on: bool)
    requires Inv(w) && w.PortValid(p)
    ensures Good(w, w.PowerOne(p, on)) && Toggled(w, w.PowerOne(p, on)) <= {p}
  {
    PowerTouches(w, p, on);
    Settles(w, w.WithPort(p, w.hub.ports[p - 1].(powered := on)), p);
  }

  /** The ganged loop from port p on. */
  lemma {:induction false} PowerEachGood(w: World, p: nat, on: bool)
    requires Inv(w) && 0 < p
    ensures Good(w, w.PowerEach(p, on))
    ensures forall q: nat :: q in Toggled(w, w.PowerEach(p, on)) ==> p <= q
    decreases |w.hub.ports| + 1 - p
  {
    if p > |w.hub.ports| {
      MarksNone(w, w);
    } else {
      var u := w.PowerOne(p, on);
      PowerOneGood(w, p, on);
      hide Inv, Marks;
      assert |u.hub.ports| == |w.hub.ports|;
      PowerEachGood(u, p + 1, on);
      hide Toggled;
      GoodCompose(w, u, u.PowerEach(p + 1, on));
    }
  }

  lemma GoodCompose(w: World, u: World, v: World)
    requires Good(w, u) && Good(u, v) && Toggled(w, u) !! Toggled(u, v)
    ensures Good(w, v) && Toggled(w, v) == Toggled(w, u) + Toggled(u, v)
  {
    MarksCompose(w, u, v);
  }

  lemma PortPowerGood(w: World, p: nat, on: bool)
    requires Inv(w)
    ensures Good(w, w.SetPortPower(p, on).world)
  {
    MarksNone(w, w);
    if w.PortValid(p) {
      hide Inv, Marks;
      if w.hub.power == Ganged { PowerEachGood(w, 1, on); } else { PowerOneGood(w, p, on); }
    }
  }

  lemma AttachGood(w: World, d: nat, p: nat)
    requires Inv(w)
    ensures Good(w, w.Attach(d, p).world)
  {
    MarksNone(w, w);
    hide Inv, Marks;
    if w.Attach(d, p).error == None {
      LinkTouches(w, d, p);
      Settles(w, w.Linked(d, p), p);
    }
  }

  lemma UnplugGood(w: World, d: nat)
    requires Inv(w) && d in w.devices
    ensures Good(w, w.Unplug(d)) && w.Unplug(d).next == w.next
    ensures d in w.Unplug(d).devices && w.Unplug(d).devices[d] == w.devices[d].(port := None)
    ensures forall q: nat :: w.devices[d].port != Some(q) ==> w.Unplug(d).Connected(q) == w.Connected(q)
  {
    MarksNone(w, w);
    hide Inv, Marks;
    match w.devices[d].port
    case None =>
    case Some(p) =>
      UnlinkTouches(w, d, p);
      Settles(w, w.Unlinked(d, p), p);
  }

  lemma SignalGood(w: World, d: nat, on: bool)
    requires Inv(w) && d in w.devices
    ensures Good(w, w.Signal(d, on)) && w.Signal(d, on).next == w.next
    ensures d in w.Signal(d, on).devices && w.Signal(d, on).devices[d] == w.devices[d].(signaling := on)
    ensures w.devices[d].port.Some? && !on ==> !w.Signal(d, on).Connected(w.devices[d].port.value)
  {
    var v := w.WithDevice(d, w.devices[d].(signaling := on));
    match w.devices[d].port
    case None =>
      LooseDevice(w, d, v.devices[d]);
      MarksNone(w, v);
    case Some(p) =>
      SignalTouches(w, d, p, on);
      Settles(w, v, p);
      assert w.Peer(p) == Some(d);
  }

  lemma UnregisterGood(w: World, d: nat)
    requires Inv(w) && d in w.devices && w.devices[d].port == None
    ensures Good(w, w.Unregister(d).world)
    ensures w.devices[d].registered ==> w.Unregister(d).error == None
    ensures w.Unregister(d).world == w.WithDevice(d, w.devices[d].(registered := false))
  {
    var device := w.devices[d].(registered := false);
    assert w.Unregister(d).world == w.WithDevice(d, device) by { assert w.devices == w.devices[d := w.devices[d]]; }
    LooseDevice(w, d, device);
    MarksNone(w, w.WithDevice(d, device));
  }

  /** Forced destruction of a registered device cannot fail. */
  lemma DestroyGood(w: World, d: nat, force: bool)
    requires Inv(w) && d in w.devices
    ensures Good(w, w.DestroyDevice(d, force).world) && w.DestroyDevice(d, force).world.next == w.next
    ensures force && w.devices[d].registered ==> w.DestroyDevice(d, force).error == None
    ensures w.DestroyDevice(d, force).error == None ==>
      && d in w.DestroyDevice(d, force).world.devices
      && !w.DestroyDevice(d, force).world.devices[d].registered && w.DestroyDevice(d, force).world.devices[d].port == None
  {
    MarksNone(w, w);
    hide Inv, Marks;
    if w.devices[d].port == None {
      UnregisterGood(w, d);
    } else if force {
      var p := w.devices[d].port.value;
      var s := w.Signal(d, false);
      SignalGood(w, d, false);
      var u := s.Unplug(d);
      UnplugGood(s, d);
      assert !s.Connected(p);
      UnplugQuiet(s, d, p);
      assert Toggled(s, u) == {};
      GoodCompose(w, s, u);
      UnregisterGood(u, d);
      LooseQuiet(u, d, u.devices[d].(registered := false));
      GoodCompose(w, u, u.Unregister(d).world);
    }
  }

  /** Unplugging a silent device changes no connection. */
  lemma UnplugQuiet(w: World, d: nat, p: nat)
    requires Inv(w) && d in w.devices && w.devices[d].port == Some(p) && !w.Connected(p)
    ensures Toggled(w, w.Unplug(d)) == {}
  {
    UnlinkTouches(w, d, p);
  }

  lemma LooseQuiet(w: World, d: nat, device: Device)
    requires Inv(w) && d in w.devices && w.devices[d].port == None && device.port == None && CapsValid(device.caps)
    ensures Toggled(w, w.WithDevice(d, device)) == {}
  {
    LooseDevice(w, d, device);
  }

  lemma CreateGood(w: World, caps: bv8, memory: bool, inserted: bool)
    requires Inv(w)
    ensures Good(w, w.Create(caps, memory, inserted).world) && Toggled(w, w.Create(caps, memory, inserted).world) == {}
    ensures w.Create(caps, memory, inserted).error == None ==>
      w.Create(caps, memory, inserted).world.Found(w.next) && w.Create(caps, memory, inserted).world.next == w.next + 1
  {
    MarksNone(w, w);
    var r := w.Create(caps, memory, inserted);
    if r.error == None {
      var v := w.(next := w.next + 1);
      assert Inv(v) by {
        assert forall q: nat :: v.Peer(q) == w.Peer(q);
        forall q: nat ensures Agrees(v, q) { assert Agrees(w, q); }
      }
      assert w.next !in w.devices;
      LooseDevice(v, w.next, Device(caps, false, None, true));
      assert forall q: nat :: v.Connected(q) == w.Connected(q);
      MarksNone(w, r.world);
    }
  }

  lemma CreateAndTellGood(w: World, caps: bv8, memory: bool, inserted: bool, copied: bool)
    requires Inv(w)
    ensures Good(w, w.CreateAndTell(caps, memory, inserted, copied).world)
  {
    CreateGood(w, caps, memory, inserted);
    var made := w.Create(caps, memory, inserted);
    hide Inv, Marks, World.Create;
    if made.error == None && !copied {
      DestroyGood(made.world, w.next, true);
      GoodCompose(w, made.world, made.world.DestroyDevice(w.next, true).world);
    }
  }

  // ---- every request ---------------------------------------------------------------

  /** The hub is told once for each connection or reset change bit that becomes set. */
  ghost predicate Announces(w: World, v: World) {
    && |v.hub.ports| == |w.hub.ports| && v.hub.listening == w.hub.listening
    && v.hub.emitted == w.hub.emitted +
         if w.hub.listening then |v.hub.cConnected - w.hub.cConnected| + |v.hub.cReset - w.hub.cReset| else 0
  }

  lemma MarksAnnounce(w: World, v: World)
    requires Marks(w, v)
    ensures Announces(w, v)
  {
    assert v.hub.cConnected - w.hub.cConnected == Toggled(w, v) - w.hub.cConnected;
    assert v.hub.cReset - w.hub.cReset == {};
  }

  /** The connection change bits a request acknowledges. */
  function Acknowledged(w: World, op: Op): set<nat> {
    match op
    case ClearPortFeature(p, f) => if f == C_CONNECTION && w.PortValid(p) then {p} else {}
    case ResetTheHub => set p: nat | 0 < p <= |w.hub.ports| && w.PortValid(p)
    case _ => {}
  }

  /** One request: the invariant, its notifications, and its connection change bits. */
  ghost predicate Lawful(w: World, op: Op, v: World) {
    && Inv(v) && Announces(w, v)
    && v.hub.cConnected == (w.hub.cConnected + Toggled(w, v)) - Acknowledged(w, op)
  }

  lemma GoodLawful(w: World, op: Op, v: World)
    requires Good(w, v) && Acknowledged(w, op) == {}
    ensures Lawful(w, op, v)
  {
    MarksAnnounce(w, v);
    assert (w.hub.cConnected + Toggled(w, v)) - {} == w.hub.cConnected + Toggled(w, v);
  }

  /** A request that leaves the topology alone and sets no new change bit. */
  lemma StoredLawful(w: World, op: Op, v: World)
    requires Inv(w) && Sized(v) && v.devices == w.devices && v.next == w.next
    requires |v.hub.ports| == |w.hub.ports| && v.hub.listening == w.hub.listening && v.hub.emitted == w.hub.emitted
    requires forall p: nat :: v.Peer(p) == w.Peer(p) && v.Powered(p) == w.Powered(p)
    requires v.hub.enabled <= w.hub.enabled && (v.hub.speed == w.hub.speed || (v.hub.speed == map[] && v.hub.enabled == {}))
    requires v.hub.cConnected == w.hub.cConnected - Acknowledged(w, op) && v.hub.cReset <= w.hub.cReset
    ensures Lawful(w, op, v)
  {
    forall q: nat ensures Agrees(v, q) && v.Connected(q) == w.Connected(q) { assert Agrees(w, q); }
    assert Toggled(w, v) == {};
    assert v.hub.cConnected - w.hub.cConnected == {} && v.hub.cReset - w.hub.cReset == {};
  }

  lemma ResetPortKeeps(w: World, p: nat)
    requires Inv(w)
    ensures Inv(w.ResetPort(p).world)
    ensures forall q: nat :: w.ResetPort(p).world.Connected(q) == w.Connected(q)
  {
    var v := w.ResetPort(p).world;
    ResetStores(w, p);
    SameTopology(w, v);
    assert Sized(v);
    forall q: nat ensures Agrees(v, q) {
      assert Agrees(w, q);
      hide Matching, Numbered, Sized, World.Connected, World.CommonSpeed, World.ResetPort;
    }
  }

  /** What a reset stores. */
  lemma ResetStores(w: World, p: nat)
    ensures var v := w.ResetPort(p).world;
      && v.hub.ports == w.hub.ports && v.devices == w.devices && v.next == w.next
      && (w.ResetPort(p).error == None ==> w.PortValid(p) && w.Connected(p) && w.CommonSpeed(p) != NoSpeed)
      && v.hub.cReset <= w.hub.cReset + {p}
      && (w.ResetPort(p).error != None ==> v == w)
      && (w.ResetPort(p).error == None ==>
            v.hub.(cReset := w.hub.cReset, emitted := w.hub.emitted) == w.Restarted(p, w.CommonSpeed(p)).hub)
  {
    hide World.Connected, World.CommonSpeed;
  }

  lemma NotedResetTells(w: World, p: nat)
    ensures var v := w.NotedReset(p);
      && v.hub.(cReset := w.hub.cReset, emitted := w.hub.emitted) == w.hub
      && v.hub.emitted == w.hub.emitted + if w.hub.listening then |v.hub.cReset - w.hub.cReset| else 0
  {
    assert w.NotedReset(p).hub.cReset - w.hub.cReset == if p in w.hub.cReset then {} else {p};
  }

  lemma ResetPortAnnounces(w: World, p: nat)
    ensures var v := w.ResetPort(p).world; Announces(w, v) && v.hub.cConnected == w.hub.cConnected
  {
    var s := w.CommonSpeed(p);
    NotedResetTells(w.Restarted(p, s), p);
    var h := w.hub;
    assert w.Restarted(p, s).hub.(enabled := h.enabled, suspended := h.suspended, reset := h.reset, speed := h.speed) == h;
    hide World.NotedReset, World.CommonSpeed, World.Connected, World.Restarted;
    assert w.hub.cConnected - w.hub.cConnected == {};
    assert w.hub.cReset - w.hub.cReset == {};
  }

  lemma ResetPortLawful(w: World, op: Op, p: nat)
    requires Inv(w) && Acknowledged(w, op) == {}
    ensures Lawful(w, op, w.ResetPort(p).world)
  {
    ResetPortKeeps(w, p);
    ResetPortAnnounces(w, p);
    hide Inv, World.Connected, World.ResetPort;
    assert Toggled(w, w.ResetPort(p).world) == {};
    assert (w.hub.cConnected + {}) - {} == w.hub.cConnected;
  }

  lemma FeatureLawful(w: World, op: Op)
    requires Inv(w) && (op.ClearPortFeature? || op.SetPortFeature?)
    ensures Lawful(w, op, Do(w, op).world)
  {
    if op.feature == POWER {
      PortPowerGood(w, op.port, op.SetPortFeature?);
      MarksNone(w, w);
      GoodLawful(w, op, Do(w, op).world);
    } else if op.SetPortFeature? && op.feature == RESET {
      if w.PortValid(op.port) {
        ResetPortLawful(w, op, op.port);
      } else {
        StoredLawful(w, op, w);
      }
    } else {
      hide Inv;
      FeatureStored(w, op);
    }
  }

  /** The features that only set or clear a stored bit. */
  lemma FeatureStored(w: World, op: Op)
    requires Inv(w) && (op.ClearPortFeature? || op.SetPortFeature?)
    requires op.feature != POWER && !(op.SetPortFeature? && op.feature == RESET)
    ensures Lawful(w, op, Do(w, op).world)
  {
    hide Matching, Agrees, Sized, Lawful, Numbered, Toggled, World.SetPortPower, World.ResetPort;
    SameLinks(w, Do(w, op).world);
    FeatureSized(w, op);
    if op.ClearPortFeature? { ClearStored(w, op); } else { StoredLawful(w, op, Do(w, op).world); }
  }

  lemma ClearStored(w: World, op: Op)
    requires Inv(w) && op.ClearPortFeature? && op.feature != POWER && Sized(Do(w, op).world)
    ensures Lawful(w, op, Do(w, op).world)
  {
    hide Matching, Agrees, Sized, Lawful, Numbered, Toggled, World.SetPortPower;
    SameLinks(w, Do(w, op).world);
    StoredLawful(w, op, Do(w, op).world);
  }

  lemma FeatureSized(w: World, op: Op)
    requires Sized(w) && (op.ClearPortFeature? || op.SetPortFeature?)
    requires op.feature != POWER && !(op.SetPortFeature? && op.feature == RESET)
    ensures Sized(Do(w, op).world)
  {
    hide World.SetPortPower, World.ResetPort;
  }

  lemma SameLinks(w: World, v: World)
    requires v.hub.ports == w.hub.ports
    ensures forall p: nat :: v.Peer(p) == w.Peer(p) && v.Powered(p) == w.Powered(p)
  {
  }

  lemma DoLawful(w: World, op: Op)
    requires Inv(w)
    ensures Lawful(w, op, Do(w, op).world)
  {
    if op.ClearPortFeature? || op.SetPortFeature? {
      FeatureLawful(w, op);
    } else if op.ClearHubOverCurrent? || op.ResetTheHub? || op.SetPowerMode? || op.SetOverCurrentMode?
              || op.SetHubOverCurrent? || op.SetPortOverCurrent? {
      hide Matching, Agrees;
      StoredLawful(w, op, Do(w, op).world);
    } else {
      hide Inv, Do;
      LinkLawful(w, op);
    }
  }

  /** The requests that may change a link. */
  lemma LinkLawful(w: World, op: Op)
    requires Inv(w)
    requires op.CreateDevice? || op.DestroyDevice? || op.AttachDevice? || op.DetachDevice? || op.SetSignaling? || op.SetPower?
    ensures Lawful(w, op, Do(w, op).world)
  {
    MarksNone(w, w);
    hide Inv, Marks;
    match op {
      case CreateDevice(caps, memory, inserted, copied) => CreateAndTellGood(w, caps, memory, inserted, copied);
      case DestroyDevice(d, force) => if d in w.devices { DestroyGood(w, d, force); }
      case AttachDevice(d, p) => AttachGood(w, d, p);
      case DetachDevice(d) => if d in w.devices { UnplugGood(w, d); }
      case SetSignaling(d, on) => if d in w.devices { SignalGood(w, d, on); }
      case SetPower(p, on) => PortPowerGood(w, p, on);
    }
    GoodLawful(w, op, Do(w, op).world);
  }
}
