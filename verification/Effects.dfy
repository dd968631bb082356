/** What each request does, fact by fact: for everything that is known of the hub and its
    devices, the requests that change it, when they do, and to what; everything else about
    it stays. Selectors and limits are the numbers of the interface. */
module Effects {
  import opened Wrappers
  import opened Topology
  import opened Agreement

  // ---- what follows a change of links --------------------------------------------

  /** Port p has lost its connection. */
  predicate Drops(w: World, v: World, p: nat) { w.Connected(p) && !v.Connected(p) }

  /** Only links have changed: the ports that lost theirs keep no protocol state, and
      everything else that is stored, but for connection change bits, is as it was. */
  ghost predicate Follows(w: World, v: World) {
    && (forall p: nat :: p in v.hub.enabled <==> p in w.hub.enabled && !Drops(w, v, p))
    && (forall p: nat :: p in v.hub.suspended <==> p in w.hub.suspended && !Drops(w, v, p))
    && (forall p: nat :: v.SpeedOf(p) == if Drops(w, v, p) then NoSpeed else w.SpeedOf(p))
    && v.hub.cEnabled == w.hub.cEnabled && v.hub.cSuspended == w.hub.cSuspended
    && v.hub.cReset == w.hub.cReset && v.hub.cOverCurrent == w.hub.cOverCurrent
    && v.hub.power == w.hub.power && v.hub.overCurrentMode == w.hub.overCurrentMode
    && v.hub.overCurrent == w.hub.overCurrent && v.hub.listening == w.hub.listening
  }

  lemma FollowsNone(w: World, v: World)
    requires v.hub.(ports := w.hub.ports) == w.hub && forall p: nat :: v.Connected(p) == w.Connected(p)
    ensures Follows(w, v)
  {
  }

  /** Two changes in a row, if no port that the first one drops comes back. */
  lemma FollowsCompose(w: World, u: World, v: World)
    requires Follows(w, u) && Follows(u, v) && forall p: nat :: Drops(w, u, p) ==> !v.Connected(p)
    requires forall p: nat :: !w.Connected(p) && u.Connected(p) ==> v.Connected(p)
    ensures Follows(w, v)
  {
  }

  /** Comparing and marking after a change of port p's link. */
  lemma SettledFollows(w: World, v: World, p: nat)
    requires Touches(w, v, p)
    ensures Follows(w, v.Settled(w.Connected(p), p))
  {
    var r := v.Settled(w.Connected(p), p);
    SettledStores(v, w.Connected(p), p);
    SameTopology(v, r);
    hide Matching, Numbered, World.Connected, World.CommonSpeed, World.Settled;
    assert Drops(w, r, p) <==> w.Connected(p) != v.Connected(p) && !v.Connected(p);
    forall q: nat | q != p ensures !Drops(w, r, q) {
    }
  }

  /** Two changes in a row, if no port changes back. */
  lemma FollowsApart(w: World, u: World, v: World)
    requires Follows(w, u) && Follows(u, v) && Toggled(w, u) !! Toggled(u, v)
    requires |u.hub.ports| == |w.hub.ports| == |v.hub.ports|
    ensures Follows(w, v)
  {
    forall q: nat | w.Connected(q) != u.Connected(q) ensures v.Connected(q) == u.Connected(q) {
      assert q in Toggled(w, u);
      assert q !in Toggled(u, v);
    }
    hide Toggled, World.Connected, World.SpeedOf;
    FollowsCompose(w, u, v);
  }

  // ---- power -----------------------------------------------------------------------

  lemma PowerOneFollows(w: World, p: nat, on: bool)
    requires Inv(w) && w.PortValid(p)
    ensures Follows(w, w.PowerOne(p, on))
    ensures w.PowerOne(p, on).devices == w.devices && w.PowerOne(p, on).next == w.next
    ensures w.PowerOne(p, on).hub.ports == w.hub.ports[p - 1 := w.hub.ports[p - 1].(powered := on)]
  {
    var v := w.WithPort(p, w.hub.ports[p - 1].(powered := on));
    PowerTouches(w, p, on);
    SettledFollows(w, v, p);
    SettledStores(v, w.Connected(p), p);
  }

  /** The ganged loop from port p on: what it does to the ports. */
  lemma {:induction false} PowerEachSwitches(w: World, p: nat, on: bool)
    requires 0 < p
    ensures w.PowerEach(p, on).devices == w.devices && w.PowerEach(p, on).next == w.next
    ensures |w.PowerEach(p, on).hub.ports| == |w.hub.ports|
    ensures forall q :: 0 <= q < |w.hub.ports| ==>
      w.PowerEach(p, on).hub.ports[q] == if q + 1 < p then w.hub.ports[q] else w.hub.ports[q].(powered := on)
    decreases |w.hub.ports| + 1 - p
  {
    hide World.Connected;
    if p <= |w.hub.ports| {
      var u := w.PowerOne(p, on);
      assert u.hub.ports == w.hub.ports[p - 1 := w.hub.ports[p - 1].(powered := on)] && u.devices == w.devices && u.next == w.next;
      hide World.PowerOne;
      PowerEachSwitches(u, p + 1, on);
    }
  }

  lemma {:induction false} PowerEachFollows(w: World, p: nat, on: bool)
    requires Inv(w) && 0 < p
    ensures Follows(w, w.PowerEach(p, on))
    decreases |w.hub.ports| + 1 - p
  {
    hide Inv, Marks, World.PowerOne, Follows, World.Connected, Toggled;
    if p > |w.hub.ports| {
      FollowsNone(w, w);
    } else {
      var u := w.PowerOne(p, on);
      PowerOneGood(w, p, on);
      PowerOneFollows(w, p, on);
      PowerEachFollows(u, p + 1, on);
      PowerApart(w, u, p, on);
      FollowsApart(w, u, u.PowerEach(p + 1, on));
    }
  }

  /** The later rounds do not touch a port that an earlier one has switched. */
  lemma PowerApart(w: World, u: World, p: nat, on: bool)
    requires Inv(u) && |u.hub.ports| == |w.hub.ports| && Toggled(w, u) <= {p}
    ensures Toggled(w, u) !! Toggled(u, u.PowerEach(p + 1, on)) && |u.PowerEach(p + 1, on).hub.ports| == |w.hub.ports|
  {
    hide Inv, Toggled;
    PowerEachGood(u, p + 1, on);
  }

  lemma PortPowerFollows(w: World, p: nat, on: bool)
    requires Inv(w)
    ensures var v := w.SetPortPower(p, on).world;
      && Follows(w, v) && v.devices == w.devices && v.next == w.next && |v.hub.ports| == |w.hub.ports|
      && forall q :: 0 <= q < |w.hub.ports| ==>
           v.hub.ports[q] ==
             if w.PortValid(p) && (w.hub.power == Ganged || q + 1 == p) then w.hub.ports[q].(powered := on) else w.hub.ports[q]
  {
    FollowsNone(w, w);
    hide Inv, World.PowerOne, World.PowerEach, World.Connected, Follows;
    if w.PortValid(p) {
      if w.hub.power == Ganged {
        PowerEachFollows(w, 1, on);
        PowerEachSwitches(w, 1, on);
      } else {
        PowerOneFollows(w, p, on);
      }
    }
  }

  // ---- devices -----------------------------------------------------------------------

  lemma AttachFollows(w: World, d: nat, p: nat)
    requires Inv(w) && w.Attach(d, p).error == None
    ensures w.PortValid(p) && d in w.devices
    ensures var v := w.Attach(d, p).world;
      && Follows(w, v) && v.next == w.next && v.devices == w.devices[d := w.devices[d].(port := Some(p))]
      && v.hub.ports == w.hub.ports[p - 1 := w.hub.ports[p - 1].(peer := Some(d))]
  {
    hide Inv;
    LinkTouches(w, d, p);
    SettledFollows(w, w.Linked(d, p), p);
    SettledStores(w.Linked(d, p), w.Connected(p), p);
    hide Follows, World.Settled, World.Connected;
  }

  lemma UnplugFollows(w: World, d: nat)
    requires Inv(w) && d in w.devices
    ensures var v := w.Unplug(d);
      && Follows(w, v) && v.next == w.next && v.devices == w.devices[d := w.devices[d].(port := None)]
      && |v.hub.ports| == |w.hub.ports|
      && forall q :: 0 <= q < |w.hub.ports| ==>
           v.hub.ports[q] == if w.devices[d].port == Some(q + 1) then w.hub.ports[q].(peer := None) else w.hub.ports[q]
  {
    match w.devices[d].port
    case None =>
      FollowsNone(w, w);
      assert w.devices[d := w.devices[d]] == w.devices;
    case Some(p) =>
      UnlinkTouches(w, d, p);
      SettledFollows(w, w.Unlinked(d, p), p);
      SettledStores(w.Unlinked(d, p), w.Connected(p), p);
      hide Follows, Inv, Touches, World.Mark, World.Connected;
  }

  lemma SignalFollows(w: World, d: nat, on: bool)
    requires Inv(w) && d in w.devices
    ensures var v := w.Signal(d, on);
      && Follows(w, v) && v.next == w.next && v.devices == w.devices[d := w.devices[d].(signaling := on)]
      && v.hub.ports == w.hub.ports
  {
    hide Follows, World.Settled;
    var v := w.WithDevice(d, w.devices[d].(signaling := on));
    match w.devices[d].port
    case None =>
      LooseDevice(w, d, v.devices[d]);
      FollowsNone(w, v);
    case Some(p) =>
      SignalTouches(w, d, p, on);
      SettledFollows(w, v, p);
      SettledStores(v, w.Connected(p), p);
  }

  /** A registered device that is not attached leaves the registry. */
  lemma UnregisterFollows(w: World, d: nat)
    requires Inv(w) && w.Found(d) && w.devices[d].port == None
    ensures var v := w.Unregister(d).world;
      && Follows(w, v) && v.next == w.next && v.devices == w.devices[d := w.devices[d].(registered := false)]
      && v.hub.ports == w.hub.ports
  {
    hide Follows;
    LooseDevice(w, d, w.devices[d].(registered := false));
    FollowsNone(w, w.Unregister(d).world);
  }

  /** A registered device that is attached falls silent and is detached. */
  lemma RemoveFollows(w: World, d: nat, p: nat)
    requires Inv(w) && d in w.devices && w.devices[d].port == Some(p)
    ensures var v := w.Signal(d, false).Unplug(d);
      && d in w.Signal(d, false).devices
      && Good(w, v) && Follows(w, v) && v.next == w.next && v.devices == w.devices[d := w.devices[d].(signaling := false, port := None)]
      && |v.hub.ports| == |w.hub.ports|
      && forall q :: 0 <= q < |w.hub.ports| ==>
           v.hub.ports[q] == if q + 1 == p then w.hub.ports[q].(peer := None) else w.hub.ports[q]
  {
    hide Inv, Follows, Marks, Toggled, World.Signal, World.Unplug;
    var s := w.Signal(d, false);
    SignalGood(w, d, false);
    SignalFollows(w, d, false);
    UnplugGood(s, d);
    UnplugFollows(s, d);
    UnplugQuiet(s, d, p);
    GoodCompose(w, s, s.Unplug(d));
    FollowsApart(w, s, s.Unplug(d));
  }

  lemma DestroyFollows(w: World, d: nat, force: bool)
    requires Inv(w) && w.Found(d) && (force || w.devices[d].port == None)
    ensures w.DestroyDevice(d, force).error == None
    ensures var v := w.DestroyDevice(d, force).world;
      && Follows(w, v) && v.next == w.next && |v.hub.ports| == |w.hub.ports|
      && v.devices == w.devices[d := w.devices[d].(signaling := w.devices[d].signaling && w.devices[d].port == None,
                                                   port := None, registered := false)]
      && forall q :: 0 <= q < |w.hub.ports| ==>
           v.hub.ports[q] == if w.devices[d].port == Some(q + 1) then w.hub.ports[q].(peer := None) else w.hub.ports[q]
  {
    hide Inv, Follows, Marks, Toggled, World.Signal, World.Unplug, World.Connected;
    match w.devices[d].port
    case None =>
      UnregisterFollows(w, d);
    case Some(p) =>
      RemoveFollows(w, d, p);
      var u := w.Signal(d, false).Unplug(d);
      UnregisterFollows(u, d);
      UnregisterGood(u, d);
      LeavesQuiet(u, d);
      FollowsApart(w, u, u.Unregister(d).world);
  }

  lemma LeavesQuiet(w: World, d: nat)
    requires Inv(w) && d in w.devices && w.devices[d].port == None
    ensures Toggled(w, w.WithDevice(d, w.devices[d].(registered := false))) == {}
  {
    LooseQuiet(w, d, w.devices[d].(registered := false));
  }

  /** A device under the next id connects nothing. */
  lemma CreateFollows(w: World, caps: bv8, memory: bool, inserted: bool)
    requires Inv(w) && w.Create(caps, memory, inserted).error == None
    ensures var v := w.Create(caps, memory, inserted).world;
      && Good(w, v) && Toggled(w, v) == {} && Follows(w, v) && v.next == w.next + 1 && v.hub.ports == w.hub.ports
      && w.next !in w.devices && v.devices == w.devices[w.next := Device(caps, false, None, true)]
  {
    hide Follows, Toggled, Marks, World.Connected;
    CreateGood(w, caps, memory, inserted);
    var v := w.Create(caps, memory, inserted).world;
    forall p: nat ensures v.Connected(p) == w.Connected(p) { CreateSame(w, v, p); }
    FollowsNone(w, v);
  }

  lemma CreateSame(w: World, v: World, p: nat)
    requires |v.hub.ports| == |w.hub.ports| && Toggled(w, v) == {}
    ensures v.Connected(p) == w.Connected(p)
  {
    assert p in Toggled(w, v) <==> 0 < p <= |w.hub.ports| && w.Connected(p) != v.Connected(p);
  }

  lemma CreateAndTellFollows(w: World, caps: bv8, memory: bool, inserted: bool, copied: bool)
    requires Inv(w)
    ensures var r := w.CreateAndTell(caps, memory, inserted, copied);
      if 0 < caps < 8 && memory && inserted && w.next <= 0xFFFF_FFFF then
        && Follows(w, r.world) && r.world.next == w.next + 1 && r.world.hub.ports == w.hub.ports
        && w.next !in w.devices && r.world.devices == w.devices[w.next := Device(caps, false, None, copied)]
        && r.error == if copied then None else Some(EFAULT)
      else
        && r.world == w
        && r.error == if !(0 < caps < 8) then Some(EINVAL) else if !memory then Some(ENOMEM)
                      else if w.next > 0xFFFF_FFFF then Some(ENOSPC) else Some(ENOMEM)
  {
    hide Follows, Inv, World.DestroyDevice, Toggled, Marks;
    var made := w.Create(caps, memory, inserted);
    if made.error == None {
      CreateFollows(w, caps, memory, inserted);
      if !copied {
        var v := made.world.DestroyDevice(w.next, true).world;
        DestroyFollows(made.world, w.next, true);
        DestroyGood(made.world, w.next, true);
        assert v.hub.ports == w.hub.ports;
        FollowsQuiet(w, made.world, v);
      }
    }
  }

  /** The first of two changes connects and drops nothing. */
  lemma FollowsQuiet(w: World, u: World, v: World)
    requires Follows(w, u) && Follows(u, v) && Toggled(w, u) == {}
    requires |u.hub.ports| == |w.hub.ports| == |v.hub.ports|
    ensures Follows(w, v)
  {
    hide Follows;
    FollowsApart(w, u, v);
  }

  lemma KnownIds(w: World)
    requires Inv(w)
    ensures forall d: nat :: d in w.devices ==> 0 < d < w.next
  {
  }

  lemma DestroyIs(w: World, d: nat, force: bool)
    requires Inv(w)
    ensures var r := w.Destroy(d, force);
      if d > 0 && w.Found(d) && (force || w.devices[d].port == None) then
        && r.error == None && Follows(w, r.world) && r.world.next == w.next && |r.world.hub.ports| == |w.hub.ports|
        && (forall q :: 0 <= q < |w.hub.ports| ==> r.world.hub.ports[q].(peer := None) == w.hub.ports[q].(peer := None))
        && r.world.devices == w.devices[d := w.devices[d].(signaling := w.devices[d].signaling && w.devices[d].port == None,
                                                           port := None, registered := false)]
      else
        r.world == w && r.error == if d == 0 then Some(EINVAL) else if !w.Found(d) then Some(ENOENT) else Some(EBUSY)
  {
    hide Follows, Inv, World.Signal, World.Unplug;
    if d > 0 && w.Found(d) && (force || w.devices[d].port == None) { DestroyFollows(w, d, force); }
  }

  /** The requests that store something and change no link. */
  predicate Stores(op: Op) {
    || op.ClearHubOverCurrent? || op.ResetTheHub? || op.SetPowerMode? || op.SetOverCurrentMode?
    || op.SetPortOverCurrent? || op.SetHubOverCurrent?
    || (op.ClearPortFeature? && op.feature != 8) || (op.SetPortFeature? && op.feature != 8)
  }

  lemma LinkFollows(w: World, op: Op)
    requires Inv(w) && !Stores(op)
    ensures Follows(w, Do(w, op).world)
  {
    hide Follows, Inv, World.SetPortPower, World.DestroyDevice, World.Unplug, World.Signal, World.CreateAndTell;
    FollowsNone(w, w);
    match op
    case CreateDevice(caps, memory, inserted, copied) => CreateAndTellFollows(w, caps, memory, inserted, copied);
    case DestroyDevice(d, force) => DestroyIs(w, d, force);
    case AttachDevice(d, p) => if w.Attach(d, p).error == None { AttachFollows(w, d, p); }
    case DetachDevice(d) => if w.Detach(d).error == None { UnplugFollows(w, d); }
    case SetSignaling(d, on) => if w.SetSignaling(d, on).error == None { SignalFollows(w, d, on); }
    case SetPower(p, on) => PortPowerFollows(w, p, on);
    case ClearPortFeature(p, f) => PortPowerFollows(w, p, false);
    case SetPortFeature(p, f) => PortPowerFollows(w, p, true);
  }

  // ---- every fact and what changes it -------------------------------------------------

  /** Port q: VBUS is switched by a power request, in ganged mode by one to any port, and its
      over-current condition by its own setter; no other request changes either. */
  lemma PortExact(w: World, op: Op, q: nat)
    requires Inv(w) && 0 < q <= |w.hub.ports|
    ensures |Do(w, op).world.hub.ports| == |w.hub.ports|
    ensures Do(w, op).world.hub.ports[q - 1].powered ==
      match op
      case SetPower(p, on) =>
        if 0 < p <= |w.hub.ports| && (p == q || w.hub.power == Ganged) then on else w.hub.ports[q - 1].powered
      case SetPortFeature(p, f) =>
        w.hub.ports[q - 1].powered || (f == 8 && 0 < p <= |w.hub.ports| && (p == q || w.hub.power == Ganged))
      case ClearPortFeature(p, f) =>
        w.hub.ports[q - 1].powered && !(f == 8 && 0 < p <= |w.hub.ports| && (p == q || w.hub.power == Ganged))
      case _ => w.hub.ports[q - 1].powered
    ensures Do(w, op).world.hub.ports[q - 1].overCurrent ==
      if op.SetPortOverCurrent? && op.port == q && w.hub.overCurrentMode == PerPort then op.on else w.hub.ports[q - 1].overCurrent
  {
    hide Follows, Inv, World.SetPortPower, World.Destroy, World.Unplug, World.Signal, World.CreateAndTell;
    hide World.ResetPort, World.Settled, World.Connected, World.CommonSpeed;
    match op
    case CreateDevice(caps, memory, inserted, copied) => CreateAndTellFollows(w, caps, memory, inserted, copied);
    case DestroyDevice(d, force) => DestroyIs(w, d, force);
    case AttachDevice(d, p) => if w.Attach(d, p).error == None { AttachFollows(w, d, p); }
    case DetachDevice(d) => if w.Detach(d).error == None { UnplugFollows(w, d); }
    case SetSignaling(d, on) => if w.SetSignaling(d, on).error == None { SignalFollows(w, d, on); }
    case SetPower(p, on) => PortPowerFollows(w, p, on);
    case ClearPortFeature(p, f) => PortPowerFollows(w, p, false);
    case SetPortFeature(p, f) => PortPowerFollows(w, p, true); ResetStores(w, p);
    case _ =>
  }

  /** Device d: attached only to a free port and only if it is free itself, detached, signaled and
      destroyed by the requests that name it while it is registered; nothing else touches it. */
  lemma DeviceExact(w: World, op: Op, d: nat)
    requires Inv(w) && d in w.devices
    ensures d in Do(w, op).world.devices
    ensures var x := w.devices[d];
      Do(w, op).world.devices[d] ==
        match op
        case AttachDevice(e, p) =>
          if e == d && x.registered && x.port == None && 0 < p <= |w.hub.ports| && w.hub.ports[p - 1].peer == None
          then x.(port := Some(p)) else x
        case DetachDevice(e) => if e == d && x.registered then x.(port := None) else x
        case SetSignaling(e, on) => if e == d && x.registered then x.(signaling := on) else x
        case DestroyDevice(e, force) =>
          if e == d && x.registered && (force || x.port == None)
          then x.(signaling := x.signaling && x.port == None, port := None, registered := false) else x
        case _ => x
  {
    hide Follows, Inv, World.SetPortPower, World.DestroyDevice, World.Unplug, World.Signal, World.CreateAndTell;
    hide World.ResetPort, World.Settled;
    KnownIds(w);
    match op
    case CreateDevice(caps, memory, inserted, copied) => CreateAndTellFollows(w, caps, memory, inserted, copied);
    case DestroyDevice(e, force) => DestroyIs(w, e, force);
    case AttachDevice(e, p) => if w.Attach(e, p).error == None { AttachFollows(w, e, p); }
    case DetachDevice(e) => if w.Detach(e).error == None { UnplugFollows(w, e); }
    case SetSignaling(e, on) => if w.SetSignaling(e, on).error == None { SignalFollows(w, e, on); }
    case SetPower(p, on) => PortPowerFollows(w, p, on);
    case ClearPortFeature(p, f) => PortPowerFollows(w, p, false);
    case SetPortFeature(p, f) => PortPowerFollows(w, p, true); ResetStores(w, p);
    case _ =>
  }

  /** The devices there are: one more, under the next id, exactly if a creation has valid
      capabilities, room and memory; it is registered unless its id could not be told. */
  lemma DevicesExact(w: World, op: Op)
    requires Inv(w)
    ensures if op.CreateDevice? && 0 < op.caps < 8 && op.memory && op.inserted && w.next <= 0xFFFF_FFFF then
              && Do(w, op).world.next == w.next + 1 && Do(w, op).world.devices.Keys == w.devices.Keys + {w.next}
              && Do(w, op).world.devices[w.next] == Device(op.caps, false, None, op.copied)
            else Do(w, op).world.next == w.next && Do(w, op).world.devices.Keys == w.devices.Keys
  {
    hide Follows, Inv, World.SetPortPower, World.Destroy, World.Unplug, World.Signal, World.CreateAndTell;
    hide World.ResetPort, World.Settled;
    match op
    case CreateDevice(caps, memory, inserted, copied) => CreateAndTellFollows(w, caps, memory, inserted, copied);
    case DestroyDevice(e, force) => DestroyIs(w, e, force);
    case AttachDevice(e, p) => if w.Attach(e, p).error == None { AttachFollows(w, e, p); }
    case DetachDevice(e) => if w.Detach(e).error == None { UnplugFollows(w, e); }
    case SetSignaling(e, on) => if w.SetSignaling(e, on).error == None { SignalFollows(w, e, on); }
    case SetPower(p, on) => PortPowerFollows(w, p, on);
    case ClearPortFeature(p, f) => PortPowerFollows(w, p, false);
    case SetPortFeature(p, f) => PortPowerFollows(w, p, true); ResetStores(w, p);
    case _ =>
  }

  /** What is stored about port p: a reset of a connected port enables it and gives it the speed of its
      link; losing the connection or resetting the hub takes everything away; otherwise only
      the requests to suspend, and to clear enable and suspend, change anything. */
  lemma StoredExact(w: World, op: Op, p: nat)
    requires Inv(w)
    ensures var v := Do(w, op).world;
      && (p in v.hub.enabled <==>
            (op == SetPortFeature(p, 4) && w.Connected(p))
            || (p in w.hub.enabled && v.Connected(p) && op != ClearPortFeature(p, 1) && op != ResetTheHub))
      && (p in v.hub.suspended <==>
            (op == SetPortFeature(p, 2) && 0 < p <= |w.hub.ports|)
            || (p in w.hub.suspended && (w.Connected(p) ==> v.Connected(p) && op != SetPortFeature(p, 4))
                && op != ClearPortFeature(p, 2) && op != ResetTheHub))
      && p !in v.hub.reset
    ensures var v := Do(w, op).world;
      v.SpeedOf(p) ==
        if op == SetPortFeature(p, 4) && w.Connected(p) then w.CommonSpeed(p)
        else if op == ResetTheHub || !v.Connected(p) then NoSpeed else w.SpeedOf(p)
  {
    DoLawful(w, op);
    assert Agrees(w, p) && Agrees(Do(w, op).world, p);
    if !Stores(op) {
      LinkFollows(w, op);
      hide Do, World.Connected, World.CommonSpeed;
    } else {
      StoreStored(w, op, p);
    }
  }

  lemma StoreStored(w: World, op: Op, p: nat)
    requires Inv(w) && Stores(op)
    ensures var v := Do(w, op).world;
      && v.Connected(p) == w.Connected(p)
      && (p in v.hub.enabled <==>
            (op == SetPortFeature(p, 4) && w.Connected(p))
            || (p in w.hub.enabled && op != ClearPortFeature(p, 1) && op != ResetTheHub))
      && (p in v.hub.suspended <==>
            (op == SetPortFeature(p, 2) && 0 < p <= |w.hub.ports|)
            || (p in w.hub.suspended && (w.Connected(p) ==> op != SetPortFeature(p, 4))
                && op != ClearPortFeature(p, 2) && op != ResetTheHub))
      && v.SpeedOf(p) ==
        if op == SetPortFeature(p, 4) && w.Connected(p) then w.CommonSpeed(p)
        else if op == ResetTheHub then NoSpeed else w.SpeedOf(p)
  {
    hide World.SetPortPower, World.Connected, World.CommonSpeed, World.ResetPort;
    if op.SetPortFeature? && op.feature == 4 {
      ResetIs(w, op.port);
    } else {
      hide Matching, Agrees;
      StoreLinks(w, op, p);
      StoreBits(w, op, p);
    }
  }

  /** Resetting a port succeeds exactly if it is connected. */
  lemma ResetIs(w: World, p: nat)
    requires Inv(w)
    ensures var r := w.ResetPort(p);
      && r.error == (if !w.PortValid(p) then Some(EINVAL) else if !w.Connected(p) then Some(ENODEV) else None)
      && (w.Connected(p) ==> w.PortValid(p))
      && (r.error != None ==> r.world == w)
      && (r.error == None ==>
            && r.world.hub.enabled == w.hub.enabled + {p} && r.world.hub.suspended == w.hub.suspended - {p}
            && r.world.hub.speed == w.hub.speed[p := w.CommonSpeed(p)] && r.world.hub.cReset == w.hub.cReset + {p})
      && r.world.hub.(enabled := w.hub.enabled, suspended := w.hub.suspended, reset := w.hub.reset, speed := w.hub.speed,
                      cReset := w.hub.cReset, emitted := w.hub.emitted) == w.hub
      && (forall q: nat :: r.world.Connected(q) == w.Connected(q))
  {
    ResetPortKeeps(w, p);
    if w.Connected(p) { ValidCapsHaveSpeed(w.devices[w.Peer(p).value].caps); }
    hide World.Connected, World.CommonSpeed, Matching, Agrees, Sized;
    assert p in w.hub.cReset ==> w.hub.cReset + {p} == w.hub.cReset;
  }

  lemma StoreLinks(w: World, op: Op, p: nat)
    requires Stores(op) && !(op.SetPortFeature? && op.feature == 4)
    ensures Do(w, op).world.Connected(p) == w.Connected(p)
  {
    hide World.SetPortPower, World.ResetPort, World.Connected;
    StorePorts(w, op);
    SameLive(w, Do(w, op).world, p);
  }

  lemma StorePorts(w: World, op: Op)
    requires Stores(op) && !(op.SetPortFeature? && op.feature == 4)
    ensures var v := Do(w, op).world;
      && v.devices == w.devices && v.next == w.next && |v.hub.ports| == |w.hub.ports|
      && forall q :: 0 <= q < |w.hub.ports| ==>
           v.hub.ports[q].powered == w.hub.ports[q].powered && v.hub.ports[q].peer == w.hub.ports[q].peer
  {
    hide World.SetPortPower, World.ResetPort;
  }

  lemma SameLive(w: World, v: World, p: nat)
    requires v.devices == w.devices && |v.hub.ports| == |w.hub.ports|
    requires forall q :: 0 <= q < |w.hub.ports| ==>
      v.hub.ports[q].powered == w.hub.ports[q].powered && v.hub.ports[q].peer == w.hub.ports[q].peer
    ensures v.Connected(p) == w.Connected(p)
  {
  }

  lemma StoreBits(w: World, op: Op, p: nat)
    requires Sized(w) && Stores(op) && !(op.SetPortFeature? && op.feature == 4)
    ensures var v := Do(w, op).world;
      && (p in v.hub.enabled <==> p in w.hub.enabled && op != ClearPortFeature(p, 1) && op != ResetTheHub)
      && (p in v.hub.suspended <==>
            (op == SetPortFeature(p, 2) && 0 < p <= |w.hub.ports|)
            || (p in w.hub.suspended && op != ClearPortFeature(p, 2) && op != ResetTheHub))
      && v.SpeedOf(p) == if op == ResetTheHub then NoSpeed else w.SpeedOf(p)
  {
    hide World.SetPortPower, World.ResetPort;
  }

  /** The change bits of port p: a connection change is noted whenever the connection changes, a reset
      change whenever a reset succeeds; clearing the bit or resetting the hub takes it away. */
  lemma ChangesExact(w: World, op: Op, p: nat)
    requires Inv(w)
    ensures var v := Do(w, op).world;
      && (p in v.hub.cConnected <==>
            (p in w.hub.cConnected || w.Connected(p) != v.Connected(p)) && op != ClearPortFeature(p, 16) && op != ResetTheHub)
      && (p in v.hub.cReset <==>
            (p in w.hub.cReset || (op == SetPortFeature(p, 4) && w.Connected(p)))
            && op != ClearPortFeature(p, 20) && op != ResetTheHub)
      && (p in v.hub.cEnabled <==> p in w.hub.cEnabled && op != ClearPortFeature(p, 17) && op != ResetTheHub)
      && (p in v.hub.cSuspended <==> p in w.hub.cSuspended && op != ClearPortFeature(p, 18) && op != ResetTheHub)
      && (p in v.hub.cOverCurrent <==> p in w.hub.cOverCurrent && op != ClearPortFeature(p, 19) && op != ResetTheHub)
  {
    DoLawful(w, op);
    hide Matching, Agrees, Numbered, World.Connected, World.SetPortPower, World.ResetPort, World.CommonSpeed;
    ConnectionNoted(w, op, p);
    if !Stores(op) {
      LinkFollows(w, op);
      hide Do;
    } else if op.SetPortFeature? && op.feature == 4 {
      ResetIs(w, op.port);
    } else {
      StoreChanges(w, op, p);
    }
  }

  lemma ConnectionNoted(w: World, op: Op, p: nat)
    requires Inv(w) && Lawful(w, op, Do(w, op).world)
    ensures var v := Do(w, op).world;
      p in v.hub.cConnected <==>
        (p in w.hub.cConnected || w.Connected(p) != v.Connected(p)) && op != ClearPortFeature(p, 16) && op != ResetTheHub
  {
    hide Do, World.Connected, Matching, Agrees, Numbered;
    OutsideSame(w, Do(w, op).world, p);
  }

  lemma OutsideSame(w: World, v: World, p: nat)
    requires |v.hub.ports| == |w.hub.ports|
    ensures w.Connected(p) != v.Connected(p) ==> 0 < p <= |w.hub.ports|
  {
  }

  lemma StoreChanges(w: World, op: Op, p: nat)
    requires Sized(w) && Stores(op) && !(op.SetPortFeature? && op.feature == 4)
    ensures var v := Do(w, op).world;
      && (p in v.hub.cReset <==> p in w.hub.cReset && op != ClearPortFeature(p, 20) && op != ResetTheHub)
      && (p in v.hub.cEnabled <==> p in w.hub.cEnabled && op != ClearPortFeature(p, 17) && op != ResetTheHub)
      && (p in v.hub.cSuspended <==> p in w.hub.cSuspended && op != ClearPortFeature(p, 18) && op != ResetTheHub)
      && (p in v.hub.cOverCurrent <==> p in w.hub.cOverCurrent && op != ClearPortFeature(p, 19) && op != ResetTheHub)
  {
    hide World.SetPortPower, World.ResetPort;
  }

  /** The hub's own settings: only their setters change them. */
  lemma SettingsExact(w: World, op: Op)
    requires Inv(w)
    ensures var h := Do(w, op).world.hub;
      && h.listening == w.hub.listening
      && h.power == (if op.SetPowerMode? then op.power else w.hub.power)
      && h.overCurrentMode == (if op.SetOverCurrentMode? then op.mode else w.hub.overCurrentMode)
      && h.overCurrent == (if op.SetHubOverCurrent? && w.hub.overCurrentMode == Global then op.on else w.hub.overCurrent)
  {
    hide Matching, Agrees, Numbered, Sized, World.Connected, World.SetPortPower, World.ResetPort, World.CommonSpeed;
    if !Stores(op) {
      LinkFollows(w, op);
      hide Do;
    } else if op.SetPortFeature? && op.feature == 4 {
      ResetIs(w, op.port);
    }
  }

  /** The answer to every request. */
  lemma AnswerExact(w: World, op: Op)
    requires Inv(w)
    ensures Do(w, op).error ==
      match op
      case CreateDevice(caps, memory, inserted, copied) =>
        if !(0 < caps < 8) then Some(EINVAL) else if !memory then Some(ENOMEM)
        else if w.next > 0xFFFF_FFFF then Some(ENOSPC) else if !inserted then Some(ENOMEM)
        else if !copied then Some(EFAULT) else None
      case DestroyDevice(d, force) =>
        if d == 0 then Some(EINVAL) else if !(d in w.devices && w.devices[d].registered) then Some(ENOENT)
        else if w.devices[d].port.Some? && !force then Some(EBUSY) else None
      case AttachDevice(d, p) =>
        if !(0 < p <= |w.hub.ports|) || d == 0 then Some(EINVAL)
        else if !(d in w.devices && w.devices[d].registered) then Some(ENOENT)
        else if w.hub.ports[p - 1].peer.Some? || w.devices[d].port.Some? then Some(EBUSY) else None
      case DetachDevice(d) =>
        if d == 0 then Some(EINVAL) else if !(d in w.devices && w.devices[d].registered) then Some(ENOENT) else None
      case SetSignaling(d, on) =>
        if d == 0 then Some(EINVAL) else if !(d in w.devices && w.devices[d].registered) then Some(ENOENT) else None
      case SetPower(p, on) => if 0 < p <= |w.hub.ports| then None else Some(EINVAL)
      case ClearPortFeature(p, f) =>
        if 0 < p <= |w.hub.ports| && f in {1, 2, 8, 16, 17, 18, 19, 20} then None else Some(EPIPE)
      case SetPortFeature(p, f) =>
        if !(0 < p <= |w.hub.ports|) || f !in {2, 4, 8} then Some(EPIPE)
        else if f == 4 && !w.Connected(p) then Some(ENODEV) else None
      case SetPortOverCurrent(p, on) =>
        if w.hub.overCurrentMode == PerPort && 0 < p <= |w.hub.ports| then None else Some(EINVAL)
      case _ => None
  {
    hide Inv, World.Connected, World.ResetPort, World.CreateAndTell, World.Destroy, World.Unplug, World.Signal, World.PowerEach;
    match op
    case CreateDevice(caps, memory, inserted, copied) => CreateAndTellFollows(w, caps, memory, inserted, copied);
    case DestroyDevice(d, force) => DestroyIs(w, d, force);
    case SetPortFeature(p, f) => ResetIs(w, p);
    case _ =>
  }
}
