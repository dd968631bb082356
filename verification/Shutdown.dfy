/** virtusb_device_shutdown_all: forced destruction, device by device, until none is registered. */
module Shutdown {
  import opened Wrappers
  import opened Topology
  import opened Agreement
  import opened Histories

  /** The registered device with the lowest id from d on; w.next if there is none. */
  function FirstFrom(w: World, d: nat): (r: nat)
    ensures d <= w.next ==> d <= r <= w.next
    ensures r < w.next ==> w.Found(r)
    ensures forall k: nat :: d <= k < r && k < w.next ==> !w.Found(k)
    decreases w.next - d
  {
    if d >= w.next then w.next else if w.Found(d) then d else FirstFrom(w, d + 1)
  }

  function Registered(w: World): set<nat> {
    set d | d in w.devices && w.devices[d].registered
  }

  /** What rounds of the shutdown keep: no device appears, and no port becomes connected. */
  ghost predicate Winding(w: World, v: World) {
    && Good(w, v) && v.next == w.next && Registered(v) <= Registered(w)
    && (forall p: nat :: v.Connected(p) ==> w.Connected(p))
  }

  lemma UnplugDisconnects(w: World, d: nat)
    requires Inv(w) && d in w.devices
    ensures forall p: nat :: w.Unplug(d).Connected(p) ==> w.Connected(p)
    ensures Registered(w.Unplug(d)) == Registered(w)
  {
    if w.devices[d].port.Some? {
      UnlinkTouches(w, d, w.devices[d].port.value);
    }
  }

  lemma SilenceDisconnects(w: World, d: nat)
    requires Inv(w) && d in w.devices
    ensures forall p: nat :: w.Signal(d, false).Connected(p) ==> w.Connected(p)
    ensures Registered(w.Signal(d, false)) == Registered(w)
  {
    if w.devices[d].port.Some? {
      SignalTouches(w, d, w.devices[d].port.value, false);
    } else {
      LooseDevice(w, d, w.devices[d].(signaling := false));
    }
  }

  lemma UnregisterDisconnects(w: World, d: nat)
    requires Inv(w) && w.Found(d) && w.devices[d].port == None
    ensures forall p: nat :: w.Unregister(d).world.Connected(p) ==> w.Connected(p)
    ensures Registered(w.Unregister(d).world) == Registered(w) - {d}
  {
    LooseDevice(w, d, w.devices[d].(registered := false));
  }

  /** One round: destroying a registered device by force cannot fail, and takes exactly it away. */
  lemma RoundWinds(w: World, d: nat)
    requires Inv(w) && w.Found(d)
    ensures w.DestroyDevice(d, true).error == None
    ensures Winding(w, w.DestroyDevice(d, true).world)
    ensures Registered(w.DestroyDevice(d, true).world) == Registered(w) - {d}
  {
    DestroyGood(w, d, true);
    hide Inv, Marks;
    if w.devices[d].port == None {
      UnregisterDisconnects(w, d);
    } else {
      SilenceDisconnects(w, d);
      SignalGood(w, d, false);
      var s := w.Signal(d, false);
      UnplugDisconnects(s, d);
      UnplugGood(s, d);
      UnregisterDisconnects(s.Unplug(d), d);
    }
  }

  /** The loop; it ends because each round unregisters one device. */
  ghost function ShutdownAll(w: World): World
    requires Inv(w)
    decreases |Registered(w)|
  {
    var d := FirstFrom(w, 0);
    if d == w.next then w
    else
      RoundWinds(w, d);
      assert d in Registered(w);
      ShutdownAll(w.DestroyDevice(d, true).world)
  }

  /** One round brings the loop one device nearer to its end; without one, it has ended. */
  lemma ShutdownStep(w: World)
    requires Inv(w)
    ensures var d := FirstFrom(w, 0);
      if d == w.next then ShutdownAll(w) == w && Registered(w) == {}
      else
        var u := w.DestroyDevice(d, true).world;
        d in Registered(w) && Inv(u) && |Registered(u)| < |Registered(w)| && ShutdownAll(w) == ShutdownAll(u)
  {
    var d := FirstFrom(w, 0);
    if d == w.next {
      assert forall k: nat :: k in w.devices ==> !w.Found(k);
    } else {
      RoundWinds(w, d);
      assert d in Registered(w);
    }
  }

  /** virtusb_device_shutdown_all. */
  method ShutdownLoop(w: World) returns (v: World)
    requires Inv(w)
    ensures v == ShutdownAll(w)
  {
    v := w;
    var d := FirstFrom(v, 0);
    while d != v.next
      invariant Inv(v) && d == FirstFrom(v, 0) && ShutdownAll(v) == ShutdownAll(w)
      decreases |Registered(v)|
    {
      ShutdownStep(v);
      v := v.DestroyDevice(d, true).world;
      d := FirstFrom(v, 0);
    }
  }

  lemma {:induction false} ShutdownWinds(w: World)
    requires Inv(w)
    ensures Winding(w, ShutdownAll(w)) && Registered(ShutdownAll(w)) == {}
    decreases |Registered(w)|
  {
    var d := FirstFrom(w, 0);
    if d == w.next {
      MarksNone(w, w);
      assert forall k: nat :: k in w.devices ==> !w.Found(k);
    } else {
      var u := w.DestroyDevice(d, true).world;
      RoundWinds(w, d);
      assert d in Registered(w);
      ShutdownWinds(u);
      var v := ShutdownAll(u);
      assert Toggled(w, u) !! Toggled(u, v) by {
        assert forall p: nat :: p in Toggled(w, u) ==> !u.Connected(p);
        assert forall p: nat :: p in Toggled(u, v) ==> u.Connected(p);
      }
      hide Inv, Marks, Toggled;
      GoodCompose(w, u, v);
    }
  }

  /** From any reachable state a shutdown ends with no device registered, nothing
      attached and nothing connected, and every port that was connected is marked. */
  lemma ShutdownIsComplete(w: World)
    requires Reachable(w)
    ensures Inv(w)
    ensures var v := ShutdownAll(w);
      && (forall i :: 0 <= i < |v.hub.ports| ==> v.hub.ports[i].peer == None)
      && (forall p: nat :: !v.Connected(p))
      && (forall d: nat :: d in v.devices ==> !v.devices[d].registered && v.devices[d].port == None)
      && (forall p: nat :: w.Connected(p) ==> p in v.hub.cConnected)
      && Marks(w, v)
  {
    ReachableInv(w);
    ShutdownWinds(w);
    var v := ShutdownAll(w);
    assert forall d: nat :: d in v.devices ==> d !in Registered(v);
    assert forall i :: 0 <= i < |v.hub.ports| ==> v.Peer(i + 1) == v.hub.ports[i].peer;
    forall p: nat | w.Connected(p) ensures p in v.hub.cConnected {
      assert p in Toggled(w, v);
    }
  }
}
