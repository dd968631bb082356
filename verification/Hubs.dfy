/** virtusb_hub.c, virtusb_port.c and the port requests of virtusb_hcd.c in
    place: ports linked by reference, 32-bit registers and a packed speed array
    updated bit by bit. The value `w` says what they stand for; every method
    turns it into what the operation of the same name makes of it. */
module Hubs {
  import opened Wrappers
  import opened Topology
  import opened Agreement
  import Shutdown
  import Bits

  /** enum virtusb_port_speed. */
  function Code(s: Speed): bv32 {
    match s case NoSpeed => 0 case Low => 1 case Full => 2 case High => 3
  }

  const SPEED_BITS: nat := 2

  lemma CodeFits(s: Speed, t: Speed)
    ensures Bits.And(Code(s), Bits.Mask(SPEED_BITS)) == Code(s)
    ensures Code(s) == Code(t) ==> s == t
  {
    Bits.LowBits();
    hide Bits.Up;
  }

  lemma WordsFit(words: seq<bv32>)
    requires |words| == 2
    ensures Bits.Holds(words, SPEED_BITS)
  {
  }

  /** The packed words hold these speeds. */
  ghost predicate Packs(words: seq<bv32>, speeds: map<nat, Speed>) {
    Bits.Holds(words, SPEED_BITS) && forall p: nat :: p < Bits.POSITIONS ==> SpeedAt(words, p) == Code(SpeedIn(speeds, p))
  }

  function SpeedAt(words: seq<bv32>, p: nat): bv32
    requires Bits.Holds(words, SPEED_BITS) && p < Bits.POSITIONS
  {
    Bits.Get(words, SPEED_BITS, p)
  }

  function WithSpeed(words: seq<bv32>, p: nat, s: Speed): seq<bv32>
    requires Bits.Holds(words, SPEED_BITS) && p < Bits.POSITIONS
  {
    Bits.Put(words, SPEED_BITS, p, Code(s))
  }

  /** The read-modify-write of the one word that holds port p's field. */
  method StoreSpeed(words: array<bv32>, p: nat, s: Speed)
    requires words.Length == 2 && p < Bits.POSITIONS
    modifies words
    ensures Bits.Holds(words[..], SPEED_BITS) && Bits.Holds(old(words[..]), SPEED_BITS)
    ensures words[..] == WithSpeed(old(words[..]), p, s)
  {
    WordsFit(words[..]);
    Bits.Places(p, SPEED_BITS);
    hide Bits.Mask, Bits.Shift, Bits.WordIndex, Bits.PutWord, Code, Bits.Holds;
    var i := Bits.WordIndex(p, SPEED_BITS);
    words[i] := Bits.PutWord(words[i], Bits.Mask(SPEED_BITS), Bits.Shift(p, SPEED_BITS), Code(s));
    WordsFit(words[..]);
    assert words[..] == old(words[..])[i := words[i]];
  }

  /** Writing one port's speed leaves every other port's speed alone. */
  lemma SpeedWritten(words: seq<bv32>, p: nat, s: Speed, k: nat)
    requires Bits.Holds(words, SPEED_BITS) && p < Bits.POSITIONS && k < Bits.POSITIONS
    ensures Bits.Holds(WithSpeed(words, p, s), SPEED_BITS)
    ensures SpeedAt(WithSpeed(words, p, s), k) == if k == p then Code(s) else SpeedAt(words, k)
  {
    CodeFits(s, s);
    hide Bits.Get, Bits.Put, Bits.Mask, Bits.And, Code;
    Bits.ReadAfterWrite(words, SPEED_BITS, p, Code(s), k);
  }

  // ---- ports -------------------------------------------------------------------

  datatype Role = Upstream | Downstream

  /** struct virtusb_port; `owner` is the device's id for an upstream port. */
  class Port {
    const role: Role
    const owner: nat
    const caps: bv8
    var peer: Port?
    var signaling: bool
    var powered: bool
    var overCurrent: bool

    /** virtusb_port_init. */
    constructor (role: Role, caps: bv8, owner: nat)
      ensures this.role == role && this.caps == caps && this.owner == owner
      ensures peer == null && !signaling && !powered && !overCurrent
    {
      this.role, this.caps, this.owner := role, caps, owner;
      peer, signaling, powered, overCurrent := null, false, false, false;
    }
  }

  /** virtusb_port_attach: reciprocal peers, or nothing. */
  method AttachPorts(down: Port, up: Port) returns (error: Option<Errno>)
    modifies down`peer, up`peer
    ensures error ==
      if down.role != Downstream || up.role != Upstream then Some(EINVAL)
      else if old(down.peer) != null || old(up.peer) != null then Some(EBUSY) else None
    ensures error == None ==> down.peer == up && up.peer == down
    ensures error != None ==> down.peer == old(down.peer) && up.peer == old(up.peer)
  {
    if down.role != Downstream || up.role != Upstream {
      return Some(EINVAL);
    }
    if down.peer != null || up.peer != null {
      return Some(EBUSY);
    }
    down.peer := up;
    up.peer := down;
    return None;
  }

  /** virtusb_port_detach. */
  method DetachPort(port: Port)
    modifies port`peer, if port.peer == null then {} else {port.peer}
    ensures port.peer == null
    ensures old(port.peer) != null && old(port.peer.peer) == port ==> old(port.peer).peer == null
    ensures old(port.peer) != null ==>
      && old(port.peer).powered == old(port.peer.powered) && old(port.peer).signaling == old(port.peer.signaling)
      && old(port.peer).overCurrent == old(port.peer.overCurrent)
  {
    if port.peer == null {
      return;
    }
    var peer := port.peer;
    port.peer := null;
    if peer.peer == port {
      peer.peer := null;
    }
  }

  /** Attaching links two free ports, and both ends show it. */
  method PlugIn(ports: seq<Port>, ghost upstreams: map<nat, Port>, device: Port, p: nat, ghost v: Topology.Port, ghost dv: Device)
    returns (error: Option<Errno>)
    requires 0 < p <= |ports| && device.owner in upstreams && upstreams[device.owner] == device && ports[p - 1] != device
    requires PortShows(ports[p - 1], v, upstreams) && DeviceShows(device, device.owner, dv, ports)
    modifies ports[p - 1], device
    ensures error == if v.peer.Some? || dv.port.Some? then Some(EBUSY) else None
    ensures PortShows(ports[p - 1], if error == None then v.(peer := Some(device.owner)) else v, upstreams)
    ensures DeviceShows(device, device.owner, if error == None then dv.(port := Some(p)) else dv, ports)
  {
    error := AttachPorts(ports[p - 1], device);
  }

  /** Detaching a device's port frees both ends. */
  method PlugOut(ports: seq<Port>, ghost upstreams: map<nat, Port>, device: Port, p: nat, ghost v: Topology.Port, ghost dv: Device)
    requires 0 < p <= |ports| && device.owner in upstreams && upstreams[device.owner] == device && ports[p - 1] != device
    requires PortShows(ports[p - 1], v, upstreams) && DeviceShows(device, device.owner, dv, ports)
    requires v.peer == Some(device.owner) && dv.port == Some(p)
    modifies ports[p - 1], device
    ensures PortShows(ports[p - 1], v.(peer := None), upstreams)
    ensures DeviceShows(device, device.owner, dv.(port := None), ports)
  {
    DetachPort(device);
  }

  /** One more loose device leaves the others' wires as they are. */
  lemma WiredMore(ports: seq<Port>, upstreams: map<nat, Port>, vs: seq<Topology.Port>, devices: map<nat, Device>, x: Port)
    requires Wired(ports, upstreams, vs, devices) && x.owner !in devices
    requires x.role == Upstream && x.peer == null && !x.signaling
    ensures Wired(ports, upstreams[x.owner := x], vs, devices[x.owner := Topology.Device.Device(x.caps, false, None, true)])
  {
    var more := upstreams[x.owner := x];
    assert forall d :: d in upstreams ==> more[d] == upstreams[d];
    forall i | 0 <= i < |ports| ensures PortShows(ports[i], vs[i], more) {
      assert PortShows(ports[i], vs[i], upstreams);
    }
  }

  /** The same devices are registered, and the next one gets the same id. */
  ghost predicate SameRegistry(w: World, v: World) {
    v.next == w.next && Shutdown.Registered(v) == Shutdown.Registered(w)
  }

  /** A registry of ports and a next id hold w's registered devices. */
  ghost predicate Publishes(objects: map<nat, Port>, next: nat, upstreams: map<nat, Port>, w: World) {
    && next == w.next && objects.Keys == Shutdown.Registered(w)
    && (forall d :: d in objects ==> d in upstreams && objects[d] == upstreams[d])
  }

  lemma StillPublishes(objects: map<nat, Port>, next: nat, upstreams: map<nat, Port>, w: World, v: World)
    requires SameRegistry(w, v)
    ensures Publishes(objects, next, upstreams, w) ==> Publishes(objects, next, upstreams, v)
  {
  }

  lemma {:induction false} PowerEachRegistry(w: World, p: nat, on: bool)
    requires 0 < p
    ensures w.PowerEach(p, on).devices == w.devices && w.PowerEach(p, on).next == w.next
    decreases |w.hub.ports| + 1 - p
  {
    hide World.Connected;
    if p <= |w.hub.ports| {
      var u := w.PowerOne(p, on);
      assert |u.hub.ports| == |w.hub.ports| && u.devices == w.devices && u.next == w.next;
      hide World.PowerOne;
      PowerEachRegistry(u, p + 1, on);
    }
  }

  lemma PowerRegistry(w: World, p: nat, on: bool)
    ensures SameRegistry(w, w.SetPortPower(p, on).world)
  {
    hide World.Connected, World.PowerEach;
    PowerEachRegistry(w, 1, on);
  }

  lemma ClearRegistry(w: World, p: nat, feature: nat)
    ensures SameRegistry(w, w.ClearFeature(p, feature).world)
  {
    hide World.SetPortPower;
    PowerRegistry(w, p, false);
  }

  lemma ResetRegistry(w: World, p: nat)
    ensures SameRegistry(w, w.ResetPort(p).world)
  {
    hide World.ResetPort;
    ResetStores(w, p);
  }

  lemma ResetHubRegistry(w: World)
    ensures SameRegistry(w, w.ResetHub())
  {
  }

  lemma SetRegistry(w: World, p: nat, feature: nat)
    ensures SameRegistry(w, w.SetFeature(p, feature).world)
  {
    hide World.SetPortPower, World.ResetPort;
    PowerRegistry(w, p, true);
    ResetRegistry(w, p);
  }

  lemma UnplugRegistry(w: World, d: nat)
    requires d in w.devices
    ensures SameRegistry(w, w.Unplug(d))
  {
    hide World.Connected;
  }

  lemma SignalRegistry(w: World, d: nat, on: bool)
    requires d in w.devices
    ensures SameRegistry(w, w.Signal(d, on))
  {
    hide World.Connected;
  }

  lemma AttachRegistry(w: World, d: nat, p: nat)
    ensures SameRegistry(w, w.Attach(d, p).world)
  {
    hide World.Connected;
  }

  /** Whether a device is registered is not in its wires. */
  lemma WiredSame(ports: seq<Port>, upstreams: map<nat, Port>, vs: seq<Topology.Port>, devices: map<nat, Device>, d: nat, v: Device)
    requires Wired(ports, upstreams, vs, devices) && d in devices
    requires v == devices[d].(registered := v.registered)
    ensures Wired(ports, upstreams, vs, devices[d := v])
  {
  }

  lemma RegisteredMore(w: World, device: Device)
    requires Numbered(w) && device.registered
    ensures w.next !in w.devices
    ensures Shutdown.Registered(w.(devices := w.devices[w.next := device], next := w.next + 1)) == Shutdown.Registered(w) + {w.next}
  {
  }

  /** Silencing and detaching a device registers and unregisters nothing. */
  lemma RemovedSame(w: World, d: nat)
    requires Inv(w) && d in w.devices
    ensures var s := w.Signal(d, false);
      && d in s.devices && Matching(s) && s.next == w.next && Shutdown.Registered(s) == Shutdown.Registered(w)
      && s.Unplug(d).next == w.next && Shutdown.Registered(s.Unplug(d)) == Shutdown.Registered(w)
  {
    hide World.Signal, World.Unplug, Marks, Toggled;
    SignalGood(w, d, false);
    Shutdown.SilenceDisconnects(w, d);
    UnplugGood(w.Signal(d, false), d);
    Shutdown.UnplugDisconnects(w.Signal(d, false), d);
  }

  lemma RegisteredLess(w: World, d: nat)
    requires d in w.devices
    ensures Shutdown.Registered(w.WithDevice(d, w.devices[d].(registered := false))) == Shutdown.Registered(w) - {d}
  {
  }

  method MakePorts(count: nat) returns (ports: seq<Port>)
    ensures |ports| == count && fresh(ports)
    ensures forall i, j :: 0 <= i < j < count ==> ports[i] != ports[j]
    ensures forall i :: 0 <= i < count ==>
      PortShows(ports[i], Topology.Port.Port(false, false, None), map[]) && ports[i].role == Downstream && ports[i].caps == 7
  {
    ports := [];
    for k := 0 to count
      invariant |ports| == k && fresh(ports)
      invariant forall i, j :: 0 <= i < j < k ==> ports[i] != ports[j]
      invariant forall i :: 0 <= i < k ==> PortShows(ports[i], Topology.Port.Port(false, false, None), map[])
    {
      var port := new Port(Downstream, CAP_ALL, 0);
      ports := ports + [port];
    }
  }

  lemma QuietedSame(w: World, p: nat)
    ensures w.Quieted(p).hub.ports == w.hub.ports && w.Quieted(p).devices == w.devices
    ensures var h := w.Quieted(p).hub;
      && h.power == w.hub.power && h.overCurrentMode == w.hub.overCurrentMode && h.overCurrent == w.hub.overCurrent
      && h.listening == w.hub.listening && h.emitted == w.hub.emitted
  {
  }

  lemma SameLink(w: World, v: World, p: nat)
    requires v.hub.ports == w.hub.ports && v.devices == w.devices
    ensures v.Connected(p) == w.Connected(p)
  {
  }

  lemma NotedSame(w: World, p: nat)
    ensures w.Noted(p).hub.ports == w.hub.ports && w.Noted(p).devices == w.devices
  {
  }

  lemma SettledKnows(w: World, was: bool, p: nat)
    ensures w.Settled(was, p).devices == w.devices && w.Settled(was, p).hub.ports == w.hub.ports
  {
  }

  lemma MarkKnows(w: World, p: nat)
    ensures w.Mark(p).devices == w.devices && w.Mark(p).hub.ports == w.hub.ports
  {
  }

  lemma ClearKnows(w: World, p: nat, feature: nat)
    requires w.PortValid(p) && feature != POWER
    ensures var r := w.ClearFeature(p, feature);
      && r.world.devices == w.devices && r.world.hub.ports == w.hub.ports && r.world.hub.power == w.hub.power
      && r.world.hub.overCurrentMode == w.hub.overCurrentMode && r.world.hub.overCurrent == w.hub.overCurrent
      && r.world.hub.listening == w.hub.listening && r.world.hub.emitted == w.hub.emitted
      && (if feature in {ENABLE, SUSPEND, C_CONNECTION, C_ENABLE, C_SUSPEND, C_OVER_CURRENT, C_RESET}
          then r.error == None else r == w.Fail(EPIPE))
  {
    hide World.SetPortPower;
  }

  lemma RestartSteps(u: World, v: World, p: nat, s: Speed)
    requires v == u.(hub := u.hub.(enabled := u.hub.enabled - {p} + {p}, suspended := u.hub.suspended - {p},
                                   reset := u.hub.reset + {p} - {p}, speed := u.hub.speed[p := s]))
    ensures v == u.Restarted(p, s)
  {
    assert u.hub.enabled - {p} + {p} == u.hub.enabled + {p};
    assert u.hub.reset + {p} - {p} == u.hub.reset - {p};
  }

  lemma ZeroPacks(words: seq<bv32>)
    requires |words| == 2 && words[0] == 0 && words[1] == 0
    ensures Packs(words, map[])
  {
    WordsFit(words);
    forall p: nat | p < Bits.POSITIONS ensures SpeedAt(words, p) == 0 {
      hide Bits.Get;
      Bits.ReadZero(words, SPEED_BITS, p);
    }
  }

  // ---- the hub -------------------------------------------------------------------

  /** A downstream port shows its entry. */
  ghost predicate PortShows(x: Port, v: Topology.Port, upstreams: map<nat, Port>)
    reads x
  {
    && x.role == Downstream && x.caps == CAP_ALL && x.powered == v.powered && x.overCurrent == v.overCurrent
    && (v.peer == None <==> x.peer == null)
    && (v.peer.Some? ==> v.peer.value in upstreams && x.peer == upstreams[v.peer.value])
  }

  /** A device's upstream port shows its entry. */
  ghost predicate DeviceShows(x: Port, d: nat, v: Device, ports: seq<Port>)
    reads x
  {
    && x.role == Upstream && x.owner == d && x.caps == v.caps && x.signaling == v.signaling
    && (v.port == None <==> x.peer == null)
    && (v.port.Some? ==> 0 < v.port.value <= |ports| && x.peer == ports[v.port.value - 1])
  }

  ghost predicate Wired(ports: seq<Port>, upstreams: map<nat, Port>, vs: seq<Topology.Port>, devices: map<nat, Device>)
    reads ports, upstreams.Values
  {
    && 0 < |ports| == |vs| <= MAX_PORTS && upstreams.Keys == devices.Keys
    && (forall i, j :: 0 <= i < j < |ports| ==> ports[i] != ports[j])
    && (forall i :: 0 <= i < |ports| ==> PortShows(ports[i], vs[i], upstreams))
    && (forall d :: d in upstreams ==> DeviceShows(upstreams[d], d, devices[d], ports))
  }

  class Hub {
    const ports: seq<Port>
    var power: PowerMode
    var overCurrentMode: OverCurrentMode
    var overCurrent: bool
    var enabled: bv32
    var suspended: bv32
    var reset: bv32
    const speed: array<bv32>
    var cConnected: bv32
    var cEnabled: bv32
    var cSuspended: bv32
    var cReset: bv32
    var cOverCurrent: bv32
    var listening: bool
    var emitted: nat                     // calls of the status_changed callback
    var objects: map<nat, Port>          // the registered devices, by id
    var next: nat                        // the id of the next one
    ghost var upstreams: map<nat, Port>  // the ports of the devices, by id
    ghost var w: World

    /** The registers hold w's sets and speeds. */
    ghost predicate Registers()
      reads this, speed
    {
      && speed.Length == 2 && Packs(speed[..], w.hub.speed)
      && w.hub.enabled == Bits.Ports(enabled) && w.hub.suspended == Bits.Ports(suspended) && w.hub.reset == Bits.Ports(reset)
      && w.hub.cConnected == Bits.Ports(cConnected) && w.hub.cEnabled == Bits.Ports(cEnabled)
      && w.hub.cSuspended == Bits.Ports(cSuspended) && w.hub.cReset == Bits.Ports(cReset)
      && w.hub.cOverCurrent == Bits.Ports(cOverCurrent)
    }

    ghost predicate Fields()
      reads this
    {
      && w.hub.power == power && w.hub.overCurrentMode == overCurrentMode && w.hub.overCurrent == overCurrent
      && w.hub.listening == listening && w.hub.emitted == emitted
    }

    /** The ports and the devices' ports are linked as w says. */
    ghost predicate Wires()
      reads this, ports, upstreams.Values
    {
      Wired(ports, upstreams, w.hub.ports, w.devices)
    }

    ghost predicate Shows()
      reads this, speed, ports, upstreams.Values
    {
      Registers() && Fields() && Wires()
    }

    /** The registry holds the registered devices. */
    ghost predicate Published()
      reads this
    {
      Publishes(objects, next, upstreams, w)
    }

    /** virtusb_hub_init. */
    constructor (count: nat, listening: bool)
      requires 0 < count <= MAX_PORTS
      ensures Shows() && Published() && w == Boot(count, listening) && upstreams == map[] && fresh(ports) && fresh(speed)
      ensures |ports| == count && forall i :: 0 <= i < count ==>
        ports[i].role == Downstream && ports[i].caps == 7 && ports[i].peer == null && !ports[i].powered && !ports[i].overCurrent
      ensures power == Individual && overCurrentMode == PerPort && !overCurrent && objects == map[] && next == 1
      ensures enabled == suspended == reset == cConnected == cEnabled == cSuspended == cReset == cOverCurrent == 0
      ensures this.listening == listening && emitted == 0 && speed[..] == [0, 0]
    {
      var made := MakePorts(count);
      ports := made;
      power, overCurrentMode, overCurrent := Individual, PerPort, false;
      enabled, suspended, reset := 0, 0, 0;
      speed := new bv32[2](_ => 0);
      cConnected, cEnabled, cSuspended, cReset, cOverCurrent := 0, 0, 0, 0, 0;
      this.listening, emitted, objects, next := listening, 0, map[], 1;
      upstreams, w := map[], Boot(count, listening);
      new;
      Bits.PortsNone();
      ZeroPacks(speed[..]);
    }

    lemma FewPorts()
      requires Wires()
      ensures |ports| == |w.hub.ports| <= MAX_PORTS && MAX_PORTS < Bits.POSITIONS
    {
    }

    // ---- queries ---------------------------------------------------------------------

    /** virtusb_hub_port_is_connected. */
    method IsConnected(p: nat) returns (r: bool)
      requires Wires()
      ensures r == w.Connected(p)
    {
      if !(0 < p <= |ports|) {
        return false;
      }
      var downstream := ports[p - 1];
      assert PortShows(downstream, w.hub.ports[p - 1], upstreams);
      if downstream.peer == null || downstream.peer.role != Upstream {
        return false;
      }
      assert DeviceShows(downstream.peer, w.hub.ports[p - 1].peer.value, w.devices[w.hub.ports[p - 1].peer.value], ports);
      return downstream.powered && downstream.peer.signaling;
    }

    /** virtusb_hub_port_is_powered. */
    method IsPowered(p: nat) returns (r: bool)
      requires Wires()
      ensures r == w.Powered(p)
    {
      if !(0 < p <= |ports|) {
        return false;
      }
      assert PortShows(ports[p - 1], w.hub.ports[p - 1], upstreams);
      return ports[p - 1].powered;
    }

    /** virtusb_hub_port_is_over_current. */
    method IsOverCurrent(p: nat) returns (r: bool)
      requires Wires() && Fields()
      ensures r == w.PortOverCurrent(p)
    {
      if overCurrentMode != PerPort || !(0 < p <= |ports|) {
        return false;
      }
      assert PortShows(ports[p - 1], w.hub.ports[p - 1], upstreams);
      return ports[p - 1].overCurrent;
    }

    /** virtusb_hub_determine_port_speed. */
    method DetermineSpeed(p: nat) returns (s: Speed)
      requires Wires()
      ensures s == w.CommonSpeed(p)
    {
      if !(0 < p <= |ports|) {
        return NoSpeed;
      }
      var downstream := ports[p - 1];
      assert PortShows(downstream, w.hub.ports[p - 1], upstreams);
      if downstream.peer == null || downstream.peer.role != Upstream {
        return NoSpeed;
      }
      assert DeviceShows(downstream.peer, w.hub.ports[p - 1].peer.value, w.devices[w.hub.ports[p - 1].peer.value], ports);
      var caps := downstream.caps & downstream.peer.caps;
      if caps & CAP_HIGH != 0 {
        return High;
      }
      if caps & CAP_FULL != 0 {
        return Full;
      }
      if caps & CAP_LOW != 0 {
        return Low;
      }
      return NoSpeed;
    }

    /** virtusb_hub_get_port_speed. */
    method GetSpeed(p: nat) returns (code: bv32)
      requires Registers() && Wires()
      ensures code == if w.PortValid(p) then Code(w.SpeedOf(p)) else Code(NoSpeed)
    {
      if !(0 < p <= |ports|) {
        return Code(NoSpeed);
      }
      return SpeedAt(speed[..], p);
    }

    /** virtusb_hub_find_port_number. */
    method FindPortNumber(port: Port) returns (r: Result<nat>)
      ensures port in ports ==> r.Success? && 0 < r.value <= |ports| && ports[r.value - 1] == port
      ensures port !in ports ==> r == Failure(ENOENT)
    {
      var index := 0;
      while index < |ports|
        invariant index <= |ports| && port !in ports[..index]
      {
        if ports[index] == port {
          return Success(index + 1);
        }
        index := index + 1;
      }
      return Failure(ENOENT);
    }

    // ---- change bits -------------------------------------------------------------------

    /** virtusb_hub_set_port_speed. */
    method SetSpeed(p: nat, s: Speed)
      requires Registers() && p < Bits.POSITIONS
      modifies this`w, speed
      ensures Registers() && w == old(w).(hub := old(w).hub.(speed := old(w).hub.speed[p := s]))
    {
      ghost var before := speed[..];
      StoreSpeed(speed, p, s);
      w := w.(hub := w.hub.(speed := w.hub.speed[p := s]));
      hide WithSpeed, SpeedAt, Code;
      forall k: nat | k < Bits.POSITIONS ensures Bits.Holds(speed[..], SPEED_BITS) && SpeedAt(speed[..], k) == Code(SpeedIn(w.hub.speed, k)) {
        SpeedWritten(before, p, s, k);
      }
    }

    /** The bits of a port that is gone. */
    method Quiet(p: nat)
      requires Registers() && p < Bits.POSITIONS
      modifies this`enabled, this`suspended, this`reset, this`w, speed
      ensures Registers()
      ensures w == old(w).Quieted(p)
    {
      Bits.PortsSetClear(enabled, p);
      Bits.PortsSetClear(suspended, p);
      Bits.PortsSetClear(reset, p);
      hide Bits.Ports, Bits.Clear, SpeedAt;
      SetSpeed(p, NoSpeed);
      enabled := Bits.Clear(enabled, p);
      suspended := Bits.Clear(suspended, p);
      reset := Bits.Clear(reset, p);
      w := w.(hub := w.hub.(enabled := w.hub.enabled - {p}, suspended := w.hub.suspended - {p}, reset := w.hub.reset - {p}));
    }

    /** virtusb_hub_mark_port_connection_change. */
    method Mark(p: nat)
      requires Shows()
      modifies this`enabled, this`suspended, this`reset, this`cConnected, this`emitted, this`w, speed
      ensures Shows() && w == old(w).Mark(p)
    {
      if !(0 < p <= |ports|) {
        return;
      }
      var connected := IsConnected(p);
      MarkAs(p, connected);
    }

    /** Marking a valid port that is now connected, or not. */
    method MarkAs(p: nat, connected: bool)
      requires Shows() && w.PortValid(p) && connected == w.Connected(p)
      modifies this`enabled, this`suspended, this`reset, this`cConnected, this`emitted, this`w, speed
      ensures Shows() && w == old(w).Mark(p)
    {
      hide Packs, Bits.Ports, Wired, World.Connected, World.Quieted, World.Noted;
      FewPorts();
      if !connected {
        QuietedSame(w, p);
        Quiet(p);
      }
      NotedSame(w, p);
      SameLink(old(w), w, p);
      NoteConnection(p);
    }

    /** Set the connection change bit, and tell if it was not set. */
    method NoteConnection(p: nat)
      requires Registers() && Fields() && p < Bits.POSITIONS
      modifies this`cConnected, this`emitted, this`w
      ensures Registers() && Fields()
      ensures w == old(w).Noted(p)
    {
      Bits.PortsSetClear(cConnected, p);
      Bits.PortsTest(cConnected, p);
      hide Packs, Bits.Ports, Bits.Set, Bits.Test;
      if Bits.Test(cConnected, p) {
        return;
      }
      cConnected := Bits.Set(cConnected, p);
      w := w.(hub := w.hub.(cConnected := w.hub.cConnected + {p}, emitted := w.hub.emitted + if listening then 1 else 0));
      Notify();
    }

    /** virtusb_hub_notify_status_changed. */
    method Notify()
      modifies this`emitted
      ensures emitted == old(emitted) + if listening then 1 else 0
    {
      if listening {
        emitted := emitted + 1;
      }
    }

    /** Compare port p's connection with what it was, and mark a change. */
    method Settle(was: bool, p: nat)
      requires Shows()
      modifies this`enabled, this`suspended, this`reset, this`cConnected, this`emitted, this`w, speed
      ensures Shows() && w == old(w).Settled(was, p)
    {
      var connected := IsConnected(p);
      hide Wired, Packs, World.Mark, World.Connected;
      if was != connected {
        Mark(p);
      }
    }

    // ---- power --------------------------------------------------------------------------

    /** virtusb_port_set_powered, on one of the hub's ports. */
    method SetPowered(p: nat, on: bool)
      requires Shows() && w.PortValid(p)
      modifies this`w, ports
      ensures Shows() && w == old(w).WithPort(p, old(w).hub.ports[p - 1].(powered := on))
    {
      hide Packs, Bits.Ports, Wired;
      Energize(p, on);
      w := w.WithPort(p, w.hub.ports[p - 1].(powered := on));
    }

    method Energize(p: nat, on: bool)
      requires Wires() && w.PortValid(p)
      modifies ports
      ensures Wired(ports, upstreams, w.hub.ports[p - 1 := w.hub.ports[p - 1].(powered := on)], w.devices)
    {
      DownstreamApart(p);
      assert PortShows(ports[p - 1], w.hub.ports[p - 1], upstreams);
      ports[p - 1].powered := on;
      assert PortShows(ports[p - 1], w.hub.ports[p - 1].(powered := on), upstreams);
      hide PortShows, DeviceShows;
    }

    lemma DownstreamApart(p: nat)
      requires Wires() && w.PortValid(p)
      ensures forall d :: d in upstreams ==> upstreams[d] != ports[p - 1]
    {
      assert PortShows(ports[p - 1], w.hub.ports[p - 1], upstreams);
      forall d | d in upstreams ensures upstreams[d] != ports[p - 1] {
        assert DeviceShows(upstreams[d], d, w.devices[d], ports);
      }
    }

    /** One round of a power request. */
    method PowerPort(p: nat, on: bool)
      requires Shows() && w.PortValid(p)
      modifies this`enabled, this`suspended, this`reset, this`cConnected, this`emitted, this`w, speed, ports
      ensures Shows() && w == old(w).PowerOne(p, on)
    {
      var was := IsConnected(p);
      hide Wired, Packs, World.Connected, World.Settled;
      SetPowered(p, on);
      Settle(was, p);
    }

    /** virtusb_hub_set_all_ports_power. */
    method SetAllPortsPower(on: bool)
      requires Shows()
      modifies this`enabled, this`suspended, this`reset, this`cConnected, this`emitted, this`w, speed, ports
      ensures Shows() && w == old(w).PowerEach(1, on)
    {
      assert |ports| == |w.hub.ports|;
      hide Wired, Packs, World.PowerOne, Bits.Ports;
      var p := 1;
      while p <= |ports|
        invariant 1 <= p <= |ports| + 1 && Shows()
        invariant |ports| == |w.hub.ports| && w.PowerEach(p, on) == old(w).PowerEach(1, on)
      {
        PowerPort(p, on);
        p := p + 1;
      }
    }

    /** virtusb_hub_set_port_power. */
    method SetPortPower(p: nat, on: bool) returns (error: Option<Errno>)
      requires Shows()
      modifies this`enabled, this`suspended, this`reset, this`cConnected, this`emitted, this`w, speed, ports
      ensures Shows() && Outcome(w, error) == old(w).SetPortPower(p, on)
      ensures old(Published()) ==> Published()
    {
      hide Publishes, SameRegistry;
      PowerRegistry(w, p, on);
      StillPublishes(objects, next, upstreams, w, w.SetPortPower(p, on).world);
      if !(0 < p <= |ports|) {
        return Some(EINVAL);
      }
      hide Packs, World.PowerOne, World.PowerEach, Bits.Ports;
      if power == Ganged {
        SetAllPortsPower(on);
      } else {
        PowerPort(p, on);
      }
      return None;
    }

    // ---- reset and features ----------------------------------------------------------------

    /** virtusb_hub_reset_port. */
    method ResetPort(p: nat) returns (error: Option<Errno>)
      requires Shows()
      modifies this`enabled, this`suspended, this`reset, this`cReset, this`emitted, this`w, speed
      ensures Shows() && Outcome(w, error) == old(w).ResetPort(p)
      ensures old(Published()) ==> Published()
    {
      hide Publishes, SameRegistry, Wired, Packs, Bits.Ports, World.Connected, World.CommonSpeed;
      FewPorts();
      ResetRegistry(w, p);
      StillPublishes(objects, next, upstreams, w, w.ResetPort(p).world);
      if !(0 < p <= |ports|) {
        return Some(EINVAL);
      }
      var connected := IsConnected(p);
      if !connected {
        return Some(ENODEV);
      }
      var s := DetermineSpeed(p);
      if s == NoSpeed {
        return Some(EOPNOTSUPP);
      }
      hide Wired, Packs, World.Connected, World.CommonSpeed, Bits.Ports, World.Restarted, World.NotedReset;
      CompleteReset(p, s);
      return None;
    }

    /** The reset itself, which completes at once. */
    method CompleteReset(p: nat, s: Speed)
      requires Shows() && w.PortValid(p)
      modifies this`enabled, this`suspended, this`reset, this`cReset, this`emitted, this`w, speed
      ensures Shows() && w == old(w).Restarted(p, s).NotedReset(p)
    {
      hide Wired, Packs, Bits.Ports;
      FewPorts();
      Restart(p, s);
      NoteReset(p);
    }

    /** The bits and the speed of a port that has been reset. */
    method Restart(p: nat, s: Speed)
      requires Registers() && p < Bits.POSITIONS
      modifies this`enabled, this`suspended, this`reset, this`w, speed
      ensures Registers() && w == old(w).Restarted(p, s)
    {
      hide Packs, Bits.Ports;
      BeginReset(p);
      SetSpeed(p, s);
      EndReset(p);
      RestartSteps(old(w), w, p, s);
    }

    method BeginReset(p: nat)
      requires Registers() && p < Bits.POSITIONS
      modifies this`enabled, this`suspended, this`reset, this`w
      ensures Registers()
      ensures w == old(w).(hub := old(w).hub.(enabled := old(w).hub.enabled - {p}, suspended := old(w).hub.suspended - {p},
                                              reset := old(w).hub.reset + {p}))
    {
      Bits.PortsSetClear(enabled, p);
      Bits.PortsSetClear(suspended, p);
      Bits.PortsSetClear(reset, p);
      hide Packs, Bits.Ports, Bits.Clear, Bits.Set;
      enabled := Bits.Clear(enabled, p);
      suspended := Bits.Clear(suspended, p);
      reset := Bits.Set(reset, p);
      w := w.(hub := w.hub.(enabled := w.hub.enabled - {p}, suspended := w.hub.suspended - {p}, reset := w.hub.reset + {p}));
    }

    method EndReset(p: nat)
      requires Registers() && p < Bits.POSITIONS
      modifies this`enabled, this`reset, this`w
      ensures Registers()
      ensures w == old(w).(hub := old(w).hub.(enabled := old(w).hub.enabled + {p}, reset := old(w).hub.reset - {p}))
    {
      Bits.PortsSetClear(enabled, p);
      Bits.PortsSetClear(reset, p);
      hide Packs, Bits.Ports, Bits.Clear, Bits.Set;
      reset := Bits.Clear(reset, p);
      enabled := Bits.Set(enabled, p);
      w := w.(hub := w.hub.(enabled := w.hub.enabled + {p}, reset := w.hub.reset - {p}));
    }

    /** Set the reset change bit, and tell if it was not set. */
    method NoteReset(p: nat)
      requires Registers() && Fields() && p < Bits.POSITIONS
      modifies this`cReset, this`emitted, this`w
      ensures Registers() && Fields() && w == old(w).NotedReset(p)
    {
      Bits.PortsSetClear(cReset, p);
      Bits.PortsTest(cReset, p);
      hide Packs, Bits.Ports, Bits.Set, Bits.Test;
      if !Bits.Test(cReset, p) {
        cReset := Bits.Set(cReset, p);
        w := w.(hub := w.hub.(cReset := w.hub.cReset + {p}, emitted := w.hub.emitted + if listening then 1 else 0));
        Notify();
      }
    }

    /** virtusb_hub_reset. */
    method Reset()
      requires Shows()
      modifies this`enabled, this`suspended, this`reset, this`w, speed
      modifies this`cConnected, this`cEnabled, this`cSuspended, this`cReset, this`cOverCurrent
      ensures Shows() && w == old(w).ResetHub()
      ensures old(Published()) ==> Published()
    {
      hide Publishes, SameRegistry, Packs, Wired, Bits.Ports;
      ResetHubRegistry(w);
      StillPublishes(objects, next, upstreams, w, w.ResetHub());
      ResetState();
      ResetChanges();
    }

    /** memset of the usb state. */
    method ResetState()
      requires Registers()
      modifies this`enabled, this`suspended, this`reset, this`w, speed
      ensures Registers() && w == old(w).(hub := old(w).hub.(enabled := {}, suspended := {}, reset := {}, speed := map[]))
    {
      hide Packs, Bits.Ports;
      Bits.PortsNone();
      enabled, suspended, reset := 0, 0, 0;
      speed[0], speed[1] := 0, 0;
      ZeroPacks(speed[..]);
      w := w.(hub := w.hub.(enabled := {}, suspended := {}, reset := {}, speed := map[]));
    }

    /** memset of the usb change information. */
    method ResetChanges()
      requires Registers()
      modifies this`w, this`cConnected, this`cEnabled, this`cSuspended, this`cReset, this`cOverCurrent
      ensures Registers()
      ensures w == old(w).(hub := old(w).hub.(cConnected := {}, cEnabled := {}, cSuspended := {}, cReset := {}, cOverCurrent := {}))
    {
      hide Packs, Bits.Ports;
      Bits.PortsNone();
      cConnected, cEnabled, cSuspended, cReset, cOverCurrent := 0, 0, 0, 0, 0;
      w := w.(hub := w.hub.(cConnected := {}, cEnabled := {}, cSuspended := {}, cReset := {}, cOverCurrent := {}));
    }

    /** virtusb_hcd_clear_port_feature. */
    method ClearFeature(p: nat, feature: nat) returns (error: Option<Errno>)
      requires Shows()
      modifies this`enabled, this`suspended, this`reset, this`cConnected, this`cEnabled, this`cSuspended, this`cReset, this`cOverCurrent
      modifies this`emitted, this`w, speed, ports
      ensures Shows() && Outcome(w, error) == old(w).ClearFeature(p, feature)
      ensures old(Published()) ==> Published()
    {
      hide Publishes, SameRegistry;
      ClearRegistry(w, p, feature);
      StillPublishes(objects, next, upstreams, w, w.ClearFeature(p, feature).world);
      if !(0 < p <= |ports|) {
        return Some(EPIPE);
      }
      if feature == POWER {
        error := SetPortPower(p, false);
        return;
      }
      error := ClearBit(p, feature);
    }

    /** The features that clear one bit. */
    method ClearBit(p: nat, feature: nat) returns (error: Option<Errno>)
      requires Shows() && w.PortValid(p) && feature != POWER
      modifies this`enabled, this`suspended, this`cConnected, this`cEnabled, this`cSuspended, this`cReset, this`cOverCurrent, this`w
      ensures Shows() && Outcome(w, error) == old(w).ClearFeature(p, feature)
    {
      hide Packs, Wired, Bits.Ports, World.SetPortPower, World.ClearFeature;
      FewPorts();
      ClearKnows(w, p, feature);
      if feature == ENABLE || feature == SUSPEND {
        ClearState(p, feature);
        return None;
      }
      if feature == C_CONNECTION || feature == C_ENABLE || feature == C_SUSPEND || feature == C_OVER_CURRENT || feature == C_RESET {
        ClearChange(p, feature);
        return None;
      }
      return Some(EPIPE);
    }

    method ClearState(p: nat, feature: nat)
      requires Registers() && w.PortValid(p) && p < Bits.POSITIONS && (feature == ENABLE || feature == SUSPEND)
      modifies this`enabled, this`suspended, this`w
      ensures Registers() && w == old(w).ClearFeature(p, feature).world
    {
      hide Packs, Bits.Ports, Bits.Clear, World.SetPortPower;
      w := w.ClearFeature(p, feature).world;
      if feature == ENABLE {
        Bits.PortsSetClear(enabled, p);
        enabled := Bits.Clear(enabled, p);
      } else {
        Bits.PortsSetClear(suspended, p);
        suspended := Bits.Clear(suspended, p);
      }
    }

    method ClearChange(p: nat, feature: nat)
      requires Registers() && w.PortValid(p) && p < Bits.POSITIONS
      requires feature == C_CONNECTION || feature == C_ENABLE || feature == C_SUSPEND || feature == C_OVER_CURRENT || feature == C_RESET
      modifies this`cConnected, this`cEnabled, this`cSuspended, this`cReset, this`cOverCurrent, this`w
      ensures Registers() && w == old(w).ClearFeature(p, feature).world
    {
      hide Packs, Bits.Ports, Bits.Clear, World.SetPortPower;
      w := w.ClearFeature(p, feature).world;
      if feature == C_CONNECTION {
        Bits.PortsSetClear(cConnected, p);
        cConnected := Bits.Clear(cConnected, p);
      } else if feature == C_ENABLE {
        Bits.PortsSetClear(cEnabled, p);
        cEnabled := Bits.Clear(cEnabled, p);
      } else if feature == C_SUSPEND {
        Bits.PortsSetClear(cSuspended, p);
        cSuspended := Bits.Clear(cSuspended, p);
      } else if feature == C_OVER_CURRENT {
        Bits.PortsSetClear(cOverCurrent, p);
        cOverCurrent := Bits.Clear(cOverCurrent, p);
      } else {
        Bits.PortsSetClear(cReset, p);
        cReset := Bits.Clear(cReset, p);
      }
    }

    /** virtusb_hcd_set_port_feature. */
    method SetFeature(p: nat, feature: nat) returns (error: Option<Errno>)
      requires Shows()
      modifies this`enabled, this`suspended, this`reset, this`cConnected, this`cReset
      modifies this`emitted, this`w, speed, ports
      ensures Shows() && Outcome(w, error) == old(w).SetFeature(p, feature)
      ensures old(Published()) ==> Published()
    {
      hide Publishes, SameRegistry;
      SetRegistry(w, p, feature);
      StillPublishes(objects, next, upstreams, w, w.SetFeature(p, feature).world);
      if !(0 < p <= |ports|) {
        return Some(EPIPE);
      }
      if feature == SUSPEND {
        Suspend(p);
        return None;
      }
      if feature == POWER {
        error := SetPortPower(p, true);
        return;
      }
      if feature == RESET {
        error := ResetPort(p);
        return;
      }
      return Some(EPIPE);
    }

    method Suspend(p: nat)
      requires Shows() && w.PortValid(p)
      modifies this`suspended, this`w
      ensures Shows() && w == old(w).(hub := old(w).hub.(suspended := old(w).hub.suspended + {p}))
    {
      Bits.PortsSetClear(suspended, p);
      hide Packs, Wired, Bits.Ports, Bits.Set;
      suspended := Bits.Set(suspended, p);
      w := w.(hub := w.hub.(suspended := w.hub.suspended + {p}));
    }

    // ---- attachment and signaling ------------------------------------------------------------

    /** The upstream port belongs to a device of w. */
    ghost predicate Knows(device: Port)
      reads this
    {
      device.owner in upstreams && upstreams[device.owner] == device && device.owner in w.devices
    }

    lemma Shown()
      requires Shows()
      ensures |ports| == |w.hub.ports| <= MAX_PORTS && upstreams.Keys == w.devices.Keys
      ensures forall d :: d in upstreams ==> upstreams[d].owner == d && Knows(upstreams[d])
    {
      assert forall d :: d in upstreams ==> DeviceShows(upstreams[d], d, w.devices[d], ports);
    }

    /** virtusb_device_get_attached_hub, for one hub: the number of the port a device is attached to. */
    method AttachedPort(device: Port) returns (p: Option<nat>)
      requires Wires() && Knows(device)
      ensures p == w.devices[device.owner].port && (p.Some? ==> w.PortValid(p.value))
    {
      assert DeviceShows(device, device.owner, w.devices[device.owner], ports);
      if device.peer == null {
        return None;
      }
      var number := FindPortNumber(device.peer);
      return Some(number.value);
    }

    /** virtusb_port_set_connection_signaling, on a device's port. */
    method SetSignaling(device: Port, on: bool)
      requires Shows() && Knows(device)
      modifies this`w, device
      ensures Shows() && Knows(device)
      ensures w == old(w).WithDevice(device.owner, old(w).devices[device.owner].(signaling := on))
    {
      hide Packs, Bits.Ports, Wired;
      Raise(device, on);
      w := w.WithDevice(device.owner, w.devices[device.owner].(signaling := on));
    }

    method Raise(device: Port, on: bool)
      requires Wires() && Knows(device)
      modifies device
      ensures Wired(ports, upstreams, w.hub.ports, w.devices[device.owner := w.devices[device.owner].(signaling := on)])
    {
      Distinct(device, 1);
      assert DeviceShows(device, device.owner, w.devices[device.owner], ports);
      device.signaling := on;
      assert DeviceShows(device, device.owner, w.devices[device.owner].(signaling := on), ports);
      hide PortShows, DeviceShows;
    }

    /** virtusb_device_set_connection_signaling. */
    method Signal(device: Port, on: bool)
      requires Shows() && Knows(device)
      modifies this`enabled, this`suspended, this`reset, this`cConnected, this`emitted, this`w, speed, device
      ensures Shows() && Knows(device) && w == old(w).Signal(device.owner, on)
      ensures old(Published()) ==> Published()
    {
      hide Publishes, SameRegistry;
      SignalRegistry(w, device.owner, on);
      StillPublishes(objects, next, upstreams, w, w.Signal(device.owner, on));
      var p := AttachedPort(device);
      if p == None {
        SetSignaling(device, on);
        return;
      }
      SignalAttached(device, p.value, on);
    }

    /** The signaling of a device that is attached to port p. */
    method SignalAttached(device: Port, p: nat, on: bool)
      requires Shows() && Knows(device) && w.devices[device.owner].port == Some(p)
      modifies this`enabled, this`suspended, this`reset, this`cConnected, this`emitted, this`w, speed, device
      ensures Shows() && Knows(device) && w == old(w).Signal(device.owner, on)
    {
      hide Wired, Packs, Bits.Ports, World.Connected, World.Settled;
      var was := IsConnected(p);
      SetSignaling(device, on);
      Settle(was, p);
      SettledKnows(old(w).WithDevice(device.owner, old(w).devices[device.owner].(signaling := on)), was, p);
    }

    /** The peers of device and port p set on both sides. */
    method Join(device: Port, p: nat) returns (error: Option<Errno>)
      requires Wires() && Knows(device) && w.PortValid(p)
      modifies device, ports
      ensures error == if w.Peer(p).Some? || w.devices[device.owner].port.Some? then Some(EBUSY) else None
      ensures var v := if error == None then w.Linked(device.owner, p) else w; Wired(ports, upstreams, v.hub.ports, v.devices)
    {
      Distinct(device, p);
      hide PortShows, DeviceShows;
      error := PlugIn(ports, upstreams, device, p, w.hub.ports[p - 1], w.devices[device.owner]);
    }

    /** The peers of device and port p cleared on both sides. */
    method Part(device: Port, p: nat)
      requires Wires() && Knows(device) && Matching(w) && w.devices[device.owner].port == Some(p) && w.PortValid(p)
      modifies device, ports
      ensures var v := w.Unlinked(device.owner, p); Wired(ports, upstreams, v.hub.ports, v.devices)
    {
      hide PortShows, DeviceShows;
      Distinct(device, p);
      assert w.Peer(p) == Some(device.owner);
      PlugOut(ports, upstreams, device, p, w.hub.ports[p - 1], w.devices[device.owner]);
    }

    /** virtusb_port_attach, at port p. */
    method Link(device: Port, p: nat) returns (error: Option<Errno>)
      requires Shows() && Knows(device) && w.PortValid(p)
      modifies this`w, device, ports
      ensures Shows() && Knows(device)
      ensures error == if old(w).Peer(p).Some? || old(w).devices[device.owner].port.Some? then Some(EBUSY) else None
      ensures w == if error == None then old(w).Linked(device.owner, p) else old(w)
    {
      hide Packs, Bits.Ports, Wired;
      error := Join(device, p);
      if error == None {
        w := w.Linked(device.owner, p);
      }
    }

    /** No two of the hub's ports and the devices' ports are one. */
    lemma Distinct(device: Port, p: nat)
      requires Wires() && Knows(device) && w.PortValid(p)
      ensures forall i :: 0 <= i < |ports| ==> ports[i] != device && (i != p - 1 ==> ports[i] != ports[p - 1])
      ensures forall d :: d in upstreams ==> upstreams[d] != ports[p - 1] && (d != device.owner ==> upstreams[d] != device)
    {
      assert PortShows(ports[p - 1], w.hub.ports[p - 1], upstreams);
      forall i | 0 <= i < |ports| ensures ports[i] != device {
        assert PortShows(ports[i], w.hub.ports[i], upstreams) && DeviceShows(device, device.owner, w.devices[device.owner], ports);
      }
      forall d | d in upstreams ensures upstreams[d] != ports[p - 1] && (d != device.owner ==> upstreams[d] != device) {
        assert DeviceShows(upstreams[d], d, w.devices[d], ports);
      }
    }

    /** virtusb_device_attach, to port p of this hub. */
    method Attach(device: Port, p: nat) returns (error: Option<Errno>)
      requires Shows() && Knows(device) && w.Found(device.owner) && device.owner > 0
      modifies this`enabled, this`suspended, this`reset, this`cConnected, this`emitted, this`w, speed, device, ports
      ensures Shows() && Knows(device) && Outcome(w, error) == old(w).Attach(device.owner, p)
      ensures old(Published()) ==> Published()
    {
      hide Publishes, SameRegistry;
      AttachRegistry(w, device.owner, p);
      StillPublishes(objects, next, upstreams, w, w.Attach(device.owner, p).world);
      if !(0 < p <= |ports|) {
        return Some(EINVAL);
      }
      hide Wired, Packs, Bits.Ports, World.Connected, World.Settled, World.Linked;
      FewPorts();
      error := AttachAt(device, p);
    }

    /** The attachment to a valid port. */
    method AttachAt(device: Port, p: nat) returns (error: Option<Errno>)
      requires Shows() && Knows(device) && w.PortValid(p)
      modifies this`enabled, this`suspended, this`reset, this`cConnected, this`emitted, this`w, speed, device, ports
      ensures Shows() && Knows(device)
      ensures error == if old(w).Peer(p).Some? || old(w).devices[device.owner].port.Some? then Some(EBUSY) else None
      ensures w == if error == None then old(w).Linked(device.owner, p).Settled(old(w).Connected(p), p) else old(w)
    {
      hide Wired, Packs, Bits.Ports, World.Connected, World.Settled, World.Linked;
      var was := IsConnected(p);
      error := Link(device, p);
      if error == None {
        SettledKnows(w, was, p);
        Settle(was, p);
      }
    }

    /** virtusb_port_detach, on a device's attached port. */
    method Unlink(device: Port, p: nat)
      requires Shows() && Knows(device) && Matching(w) && w.devices[device.owner].port == Some(p) && w.PortValid(p)
      modifies this`w, device, ports
      ensures Shows() && Knows(device) && w == old(w).Unlinked(device.owner, p)
    {
      hide Packs, Bits.Ports, Wired, Matching;
      Part(device, p);
      w := w.Unlinked(device.owner, p);
    }

    /** virtusb_device_detach. */
    method Unplug(device: Port)
      requires Shows() && Knows(device) && Matching(w)
      modifies this`enabled, this`suspended, this`reset, this`cConnected, this`emitted, this`w, speed, device, ports
      ensures Shows() && Knows(device) && w == old(w).Unplug(device.owner)
      ensures old(Published()) ==> Published()
    {
      hide Publishes, SameRegistry;
      UnplugRegistry(w, device.owner);
      StillPublishes(objects, next, upstreams, w, w.Unplug(device.owner));
      var p := AttachedPort(device);
      if p == None {
        return;
      }
      UnplugFrom(device, p.value);
    }

    method UnplugFrom(device: Port, p: nat)
      requires Shows() && Knows(device) && Matching(w) && w.devices[device.owner].port == Some(p) && w.PortValid(p)
      modifies this`enabled, this`suspended, this`reset, this`cConnected, this`emitted, this`w, speed, device, ports
      ensures Shows() && Knows(device) && w == old(w).Unplug(device.owner)
    {
      var was := IsConnected(p);
      hide Wired, Packs, World.Connected, World.Mark, World.Unlinked, Matching, Bits.Ports;
      Unlink(device, p);
      if was {
        MarkKnows(w, p);
        Mark(p);
      }
    }

    // ---- the registry's effect on w ------------------------------------------------------------

    /** A device has been registered. */
    ghost method Enroll(device: Port)
      requires Shows() && Numbered(w) && device.role == Upstream && device.owner == w.next
      requires device.peer == null && !device.signaling
      modifies this`w, this`upstreams
      ensures Shows() && upstreams == old(upstreams)[old(w).next := device]
      ensures w == old(w).(devices := old(w).devices[old(w).next := Topology.Device.Device(device.caps, false, None, true)],
                           next := old(w).next + 1)
    {
      assert w.next !in w.devices;
      WiredMore(ports, upstreams, w.hub.ports, w.devices, device);
      hide Packs, Bits.Ports, Wired;
      upstreams := upstreams[w.next := device];
      w := w.(devices := w.devices[w.next := Topology.Device.Device(device.caps, false, None, true)], next := w.next + 1);
    }

    /** A device has been unregistered. */
    ghost method Retire(d: nat)
      requires Shows() && d in w.devices
      modifies this`w
      ensures Shows() && w == old(w).WithDevice(d, old(w).devices[d].(registered := false))
    {
      hide Packs, Bits.Ports, Wired;
      WiredSame(ports, upstreams, w.hub.ports, w.devices, d, w.devices[d].(registered := false));
      w := w.WithDevice(d, w.devices[d].(registered := false));
    }

    // ---- creation and destruction ----------------------------------------------------------------

    /** virtusb_device_create; the allocation and the registry's insertion may fail. */
    method Create(caps: bv8, memory: bool, inserted: bool) returns (device: Port?, error: Option<Errno>)
      requires Shows() && Published() && Inv(w)
      modifies this`w, this`upstreams, this`objects, this`next
      ensures Shows() && Published() && Outcome(w, error) == old(w).Create(caps, memory, inserted)
      ensures error == None <==> device != null
      ensures device != null ==>
        && fresh(device) && Knows(device) && device.owner == old(next)
        && objects == old(objects)[old(next) := device] && upstreams == old(upstreams)[old(next) := device]
      ensures device == null ==> objects == old(objects) && upstreams == old(upstreams)
    {
      if !CapsValid(caps) {
        return null, Some(EINVAL);
      }
      if !memory {
        return null, Some(ENOMEM);
      }
      if next > U32_MAX {
        return null, Some(ENOSPC);
      }
      if !inserted {
        return null, Some(ENOMEM);
      }
      device := new Port(Upstream, caps, next);
      Publish(device);
      error := None;
    }

    /** virtusb_object_register, for a device. */
    method Publish(device: Port)
      requires Shows() && Published() && Numbered(w) && device.role == Upstream && device.owner == next
      requires device.peer == null && !device.signaling
      modifies this`w, this`upstreams, this`objects, this`next
      ensures Shows() && Published() && Knows(device)
      ensures objects == old(objects)[old(next) := device] && upstreams == old(upstreams)[old(next) := device]
      ensures w == old(w).(devices := old(w).devices[old(w).next := Topology.Device.Device(device.caps, false, None, true)],
                           next := old(w).next + 1)
    {
      hide Packs, Bits.Ports, Wired, Numbered;
      RegisteredMore(w, Topology.Device.Device(device.caps, false, None, true));
      Enroll(device);
      objects := objects[next := device];
      next := next + 1;
    }

    /** virtusb_object_unregister, for a device. */
    method Unregister(device: Port) returns (error: Option<Errno>)
      requires Shows() && Published() && Knows(device)
      modifies this`w, this`objects
      ensures Shows() && Published() && Knows(device) && Outcome(w, error) == old(w).Unregister(device.owner)
    {
      hide Packs, Bits.Ports, Wired;
      if device.owner !in objects {
        return Some(ENOENT);
      }
      RegisteredLess(w, device.owner);
      objects := objects - {device.owner};
      Retire(device.owner);
      return None;
    }

    /** virtusb_device_destroy. */
    method Destroy(device: Port, force: bool) returns (error: Option<Errno>)
      requires Shows() && Published() && Inv(w) && Knows(device)
      modifies this`enabled, this`suspended, this`reset, this`cConnected, this`emitted, this`w, this`objects, speed, device, ports
      ensures Shows() && Published() && Knows(device)
      ensures Outcome(w, error) == old(w).DestroyDevice(device.owner, force)
    {
      hide Packs, Bits.Ports, Wired, Inv, Matching, World.Signal, World.Unplug, World.Unregister;
      var p := AttachedPort(device);
      if p != None {
        if !force {
          return Some(EBUSY);
        }
        Remove(device);
      }
      error := Unregister(device);
    }

    /** A device that is attached falls silent and is detached. */
    method Remove(device: Port)
      requires Shows() && Published() && Inv(w) && Knows(device)
      modifies this`enabled, this`suspended, this`reset, this`cConnected, this`emitted, this`w, speed, device, ports
      ensures Shows() && Published() && Knows(device) && w == old(w).Signal(device.owner, false).Unplug(device.owner)
    {
      hide Packs, Bits.Ports, Wired, Inv, Matching, World.Signal, World.Unplug;
      RemovedSame(w, device.owner);
      Signal(device, false);
      Unplug(device);
    }

    /** virtusb_object_lookup_first_by_type, for devices. */
    method First() returns (d: nat)
      requires Published()
      ensures d == Shutdown.FirstFrom(w, 0) && (d != next ==> d in objects)
    {
      d := 0;
      while d < next && d !in objects
        invariant 0 <= d <= next && Shutdown.FirstFrom(w, d) == Shutdown.FirstFrom(w, 0)
      {
        d := d + 1;
      }
    }

    /** One round of a shutdown: the device with this id goes. */
    method ShutdownRound(d: nat) returns (e: nat)
      requires Shows() && Published() && Inv(w) && d in objects && d == Shutdown.FirstFrom(w, 0)
      modifies this`enabled, this`suspended, this`reset, this`cConnected, this`emitted, this`w, this`objects, speed, ports, objects[d]
      ensures Shows() && Published() && Inv(w) && Shutdown.ShutdownAll(w) == Shutdown.ShutdownAll(old(w))
      ensures |Shutdown.Registered(w)| < |Shutdown.Registered(old(w))|
      ensures e == Shutdown.FirstFrom(w, 0) && (e != next ==> e in objects)
    {
      hide Packs, Bits.Ports, Wired, Inv, World.DestroyDevice, Shutdown.ShutdownAll;
      Shown();
      Shutdown.ShutdownStep(w);
      var error := Destroy(objects[d], true);
      e := First();
    }

    /** virtusb_device_shutdown_all. */
    method ShutdownAll()
      requires Shows() && Published() && Inv(w)
      modifies this`enabled, this`suspended, this`reset, this`cConnected, this`emitted, this`w, this`objects, speed, ports, upstreams.Values
      ensures Shows() && Published() && w == Shutdown.ShutdownAll(old(w)) && objects == map[]
    {
      hide Packs, Bits.Ports, Wired, Inv, World.DestroyDevice, Shutdown.Registered, Shutdown.FirstFrom, Shutdown.ShutdownAll;
      var d := First();
      while d != next
        invariant Shows() && Published() && Inv(w) && Shutdown.ShutdownAll(w) == Shutdown.ShutdownAll(old(w))
        invariant d == Shutdown.FirstFrom(w, 0) && (d != next ==> d in objects)
        decreases |Shutdown.Registered(w)|
      {
        d := ShutdownRound(d);
      }
      Shutdown.ShutdownStep(w);
    }
  }
}
