/** The hub, its ports and the devices as values: what each operation of
    virtusb_hub.c, virtusb_port.c, virtusb_device.c and the hub requests of
    virtusb_hcd.c makes of them. Operations run one at a time. */
module Topology {
  import opened Wrappers

  // ---- speeds ---------------------------------------------------------------

  /** Speed capabilities, VIRTUSB_PORT_SPEED_CAP_*. */
  const CAP_LOW: bv8 := 1
  const CAP_FULL: bv8 := 2
  const CAP_HIGH: bv8 := 4
  const CAP_ALL: bv8 := 7

  predicate CapsValid(caps: bv8) {
    caps != 0 && caps & !CAP_ALL == 0
  }

  datatype Speed = NoSpeed | Low | Full | High

  /** The highest speed of a capability mask. */
  function Best(caps: bv8): Speed {
    if caps & CAP_HIGH != 0 then High
    else if caps & CAP_FULL != 0 then Full
    else if caps & CAP_LOW != 0 then Low
    else NoSpeed
  }

  lemma ValidCapsHaveSpeed(caps: bv8)
    requires CapsValid(caps)
    ensures Best(CAP_ALL & caps) != NoSpeed
  {
  }

  // ---- state ------------------------------------------------------------------

  const MAX_PORTS: nat := 31

  datatype PowerMode = Ganged | Individual

  datatype OverCurrentMode = Global | PerPort | NoDetection

  /** A downstream port; `peer` is the id of the device whose upstream port is attached. */
  datatype Port = Port(powered: bool, overCurrent: bool, peer: Option<nat>)

  /** A device with its upstream port; `port` is the number of the port it is attached to. */
  datatype Device = Device(caps: bv8, signaling: bool, port: Option<nat>, registered: bool)

  /** struct virtusb_hub: the bitmaps as sets of port numbers, the packed speeds as a table. */
  datatype Hub = Hub(
    ports: seq<Port>, power: PowerMode, overCurrentMode: OverCurrentMode, overCurrent: bool,
    enabled: set<nat>, suspended: set<nat>, reset: set<nat>, speed: map<nat, Speed>,
    cConnected: set<nat>, cEnabled: set<nat>, cSuspended: set<nat>, cReset: set<nat>, cOverCurrent: set<nat>,
    listening: bool, emitted: nat)

  function SpeedIn(speeds: map<nat, Speed>, p: nat): Speed {
    if p in speeds then speeds[p] else NoSpeed
  }

  // USB_PORT_FEAT_*, table 11-17 of the USB 2.0 specification.
  const ENABLE: nat := 1
  const SUSPEND: nat := 2
  const RESET: nat := 4
  const POWER: nat := 8
  const C_CONNECTION: nat := 16
  const C_ENABLE: nat := 17
  const C_SUSPEND: nat := 18
  const C_OVER_CURRENT: nat := 19
  const C_RESET: nat := 20

  const U32_MAX: nat := 0xFFFF_FFFF

  /** What an operation leaves, and the error it returns. */
  datatype Outcome = Outcome(world: World, error: Option<Errno>)

  /** One hub, every device ever created, and the id the next one gets. */
  datatype World = World(hub: Hub, devices: map<nat, Device>, next: nat) {

    function Ok(): Outcome { Outcome(this, None) }

    function Fail(e: Errno): Outcome { Outcome(this, Some(e)) }

    // ---- queries ----------------------------------------------------------------

    predicate PortValid(p: nat) { 0 < p <= |hub.ports| }

    predicate Powered(p: nat) { PortValid(p) && hub.ports[p - 1].powered }

    function Peer(p: nat): Option<nat> {
      if PortValid(p) then hub.ports[p - 1].peer else None
    }

    /** virtusb_hub_port_is_connected: attached, powered, and the device signals. */
    predicate Connected(p: nat) {
      Peer(p).Some? && Peer(p).value in devices && Powered(p) && devices[Peer(p).value].signaling
    }

    /** virtusb_hub_determine_port_speed. */
    function CommonSpeed(p: nat): Speed {
      if Peer(p).Some? && Peer(p).value in devices then Best(CAP_ALL & devices[Peer(p).value].caps) else NoSpeed
    }

    function SpeedOf(p: nat): Speed {
      SpeedIn(hub.speed, p)
    }

    /** virtusb_hub_port_is_over_current. */
    predicate PortOverCurrent(p: nat) {
      hub.overCurrentMode == PerPort && PortValid(p) && hub.ports[p - 1].overCurrent
    }

    /** virtusb_hub_is_over_current. */
    predicate HubOverCurrent() {
      hub.overCurrentMode == Global && hub.overCurrent
    }

    /** virtusb_object_lookup, for devices. */
    predicate Found(d: nat) { d in devices && devices[d].registered }

    // ---- change bits ---------------------------------------------------------------

    /** A port that is gone keeps no protocol state. */
    function Quieted(p: nat): World {
      this.(hub := hub.(enabled := hub.enabled - {p}, suspended := hub.suspended - {p}, reset := hub.reset - {p},
                        speed := hub.speed[p := NoSpeed]))
    }

    /** A change bit is set, and told of if it was not set before. */
    function Noted(p: nat): World {
      if p in hub.cConnected then this
      else this.(hub := hub.(cConnected := hub.cConnected + {p}, emitted := hub.emitted + if hub.listening then 1 else 0))
    }

    /** virtusb_hub_mark_port_connection_change. */
    function Mark(p: nat): World {
      if !PortValid(p) then this
      else if Connected(p) then Noted(p)
      else Quieted(p).Noted(p)
    }

    /** The comparison each operation ends with: has port p's connection changed? */
    function Settled(was: bool, p: nat): World {
      if was != Connected(p) then Mark(p) else this
    }

    // ---- ports ------------------------------------------------------------------------

    function WithPort(p: nat, port: Port): World
      requires PortValid(p)
    {
      this.(hub := hub.(ports := hub.ports[p - 1 := port]))
    }

    /** One port's power, as the individual mode switches it. */
    function PowerOne(p: nat, on: bool): World
      requires PortValid(p)
    {
      WithPort(p, hub.ports[p - 1].(powered := on)).Settled(Connected(p), p)
    }

    /** The loop of virtusb_hub_set_all_ports_power, from port p on. */
    function PowerEach(p: nat, on: bool): (w: World)
      requires 0 < p
      ensures |w.hub.ports| == |hub.ports|
      decreases |hub.ports| + 1 - p
    {
      if p > |hub.ports| then this
      else
        PowerOne(p, on).PowerEach(p + 1, on)
    }

    /** virtusb_hub_set_port_power. */
    function SetPortPower(p: nat, on: bool): Outcome {
      if !PortValid(p) then Fail(EINVAL)
      else if hub.power == Ganged then PowerEach(1, on).Ok()
      else PowerOne(p, on).Ok()
    }

    /** A reset that has completed. */
    function Restarted(p: nat, s: Speed): World {
      this.(hub := hub.(enabled := hub.enabled + {p}, suspended := hub.suspended - {p}, reset := hub.reset - {p},
                        speed := hub.speed[p := s]))
    }

    function NotedReset(p: nat): World {
      if p in hub.cReset then this
      else this.(hub := hub.(cReset := hub.cReset + {p}, emitted := hub.emitted + if hub.listening then 1 else 0))
    }

    /** virtusb_hub_reset_port. */
    function ResetPort(p: nat): Outcome {
      if !PortValid(p) then Fail(EINVAL)
      else if !Connected(p) then Fail(ENODEV)
      else if CommonSpeed(p) == NoSpeed then Fail(EOPNOTSUPP)
      else Restarted(p, CommonSpeed(p)).NotedReset(p).Ok()
    }

    /** virtusb_hub_reset. */
    function ResetHub(): World {
      this.(hub := hub.(enabled := {}, suspended := {}, reset := {}, speed := map[],
                        cConnected := {}, cEnabled := {}, cSuspended := {}, cReset := {}, cOverCurrent := {}))
    }

    /** virtusb_hcd_clear_port_feature. */
    function ClearFeature(p: nat, feature: nat): Outcome {
      if !PortValid(p) then Fail(EPIPE)
      else if feature == ENABLE then this.(hub := hub.(enabled := hub.enabled - {p})).Ok()
      else if feature == SUSPEND then this.(hub := hub.(suspended := hub.suspended - {p})).Ok()
      else if feature == POWER then SetPortPower(p, false)
      else if feature == C_CONNECTION then this.(hub := hub.(cConnected := hub.cConnected - {p})).Ok()
      else if feature == C_ENABLE then this.(hub := hub.(cEnabled := hub.cEnabled - {p})).Ok()
      else if feature == C_SUSPEND then this.(hub := hub.(cSuspended := hub.cSuspended - {p})).Ok()
      else if feature == C_OVER_CURRENT then this.(hub := hub.(cOverCurrent := hub.cOverCurrent - {p})).Ok()
      else if feature == C_RESET then this.(hub := hub.(cReset := hub.cReset - {p})).Ok()
      else Fail(EPIPE)
    }

    /** virtusb_hcd_set_port_feature. */
    function SetFeature(p: nat, feature: nat): Outcome {
      if !PortValid(p) then Fail(EPIPE)
      else if feature == SUSPEND then this.(hub := hub.(suspended := hub.suspended + {p})).Ok()
      else if feature == POWER then SetPortPower(p, true)
      else if feature == RESET then ResetPort(p)
      else Fail(EPIPE)
    }

    /** virtusb_hub_set_port_over_current. */
    function SetPortOverCurrent(p: nat, on: bool): Outcome {
      if hub.overCurrentMode != PerPort || !PortValid(p) then Fail(EINVAL)
      else WithPort(p, hub.ports[p - 1].(overCurrent := on)).Ok()
    }

    // ---- devices -----------------------------------------------------------------------

    function WithDevice(d: nat, device: Device): World {
      this.(devices := devices[d := device])
    }

    /** virtusb_device_create; the allocation and the registry's insertion may fail. */
    function Create(caps: bv8, memory: bool, inserted: bool): Outcome {
      if !CapsValid(caps) then Fail(EINVAL)
      else if !memory then Fail(ENOMEM)
      else if next > U32_MAX then Fail(ENOSPC)
      else if !inserted then Fail(ENOMEM)
      else this.(devices := devices[next := Device(caps, false, None, true)], next := next + 1).Ok()
    }

    /** Reciprocal peers: both ends of the cable at once. */
    function Linked(d: nat, p: nat): World
      requires d in devices && PortValid(p)
    {
      WithPort(p, hub.ports[p - 1].(peer := Some(d))).WithDevice(d, devices[d].(port := Some(p)))
    }

    function Unlinked(d: nat, p: nat): World
      requires d in devices && PortValid(p)
    {
      WithPort(p, hub.ports[p - 1].(peer := None)).WithDevice(d, devices[d].(port := None))
    }

    /** virtusb_device_attach, behind the lookup of the control plane. */
    function Attach(d: nat, p: nat): Outcome {
      if !PortValid(p) then Fail(EINVAL)
      else if d == 0 then Fail(EINVAL)
      else if !Found(d) then Fail(ENOENT)
      else if Peer(p).Some? || devices[d].port.Some? then Fail(EBUSY)
      else Linked(d, p).Settled(Connected(p), p).Ok()
    }

    /** virtusb_device_detach. */
    function Unplug(d: nat): World
      requires d in devices
    {
      match devices[d].port
      case None => this
      case Some(p) =>
        if !PortValid(p) then WithDevice(d, devices[d].(port := None))
        else if Connected(p) then Unlinked(d, p).Mark(p)
        else Unlinked(d, p)
    }

    function Detach(d: nat): Outcome {
      if d == 0 then Fail(EINVAL) else if !Found(d) then Fail(ENOENT) else Unplug(d).Ok()
    }

    /** virtusb_device_set_connection_signaling. */
    function Signal(d: nat, on: bool): World
      requires d in devices
    {
      var w := WithDevice(d, devices[d].(signaling := on));
      match devices[d].port
      case None => w
      case Some(p) => w.Settled(Connected(p), p)
    }

    function SetSignaling(d: nat, on: bool): Outcome {
      if d == 0 then Fail(EINVAL) else if !Found(d) then Fail(ENOENT) else Signal(d, on).Ok()
    }

    function Unregister(d: nat): Outcome
      requires d in devices
    {
      if devices[d].registered then WithDevice(d, devices[d].(registered := false)).Ok() else Fail(ENOENT)
    }

    /** virtusb_device_destroy. */
    function DestroyDevice(d: nat, force: bool): Outcome
      requires d in devices
    {
      if devices[d].port.Some? then
        if !force then Fail(EBUSY) else Signal(d, false).Unplug(d).Unregister(d)
      else Unregister(d)
    }

    function Destroy(d: nat, force: bool): Outcome {
      if d == 0 then Fail(EINVAL) else if !Found(d) then Fail(ENOENT) else DestroyDevice(d, force)
    }

    /** The device-creation request; if the id cannot be copied out, the device goes again. */
    function CreateAndTell(caps: bv8, memory: bool, inserted: bool, copied: bool): Outcome {
      var made := Create(caps, memory, inserted);
      if made.error.Some? || copied then made
      else Outcome(made.world.DestroyDevice(next, true).world, Some(EFAULT))
    }
  }

  /** A request to the driver. */
  datatype Op =
    | CreateDevice(caps: bv8, memory: bool, inserted: bool, copied: bool)
    | DestroyDevice(device: nat, force: bool)
    | AttachDevice(device: nat, port: nat)
    | DetachDevice(device: nat)
    | SetSignaling(device: nat, on: bool)
    | SetPower(port: nat, on: bool)
    | ClearPortFeature(port: nat, feature: nat)
    | SetPortFeature(port: nat, feature: nat)
    | ClearHubOverCurrent
    | ResetTheHub
    | SetPowerMode(power: PowerMode)
    | SetOverCurrentMode(mode: OverCurrentMode)
    | SetPortOverCurrent(port: nat, on: bool)
    | SetHubOverCurrent(on: bool)

  function Do(w: World, op: Op): Outcome {
    match op
    case CreateDevice(caps, memory, inserted, copied) => w.CreateAndTell(caps, memory, inserted, copied)
    case DestroyDevice(d, force) => w.Destroy(d, force)
    case AttachDevice(d, p) => w.Attach(d, p)
    case DetachDevice(d) => w.Detach(d)
    case SetSignaling(d, on) => w.SetSignaling(d, on)
    case SetPower(p, on) => w.SetPortPower(p, on)
    case ClearPortFeature(p, f) => w.ClearFeature(p, f)
    case SetPortFeature(p, f) => w.SetFeature(p, f)
    case ClearHubOverCurrent => w.(hub := w.hub.(cOverCurrent := w.hub.cOverCurrent - {0})).Ok()
    case ResetTheHub => w.ResetHub().Ok()
    case SetPowerMode(mode) => w.(hub := w.hub.(power := mode)).Ok()
    case SetOverCurrentMode(mode) => w.(hub := w.hub.(overCurrentMode := mode)).Ok()
    case SetPortOverCurrent(p, on) => w.SetPortOverCurrent(p, on)
    case SetHubOverCurrent(on) => if w.hub.overCurrentMode == Global then w.(hub := w.hub.(overCurrent := on)).Ok() else w.Ok()
  }

  function Run(w: World, ops: seq<Op>): World
    decreases |ops|
  {
    if ops == [] then w else Do(Run(w, ops[..|ops| - 1]), ops[|ops| - 1]).world
  }

  /** virtusb_hub_init and an empty registry. */
  function Boot(ports: nat, listening: bool): World {
    World(Hub(seq(ports, _ => Port(false, false, None)), Individual, PerPort, false,
              {}, {}, {}, map[], {}, {}, {}, {}, {}, listening, 0), map[], 1)
  }
}
