/** What the host and user space are told: the change bitmap of the root hub, and
    the two encoders of a port's state, the host controller's and the control plane's. */
module Encodings {
  import opened Topology
  import opened Agreement
  import opened Histories
  import Hubs
  import Bits

  // ---- the change bitmap --------------------------------------------------------

  /** virtusb_hcd_port_change_mask: the hub's own bit stands for over-current alone. */
  function ChangeMask(connected: bv32, enabled: bv32, suspended: bv32, reset: bv32, overCurrent: bv32): bv32 {
    Bits.Or(Bits.Clear(AnyChange(connected, enabled, suspended, reset, overCurrent), 0), Bits.And(overCurrent, Bits.Bit(0)))
  }

  function AnyChange(connected: bv32, enabled: bv32, suspended: bv32, reset: bv32, overCurrent: bv32): bv32 {
    Bits.Or(Bits.Or(Bits.Or(Bits.Or(connected, enabled), suspended), reset), overCurrent)
  }

  /** The ports with a change pending, and 0 if the hub has one. */
  function Changed(w: World): set<nat> {
    (w.hub.cConnected + w.hub.cEnabled + w.hub.cSuspended + w.hub.cReset + w.hub.cOverCurrent) - {0} + w.hub.cOverCurrent * {0}
  }

  lemma PortsOr(x: bv32, y: bv32)
    ensures Bits.Ports(Bits.Or(x, y)) == Bits.Ports(x) + Bits.Ports(y)
  {
    hide Bits.And, Bits.Or, Bits.Bit;
    forall p: nat | p < Bits.POSITIONS ensures Bits.Test(Bits.Or(x, y), p) <==> Bits.Test(x, p) || Bits.Test(y, p) {
      Bits.AndOverOr(x, y, Bits.Bit(p));
      Bits.OrZero(Bits.And(x, Bits.Bit(p)), Bits.And(y, Bits.Bit(p)));
    }
    hide Bits.Test;
  }

  /** The bit of position 0 alone. */
  lemma PortsLowest(x: bv32)
    ensures Bits.Ports(Bits.And(x, Bits.Bit(0))) == Bits.Ports(x) * {0}
  {
    hide Bits.And, Bits.Bit;
    forall p: nat | p < Bits.POSITIONS ensures Bits.Test(Bits.And(x, Bits.Bit(0)), p) <==> p == 0 && Bits.Test(x, p) {
      Bits.AndAssociates(x, Bits.Bit(0), Bits.Bit(p));
      Bits.AndSame(Bits.Bit(0));
      Bits.AndSame(x);
      if p != 0 { Bits.BitsApart(0, p); }
    }
    hide Bits.Test;
  }

  lemma AnyChangeTells(c: bv32, e: bv32, s: bv32, r: bv32, o: bv32)
    ensures Bits.Ports(AnyChange(c, e, s, r, o)) == Bits.Ports(c) + Bits.Ports(e) + Bits.Ports(s) + Bits.Ports(r) + Bits.Ports(o)
  {
    hide Bits.Ports, Bits.Or;
    PortsOr(c, e);
    PortsOr(Bits.Or(c, e), s);
    PortsOr(Bits.Or(Bits.Or(c, e), s), r);
    PortsOr(Bits.Or(Bits.Or(Bits.Or(c, e), s), r), o);
  }

  /** The mask has the bits of the ports with any change, and bit 0 for the hub's over-current change. */
  lemma ChangeMaskTells(c: bv32, e: bv32, s: bv32, r: bv32, o: bv32)
    ensures Bits.Ports(ChangeMask(c, e, s, r, o)) ==
      (Bits.Ports(c) + Bits.Ports(e) + Bits.Ports(s) + Bits.Ports(r) + Bits.Ports(o)) - {0} + Bits.Ports(o) * {0}
  {
    hide Bits.Ports, Bits.Clear, Bits.Bit, Bits.Or, Bits.And, AnyChange;
    AnyChangeTells(c, e, s, r, o);
    Bits.PortsSetClear(AnyChange(c, e, s, r, o), 0);
    PortsLowest(o);
    PortsOr(Bits.Clear(AnyChange(c, e, s, r, o), 0), Bits.And(o, Bits.Bit(0)));
  }

  // ---- its bytes --------------------------------------------------------------------

  function ByteCount(ports: nat): nat {
    (ports + 8) / 8
  }

  function Low8(x: bv32): bv8 { (x & 0xff) as bv8 }

  function Wide(b: bv8): bv32 { b as bv32 }

  /** (mask >> (i * 8)) & 0xff. */
  function Byte(mask: bv32, i: nat): bv8 {
    Low8(Bits.Down(mask, i * 8))
  }

  /** virtusb_hcd_hub_status_data: nothing, or the bitmap from its lowest byte. */
  function StatusBytes(mask: bv32, ports: nat): (bytes: seq<bv8>)
    requires 0 < ports <= MAX_PORTS
    ensures |bytes| == if mask == 0 then 0 else if ports < 8 then 1 else if ports < 16 then 2 else if ports < 24 then 3 else 4
  {
    if mask == 0 then [] else seq(ByteCount(ports), i requires 0 <= i < ByteCount(ports) => Byte(mask, i))
  }

  predicate TestByte(b: bv8, r: nat)
    requires r < 8
  {
    Bits.Test(Wide(b), r)
  }

  /** What a host reads from the bytes, section 11.12.4 of the USB 2.0 specification:
      bit r of byte i is the change bit of port 8 * i + r, port 0 being the hub. */
  function HostReads(bytes: seq<bv8>): set<nat> {
    set p: nat | p < 8 * |bytes| && TestByte(bytes[p / 8], p % 8)
  }

  lemma Low8Is(x: bv32)
    ensures Wide(Low8(x)) == Bits.And(x, 255)
  {
  }

  lemma InByte(r: nat)
    requires r < 8
    ensures Bits.And(255, Bits.Bit(r)) == Bits.Bit(r)
  {
    hide Bits.And, Bits.Up;
    Bits.MaskHas(8, r);
    Bits.LowBits();
  }

  /** The bits of a byte. */
  lemma ByteBits(b: bv8, r: nat)
    requires r < 8
    ensures TestByte(b, r) <==> b & [1, 2, 4, 8, 16, 32, 64, 128][r] != 0
  {
    LowPlaces();
    WideAnd(b, [1, 2, 4, 8, 16, 32, 64, 128][r]);
    hide Bits.And, Bits.Up, Wide;
  }

  lemma LowPlaces()
    ensures Bits.Bit(0) == 1 && Bits.Bit(1) == 2 && Bits.Bit(2) == 4 && Bits.Bit(3) == 8
    ensures Bits.Bit(4) == 16 && Bits.Bit(5) == 32 && Bits.Bit(6) == 64 && Bits.Bit(7) == 128
  {
    assert Bits.Bit(0) == 1;
    Bits.LowBits();
    Bits.Few(4);
    Bits.Few(16);
    Bits.UpUp(1, 2, 1);
    Bits.UpUp(1, 4, 1);
    Bits.UpUp(1, 4, 2);
    Bits.Few(64);
    Bits.UpUp(1, 6, 1);
    hide Bits.Up;
  }

  lemma WideAnd(b: bv8, c: bv8)
    ensures Bits.And(Wide(b), Wide(c)) == 0 <==> b & c == 0
    ensures Wide(1) == 1 && Wide(2) == 2 && Wide(4) == 4 && Wide(8) == 8
    ensures Wide(16) == 16 && Wide(32) == 32 && Wide(64) == 64 && Wide(128) == 128
  {
  }

  /** A bit of a byte still has room when the byte stands higher in the word. */
  lemma InWord(i: nat, r: nat)
    requires i < 4 && r < 8
    ensures Bits.And(Bits.Bit(r), Bits.Down(Bits.ALL, i * 8)) == Bits.Bit(r)
  {
    hide Bits.And, Bits.Up, Bits.Down;
    InByte(r);
    Bits.LastBits();
    Bits.DownAllStays(i * 8, 24 - i * 8);
    Bits.AndAssociates(Bits.Down(Bits.ALL, i * 8), 255, Bits.Bit(r));
    Bits.AndCommutes(Bits.Bit(r), Bits.Down(Bits.ALL, i * 8));
  }

  /** Bit r of byte i is bit 8 * i + r of the mask. */
  lemma ByteTells(mask: bv32, i: nat, r: nat)
    requires i < 4 && r < 8
    ensures TestByte(Byte(mask, i), r) <==> Bits.Test(mask, i * 8 + r)
  {
    hide Bits.And, Bits.Up, Bits.Down, Low8, Wide;
    var shifted, bit, at := Bits.Down(mask, i * 8), Bits.Bit(r), Bits.Bit(i * 8 + r);
    Low8Is(shifted);
    Bits.AndAssociates(shifted, 255, bit);
    InByte(r);
    Bits.ReadByField(mask, bit, i * 8);
    Bits.UpUp(1, r, i * 8);
    Bits.AllOrNothing(mask, i * 8 + r);
    Bits.UpDown(bit, i * 8);
    InWord(i, r);
    Bits.BitNotZero(r);
    Bits.BitNotZero(i * 8 + r);
    Bits.DownZero(i * 8);
  }

  /** The host reads back exactly the set of changes, for every size of hub; and no
      bytes are returned exactly when there is no change. */
  lemma StatusRoundTrip(mask: bv32, ports: nat)
    requires 0 < ports <= MAX_PORTS && forall p: nat :: p in Bits.Ports(mask) ==> p <= ports
    ensures HostReads(StatusBytes(mask, ports)) == Bits.Ports(mask)
    ensures StatusBytes(mask, ports) == [] <==> Bits.Ports(mask) == {}
  {
    var bytes := StatusBytes(mask, ports);
    Bits.PortsNone();
    if mask != 0 {
      Bits.SomePort(mask);
      assert ports < 8 * |bytes| <= 32;
      forall p: nat | p < 8 * |bytes| ensures TestByte(bytes[p / 8], p % 8) <==> Bits.Test(mask, p) {
        ByteTells(mask, p / 8, p % 8);
      }
      hide TestByte, Byte, Bits.Test;
    }
  }

  /** In a state that keeps the invariant, no change bit lies outside the ports. */
  lemma ChangesWithin(w: World)
    requires Inv(w)
    ensures forall p: nat :: p in Changed(w) ==> 0 < p <= |w.hub.ports|
  {
  }

  /** virtusb_hcd_port_change_mask, from the registers. */
  method ReadChanges(hub: Hubs.Hub) returns (changes: bv32)
    requires hub.Shows()
    ensures Bits.Ports(changes) == Changed(hub.w)
  {
    changes := ChangeMask(hub.cConnected, hub.cEnabled, hub.cSuspended, hub.cReset, hub.cOverCurrent);
    ChangeMaskTells(hub.cConnected, hub.cEnabled, hub.cSuspended, hub.cReset, hub.cOverCurrent);
    hide Bits.Ports, ChangeMask, Hubs.Packs, Hubs.Wired;
  }

  /** The loop of virtusb_hcd_hub_status_data. */
  method FillBytes(changes: bv32, ports: nat, buf: array<bv8>) returns (count: nat)
    requires 0 < ports <= MAX_PORTS && buf.Length >= 4
    modifies buf
    ensures count <= 4 && buf[..count] == StatusBytes(changes, ports) && buf[count..] == old(buf[count..])
    ensures count == if changes == 0 then 0 else if ports < 8 then 1 else if ports < 16 then 2 else if ports < 24 then 3 else 4
  {
    if changes == 0 {
      return 0;
    }
    hide Byte;
    count := ByteCount(ports);
    var i := 0;
    while i < count
      invariant i <= count <= 4 && buf[count..] == old(buf[count..])
      invariant forall k :: 0 <= k < i ==> buf[k] == Byte(changes, k)
    {
      buf[i] := Byte(changes, i);
      i := i + 1;
    }
  }

  /** The bit of position p in the bytes a host reads. */
  lemma ReadsBit(bytes: seq<bv8>, p: nat)
    ensures p in HostReads(bytes) <==> p < 8 * |bytes| && bytes[p / 8] & [1, 2, 4, 8, 16, 32, 64, 128][p % 8] != 0
  {
    hide TestByte;
    if p < 8 * |bytes| { ByteBits(bytes[p / 8], p % 8); }
  }

  /** The bytes a host reads the pending changes from tell of each port which it has. */
  lemma StatusTells(bytes: seq<bv8>, w: World)
    requires HostReads(bytes) == Changed(w)
    ensures forall p: nat :: p < 8 * |bytes| ==>
      (bytes[p / 8] & [1, 2, 4, 8, 16, 32, 64, 128][p % 8] != 0 <==>
        p in w.hub.cOverCurrent
        || (p > 0 && (p in w.hub.cConnected || p in w.hub.cEnabled || p in w.hub.cSuspended || p in w.hub.cReset)))
  {
    forall p: nat | p < 8 * |bytes|
      ensures p in Changed(w) <==> bytes[p / 8] & [1, 2, 4, 8, 16, 32, 64, 128][p % 8] != 0
    {
      hide Changed, HostReads;
      ReadsBit(bytes, p);
    }
    hide HostReads;
  }

  /** The same in terms of what the host reads. */
  method FillStatus(hub: Hubs.Hub, buf: array<bv8>) returns (count: nat)
    requires hub.Shows() && Inv(hub.w) && buf.Length >= 4
    modifies buf
    ensures count == if Changed(hub.w) == {} then 0
      else if |hub.ports| < 8 then 1 else if |hub.ports| < 16 then 2 else if |hub.ports| < 24 then 3 else 4
    ensures HostReads(buf[..count]) == Changed(hub.w) && buf[count..] == old(buf[count..])
  {
    hub.Shown();
    ChangesWithin(hub.w);
    ghost var w := hub.w;
    var ports := |hub.ports|;
    var changes := ReadChanges(hub);
    hide Bits.Ports, Changed, Hubs.Hub.Shows, HostReads, StatusBytes;
    StatusRoundTrip(changes, ports);
    count := FillBytes(changes, ports, buf);
  }

  /** virtusb_hcd_hub_status_data: nothing if no change is pending; otherwise one bit for the hub and one for each
      port, lowest first, in as few bytes as hold them: the hub's bit tells its over-current change alone, and
      a port's bit any change of it. */
  method HubStatusData(hub: Hubs.Hub, buf: array<bv8>) returns (count: nat)
    requires hub.Shows() && Inv(hub.w) && buf.Length >= 4
    modifies buf
    ensures count == if Changed(hub.w) == {} then 0
      else if |hub.ports| < 8 then 1 else if |hub.ports| < 16 then 2 else if |hub.ports| < 24 then 3 else 4
    ensures HostReads(buf[..count]) == Changed(hub.w)
    ensures forall p: nat :: p < 8 * count ==>
      (buf[p / 8] & [1, 2, 4, 8, 16, 32, 64, 128][p % 8] != 0 <==>
        p in hub.w.hub.cOverCurrent
        || (p > 0 && (p in hub.w.hub.cConnected || p in hub.w.hub.cEnabled || p in hub.w.hub.cSuspended || p in hub.w.hub.cReset)))
    ensures buf[count..] == old(buf[count..])
  {
    hide Bits.Ports, Hubs.Hub.Shows, HostReads, StatusBytes, Changed, Inv;
    count := FillStatus(hub, buf);
    StatusTells(buf[..count], hub.w);
  }

  // ---- a port's state, encoded twice ---------------------------------------------------

  /** What a port's status and change words are about. */
  datatype Facts = Facts(connected: bool, enabled: bool, suspended: bool, overCurrent: bool, reset: bool, powered: bool)

  /** Position 0 is the hub itself. */
  function StatusFacts(w: World, p: nat): Facts {
    Facts(p > 0 && w.Connected(p), p in w.hub.enabled, p in w.hub.suspended,
          if p == 0 then w.HubOverCurrent() else w.PortOverCurrent(p), p in w.hub.reset, p > 0 && w.Powered(p))
  }

  function ChangeFacts(w: World, p: nat): Facts {
    Facts(p in w.hub.cConnected, p in w.hub.cEnabled, p in w.hub.cSuspended, p in w.hub.cOverCurrent, p in w.hub.cReset, false)
  }

  /** Facts as the bits of wPortStatus and wPortChange, tables 11-21 and 11-22 of the USB 2.0 specification. */
  function Pack(f: Facts): bv16 {
    (if f.connected then 0x0001 else 0) | (if f.enabled then 0x0002 else 0) | (if f.suspended then 0x0004 else 0)
    | (if f.overCurrent then 0x0008 else 0) | (if f.reset then 0x0010 else 0) | (if f.powered then 0x0100 else 0)
  }

  function Unpack(word: bv16): Facts {
    Facts(word & 0x0001 != 0, word & 0x0002 != 0, word & 0x0004 != 0, word & 0x0008 != 0, word & 0x0010 != 0, word & 0x0100 != 0)
  }

  /** The speed bits of wPortStatus; full speed has none. */
  function SpeedBits(s: Speed): bv16 {
    match s case Low => 0x0200 case High => 0x0400 case NoSpeed => 0 case Full => 0
  }

  /** The speed a host reads for an enabled port. */
  function SpeedRead(word: bv16): Speed {
    if word & 0x0200 != 0 then Low else if word & 0x0400 != 0 then High else Full
  }

  lemma PackTells(f: Facts, s: Speed)
    ensures Unpack(Pack(f) | SpeedBits(s)) == f
    ensures s != NoSpeed ==> SpeedRead(Pack(f) | SpeedBits(s)) == s
    ensures (Pack(f) | SpeedBits(s)) & !0x0600 == Pack(f)
  {
  }

  /** The bits of a status or change word, one by one. */
  lemma WordBits(f: Facts, s: Speed)
    ensures var x := Pack(f) | SpeedBits(s);
      && (x & 0x0001 != 0 <==> f.connected) && (x & 0x0002 != 0 <==> f.enabled) && (x & 0x0004 != 0 <==> f.suspended)
      && (x & 0x0008 != 0 <==> f.overCurrent) && (x & 0x0010 != 0 <==> f.reset) && (x & 0x0100 != 0 <==> f.powered)
      && (x & 0x0200 != 0 <==> s == Low) && (x & 0x0400 != 0 <==> s == High) && x & 0xF8E0 == 0
  {
  }

  lemma NoPower(f: Facts)
    requires !f.powered
    ensures Pack(f) & 0xFFE0 == 0
  {
  }

  /** What the facts of port p are, in the state itself; position 0 is the hub. */
  lemma FactsOf(w: World, p: nat)
    requires p <= |w.hub.ports|
    ensures var f := StatusFacts(w, p);
      && f.connected == w.Connected(p) && f.enabled == (p in w.hub.enabled) && f.suspended == (p in w.hub.suspended)
      && f.reset == (p in w.hub.reset) && f.powered == (p > 0 && w.hub.ports[p - 1].powered)
      && f.overCurrent == (if p == 0 then w.hub.overCurrentMode == Global && w.hub.overCurrent
                           else w.hub.overCurrentMode == PerPort && w.hub.ports[p - 1].overCurrent)
    ensures var f := ChangeFacts(w, p);
      && f.connected == (p in w.hub.cConnected) && f.enabled == (p in w.hub.cEnabled) && f.suspended == (p in w.hub.cSuspended)
      && f.overCurrent == (p in w.hub.cOverCurrent) && f.reset == (p in w.hub.cReset) && !f.powered
  {
  }

  // The host controller's encoder.

  const STAT_CONNECTION: bv16 := 0x0001
  const STAT_ENABLE: bv16 := 0x0002
  const STAT_SUSPEND: bv16 := 0x0004
  const STAT_OVERCURRENT: bv16 := 0x0008
  const STAT_RESET: bv16 := 0x0010
  const STAT_POWER: bv16 := 0x0100
  const STAT_LOW_SPEED: bv16 := 0x0200
  const STAT_HIGH_SPEED: bv16 := 0x0400

  /** wPortStatus of these facts and this speed. */
  function StatusWord(f: Facts, s: Speed): bv16 {
    Pack(f) | SpeedBits(s)
  }

  method HcdStatusWord(connected: bool, enabled: bool, suspended: bool, overCurrent: bool, reset: bool, powered: bool,
                       code: bv32, ghost s: Speed)
    returns (status: bv16)
    requires code == Hubs.Code(s)
    ensures status == StatusWord(Facts(connected, enabled, suspended, overCurrent, reset, powered), s)
  {
    status := 0;
    if connected { status := status | STAT_CONNECTION; }
    if enabled { status := status | STAT_ENABLE; }
    if suspended { status := status | STAT_SUSPEND; }
    if overCurrent { status := status | STAT_OVERCURRENT; }
    if reset { status := status | STAT_RESET; }
    if powered { status := status | STAT_POWER; }
    if code == 1 {
      status := status | STAT_LOW_SPEED;
    } else if code == 3 {
      status := status | STAT_HIGH_SPEED;
    }
  }

  /** virtusb_hcd_build_port_status. */
  method HcdPortStatus(hub: Hubs.Hub, p: nat) returns (status: bv16)
    requires hub.Shows() && 0 < p <= |hub.ports|
    ensures status == StatusWord(StatusFacts(hub.w, p), hub.w.SpeedOf(p)) && p <= |hub.w.hub.ports|
    ensures var w := hub.w;
      && (status & 0x0001 != 0 <==> w.Connected(p)) && (status & 0x0002 != 0 <==> p in w.hub.enabled)
      && (status & 0x0004 != 0 <==> p in w.hub.suspended) && (status & 0x0010 != 0 <==> p in w.hub.reset)
      && (status & 0x0008 != 0 <==> w.hub.overCurrentMode == PerPort && w.hub.ports[p - 1].overCurrent)
      && (status & 0x0100 != 0 <==> w.hub.ports[p - 1].powered) && (status & 0x0200 != 0 <==> w.SpeedOf(p) == Low)
      && (status & 0x0400 != 0 <==> w.SpeedOf(p) == High) && status & 0xF8E0 == 0
  {
    hub.Shown();
    TestRegisters(hub, p);
    WordBits(StatusFacts(hub.w, p), hub.w.SpeedOf(p));
    FactsOf(hub.w, p);
    hide Bits.Test, Bits.Ports, Hubs.Wired, Hubs.Packs, StatusWord, Hubs.Code, World.Connected, World.PortOverCurrent;
    var connected, overCurrent, powered, code := Derived(hub, p);
    status := HcdStatusWord(connected, Bits.Test(hub.enabled, p), Bits.Test(hub.suspended, p), overCurrent,
                            Bits.Test(hub.reset, p), powered, code, hub.w.SpeedOf(p));
  }

  const STAT_C_CONNECTION: bv16 := 0x0001
  const STAT_C_ENABLE: bv16 := 0x0002
  const STAT_C_SUSPEND: bv16 := 0x0004
  const STAT_C_OVERCURRENT: bv16 := 0x0008
  const STAT_C_RESET: bv16 := 0x0010

  method HcdChangeWord(connected: bool, enabled: bool, suspended: bool, overCurrent: bool, reset: bool) returns (change: bv16)
    ensures change == Pack(Facts(connected, enabled, suspended, overCurrent, reset, false))
  {
    change := 0;
    if connected { change := change | STAT_C_CONNECTION; }
    if enabled { change := change | STAT_C_ENABLE; }
    if suspended { change := change | STAT_C_SUSPEND; }
    if overCurrent { change := change | STAT_C_OVERCURRENT; }
    if reset { change := change | STAT_C_RESET; }
  }

  /** virtusb_hcd_build_port_change. */
  method HcdPortChange(hub: Hubs.Hub, p: nat) returns (change: bv16)
    requires hub.Shows() && 0 < p <= |hub.ports|
    ensures change == Pack(ChangeFacts(hub.w, p))
    ensures var w := hub.w;
      && (change & 0x0001 != 0 <==> p in w.hub.cConnected) && (change & 0x0002 != 0 <==> p in w.hub.cEnabled)
      && (change & 0x0004 != 0 <==> p in w.hub.cSuspended) && (change & 0x0008 != 0 <==> p in w.hub.cOverCurrent)
      && (change & 0x0010 != 0 <==> p in w.hub.cReset) && change & 0xFFE0 == 0
  {
    hub.Shown();
    TestRegisters(hub, p);
    WordBits(ChangeFacts(hub.w, p), NoSpeed);
    OrZero(Pack(ChangeFacts(hub.w, p)));
    NoPower(ChangeFacts(hub.w, p));
    FactsOf(hub.w, p);
    hide Bits.Test, Bits.Ports, Hubs.Wired, Hubs.Packs, Pack;
    change := HcdChangeWord(Bits.Test(hub.cConnected, p), Bits.Test(hub.cEnabled, p), Bits.Test(hub.cSuspended, p),
                            Bits.Test(hub.cOverCurrent, p), Bits.Test(hub.cReset, p));
  }

  // The control plane's encoder.

  /** struct virtusb_port_state. */
  datatype PortState = PortState(status: bv32, change: bv32, speed: bv32)

  const STATUS_CONNECTED: bv32 := 1
  const STATUS_ENABLED: bv32 := 1 << 1
  const STATUS_SUSPENDED: bv32 := 1 << 2
  const STATUS_OVER_CURRENT: bv32 := 1 << 3
  const STATUS_RESET: bv32 := 1 << 4
  const STATUS_POWER: bv32 := 1 << 8

  method StateWord(connected: bool, enabled: bool, suspended: bool, overCurrent: bool, reset: bool, powered: bool)
    returns (word: bv32)
    ensures word == Pack(Facts(connected, enabled, suspended, overCurrent, reset, powered)) as bv32
  {
    word := 0;
    if connected { word := word | STATUS_CONNECTED; }
    if enabled { word := word | STATUS_ENABLED; }
    if suspended { word := word | STATUS_SUSPENDED; }
    if overCurrent { word := word | STATUS_OVER_CURRENT; }
    if reset { word := word | STATUS_RESET; }
    if powered { word := word | STATUS_POWER; }
  }

  /** What build_port_state asks the hub model; the hub itself is neither connected nor powered. */
  method Derived(hub: Hubs.Hub, p: nat) returns (connected: bool, overCurrent: bool, powered: bool, speed: bv32)
    requires hub.Shows() && p <= |hub.ports|
    ensures connected == StatusFacts(hub.w, p).connected && overCurrent == StatusFacts(hub.w, p).overCurrent
    ensures powered == StatusFacts(hub.w, p).powered && speed == Hubs.Code(if p == 0 then NoSpeed else hub.w.SpeedOf(p))
  {
    connected, powered, speed := false, false, Hubs.Code(NoSpeed);
    overCurrent := hub.overCurrentMode == Global && hub.overCurrent;
    if p > 0 {
      hub.Shown();
      hide Hubs.Packs, Hubs.Code;
      connected := hub.IsConnected(p);
      powered := hub.IsPowered(p);
      overCurrent := hub.IsOverCurrent(p);
      speed := hub.GetSpeed(p);
    }
  }

  /** The codes of the speeds. */
  lemma SpeedCodes()
    ensures Hubs.Code(NoSpeed) == 0 && Hubs.Code(Low) == 1 && Hubs.Code(Full) == 2 && Hubs.Code(High) == 3
  {
  }

  /** The bits of the control plane's words. */
  lemma StateBits(f: Facts)
    ensures var x := Pack(f) as bv32;
      && (x & 1 != 0 <==> f.connected) && (x & 2 != 0 <==> f.enabled) && (x & 4 != 0 <==> f.suspended) && (x & 8 != 0 <==> f.overCurrent)
      && (x & 16 != 0 <==> f.reset) && (x & 256 != 0 <==> f.powered) && x & !287 == 0 && (!f.powered ==> x & !31 == 0)
  {
  }

  /** The queries of build_port_state, one after the other. */
  method BuildState(hub: Hubs.Hub, p: nat) returns (state: PortState)
    requires hub.Shows() && p <= |hub.ports|
    ensures state.status == Pack(StatusFacts(hub.w, p)) as bv32
    ensures state.change == Pack(ChangeFacts(hub.w, p)) as bv32
    ensures state.speed == Hubs.Code(if p == 0 then NoSpeed else hub.w.SpeedOf(p)) && p <= |hub.w.hub.ports|
  {
    hub.Shown();
    TestRegisters(hub, p);
    hide Bits.Test, Bits.Ports, Hubs.Wired, Hubs.Packs, Pack, Hubs.Code, World.Connected, World.PortOverCurrent;
    var connected, overCurrent, powered, speed := Derived(hub, p);
    var status := StateWord(connected, Bits.Test(hub.enabled, p), Bits.Test(hub.suspended, p), overCurrent,
                            Bits.Test(hub.reset, p), powered);
    var change := StateWord(Bits.Test(hub.cConnected, p), Bits.Test(hub.cEnabled, p), Bits.Test(hub.cSuspended, p),
                            Bits.Test(hub.cOverCurrent, p), Bits.Test(hub.cReset, p), false);
    state := PortState(status, change, speed);
  }

  /** virtusb_control_build_port_state; position 0 is the hub. */
  method ControlPortState(hub: Hubs.Hub, p: nat) returns (state: PortState)
    requires hub.Shows() && p <= |hub.ports|
    ensures state.status == Pack(StatusFacts(hub.w, p)) as bv32
    ensures state.change == Pack(ChangeFacts(hub.w, p)) as bv32
    ensures state.speed == Hubs.Code(if p == 0 then NoSpeed else hub.w.SpeedOf(p)) && p <= |hub.w.hub.ports|
    ensures var w, x := hub.w, state.status;
      && (x & 1 != 0 <==> w.Connected(p)) && (x & 2 != 0 <==> p in w.hub.enabled) && (x & 4 != 0 <==> p in w.hub.suspended)
      && (x & 16 != 0 <==> p in w.hub.reset) && (x & 256 != 0 <==> p > 0 && w.hub.ports[p - 1].powered) && x & !287 == 0
      && (x & 8 != 0 <==> if p == 0 then w.hub.overCurrentMode == Global && w.hub.overCurrent
                          else w.hub.overCurrentMode == PerPort && w.hub.ports[p - 1].overCurrent)
    ensures var w, x := hub.w, state.change;
      && (x & 1 != 0 <==> p in w.hub.cConnected) && (x & 2 != 0 <==> p in w.hub.cEnabled) && (x & 4 != 0 <==> p in w.hub.cSuspended)
      && (x & 8 != 0 <==> p in w.hub.cOverCurrent) && (x & 16 != 0 <==> p in w.hub.cReset) && x & !31 == 0
    ensures p > 0 ==>
      state.speed == match hub.w.SpeedOf(p) case NoSpeed => 0 case Low => 1 case Full => 2 case High => 3
  {
    StateBits(StatusFacts(hub.w, p));
    StateBits(ChangeFacts(hub.w, p));
    FactsOf(hub.w, p);
    SpeedCodes();
    hide Bits.Test, Bits.Ports, Hubs.Wired, Hubs.Packs, Pack, Hubs.Code, World.Connected, World.PortOverCurrent, StatusFacts, ChangeFacts;
    state := BuildState(hub, p);
  }

  /** The loop of virtusb_control_get_port_status: one entry for each port, in order. */
  method ControlPorts(hub: Hubs.Hub) returns (states: seq<PortState>)
    requires hub.Shows()
    ensures |states| == |hub.ports|
    ensures forall i :: 0 <= i < |states| ==> States(hub.w, i + 1, states[i])
  {
    states := [];
    var port := 1;
    while port <= |hub.ports|
      invariant 1 <= port == |states| + 1 <= |hub.ports| + 1
      invariant forall i :: 0 <= i < |states| ==> States(hub.w, i + 1, states[i])
    {
      var state := ControlPortState(hub, port);
      hide Hubs.Hub.Shows, Pack;
      states := states + [state];
      port := port + 1;
    }
  }

  /** The state tells everything about the port. */
  ghost predicate States(w: World, p: nat, state: PortState) {
    && state.status == Pack(StatusFacts(w, p)) as bv32 && state.change == Pack(ChangeFacts(w, p)) as bv32
    && state.speed == Hubs.Code(w.SpeedOf(p))
  }

  /** Both encoders tell the same of every port, and all of it: each word decodes to the
      facts, the words differ in nothing but the host's speed bits, and wherever the port
      is enabled those give the speed that the control plane reports. */
  lemma EncodersAgree(w: World, p: nat, status: bv16, change: bv16, state: PortState)
    requires Reachable(w) && w.PortValid(p)
    requires status == StatusWord(StatusFacts(w, p), w.SpeedOf(p)) && change == Pack(ChangeFacts(w, p))
    requires States(w, p, state)
    ensures state.status == (status & !0x0600) as bv32 && state.change == change as bv32
    ensures Unpack(status) == StatusFacts(w, p) && Unpack(change) == ChangeFacts(w, p)
    ensures StatusFacts(w, p).enabled ==> state.speed == Hubs.Code(SpeedRead(status))
    ensures (status & 0x0200 != 0 <==> state.speed == Hubs.Code(Low)) && (status & 0x0400 != 0 <==> state.speed == Hubs.Code(High))
  {
    PackTells(StatusFacts(w, p), w.SpeedOf(p));
    PackTells(ChangeFacts(w, p), NoSpeed);
    SpeedBitsTell(StatusFacts(w, p), w.SpeedOf(p));
    StoredAgreesWithLink(w);
    OrZero(change);
    hide Pack, Unpack, SpeedRead, Hubs.Code, SpeedBits;
  }

  lemma OrZero(x: bv16)
    ensures x | SpeedBits(NoSpeed) == x
  {
  }

  lemma SpeedBitsTell(f: Facts, s: Speed)
    ensures (Pack(f) | SpeedBits(s)) & 0x0200 != 0 <==> Hubs.Code(s) == Hubs.Code(Low)
    ensures (Pack(f) | SpeedBits(s)) & 0x0400 != 0 <==> Hubs.Code(s) == Hubs.Code(High)
  {
  }

  lemma TestRegisters(hub: Hubs.Hub, p: nat)
    requires hub.Registers() && p < Bits.POSITIONS
    ensures Bits.Test(hub.enabled, p) == (p in hub.w.hub.enabled) && Bits.Test(hub.suspended, p) == (p in hub.w.hub.suspended)
    ensures Bits.Test(hub.reset, p) == (p in hub.w.hub.reset) && Bits.Test(hub.cConnected, p) == (p in hub.w.hub.cConnected)
    ensures Bits.Test(hub.cEnabled, p) == (p in hub.w.hub.cEnabled) && Bits.Test(hub.cSuspended, p) == (p in hub.w.hub.cSuspended)
    ensures Bits.Test(hub.cReset, p) == (p in hub.w.hub.cReset) && Bits.Test(hub.cOverCurrent, p) == (p in hub.w.hub.cOverCurrent)
  {
    hide Bits.Test;
  }
}
