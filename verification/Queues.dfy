/** The spinlock-protected state of the transfer backend, and each locked
    section of virtusb_backend.c as a function from that state to the next. */
module Queues {
  import opened Wrappers

  type Owner = nat   // an open file description
  type Urb = nat     // a Linux URB
  type Device = nat  // a virtual device

  datatype Binding = Binding(owner: Owner, device: Device)

  /** A queued request. `id` and `device` are fields of the transfer it holds;
      `serial` is its position in the order in which requests were accepted. */
  datatype Request = Request(urb: Urb, id: nat, device: Device, owner: Option<Owner>, serial: nat)

  /** What the list walks of the backend look for. */
  datatype Key =
    | OfUrb(urb: Urb)
    | OfDevice(device: Device)
    | OfId(owner: Owner, id: nat)
    | OfDeviceAndOwner(device: Device, owner: Owner)

  predicate Matches(r: Request, key: Key) {
    match key
    case OfUrb(u) => r.urb == u
    case OfDevice(d) => r.device == d
    case OfId(o, id) => r.owner == Some(o) && r.id == id
    case OfDeviceAndOwner(d, o) => r.device == d && r.owner == Some(o)
  }

  /** Position of the first request that matches, or |rs|. */
  function FirstOf(rs: seq<Request>, key: Key): (i: nat)
    ensures i <= |rs|
    ensures i < |rs| ==> Matches(rs[i], key)
    ensures forall j :: 0 <= j < i ==> !Matches(rs[j], key)
  {
    if rs == [] || Matches(rs[0], key) then 0 else 1 + FirstOf(rs[1..], key)
  }

  /** The first match is the only position that matches with no match before it. */
  lemma FirstOfIs(rs: seq<Request>, key: Key, i: nat)
    requires i <= |rs|
    requires i < |rs| ==> Matches(rs[i], key)
    requires forall j :: 0 <= j < i ==> !Matches(rs[j], key)
    ensures FirstOf(rs, key) == i
  {
  }

  function OwnerAt(bs: seq<Binding>, o: Owner): (i: nat)
    ensures i <= |bs|
    ensures i < |bs| ==> bs[i].owner == o
    ensures forall j :: 0 <= j < i ==> bs[j].owner != o
  {
    if bs == [] || bs[0].owner == o then 0 else 1 + OwnerAt(bs[1..], o)
  }

  function DeviceAt(bs: seq<Binding>, d: Device): (i: nat)
    ensures i <= |bs|
    ensures i < |bs| ==> bs[i].device == d
    ensures forall j :: 0 <= j < i ==> bs[j].device != d
  {
    if bs == [] || bs[0].device == d then 0 else 1 + DeviceAt(bs[1..], d)
  }

  function Without<A>(xs: seq<A>, i: nat): (ys: seq<A>)
    requires i < |xs|
    ensures |ys| == |xs| - 1
    ensures forall j :: 0 <= j < i ==> ys[j] == xs[j]
    ensures forall j :: i <= j < |ys| ==> ys[j] == xs[j + 1]
  {
    xs[..i] + xs[i + 1..]
  }

  /** Where a request stands. */
  datatype Slot = Pending(index: nat) | Active(index: nat) | Nowhere

  datatype Queue = Queue(bindings: seq<Binding>, pending: seq<Request>, active: seq<Request>, stopping: bool) {

    predicate Owned(o: Owner) { OwnerAt(bindings, o) < |bindings| }

    predicate Bound(d: Device) { DeviceAt(bindings, d) < |bindings| }

    function DeviceOf(o: Owner): Device
      requires Owned(o)
    {
      bindings[OwnerAt(bindings, o)].device
    }

    predicate HasPending(d: Device) { FirstOf(pending, OfDevice(d)) < |pending| }

    /** The wait predicate of a fetch. */
    predicate Ready(o: Owner) {
      stopping || (Owned(o) && HasPending(DeviceOf(o)))
    }

    /** Locked section of virtusb_backend_register. */
    function Register(o: Owner, d: Device): Result<Queue> {
      if stopping then Failure(ESHUTDOWN)
      else if Owned(o) || Bound(d) then Failure(EBUSY)
      else Success(this.(bindings := bindings + [Binding(o, d)]))
    }

    /** Locked section of virtusb_backend_submit; `link` is the outcome of
        linking the URB to its endpoint. */
    function Submit(r: Request, link: Option<Errno>): Result<Queue> {
      if stopping then Failure(ESHUTDOWN)
      else if !Bound(r.device) then Failure(ENODEV)
      else match link
        case Some(e) => Failure(e)
        case None => Success(this.(pending := pending + [r]))
    }

    /** Locked section of virtusb_backend_fetch. */
    function Fetch(o: Owner): Result<(Request, Queue)> {
      if !Owned(o) then Failure(ENODEV)
      else if HasPending(DeviceOf(o)) then
        var i := FirstOf(pending, OfDevice(DeviceOf(o)));
        var r := pending[i].(owner := Some(o));
        Success((r, this.(pending := Without(pending, i), active := active + [r])))
      else if stopping then Failure(ESHUTDOWN)
      else Failure(EAGAIN)
    }

    /** Locked section of virtusb_backend_fetch_rollback. */
    function Rollback(o: Owner, id: nat): Result<Queue> {
      var i := FirstOf(active, OfId(o, id));
      if i == |active| then Failure(ENOENT)
      else Success(this.(active := Without(active, i), pending := [active[i].(owner := None)] + pending))
    }

    predicate HasSlot(s: Slot) {
      match s
      case Pending(i) => i < |pending|
      case Active(i) => i < |active|
      case Nowhere => false
    }

    function At(s: Slot): Request
      requires HasSlot(s)
    {
      if s.Pending? then pending[s.index] else active[s.index]
    }

    function Detach(s: Slot): Queue
      requires HasSlot(s)
    {
      if s.Pending? then this.(pending := Without(pending, s.index))
      else this.(active := Without(active, s.index))
    }

    function PendingOr(key: Key, other: Slot): Slot {
      var i := FirstOf(pending, key);
      if i < |pending| then Pending(i) else other
    }

    function ActiveSlot(key: Key): Slot {
      var i := FirstOf(active, key);
      if i < |active| then Active(i) else Nowhere
    }

    /** The request virtusb_backend_cancel detaches. */
    function SlotOfUrb(u: Urb): Slot {
      PendingOr(OfUrb(u), ActiveSlot(OfUrb(u)))
    }

    /** The request virtusb_backend_complete detaches. */
    function SlotOfId(o: Owner, id: nat): Slot {
      ActiveSlot(OfId(o, id))
    }

    /** The next request one round of virtusb_backend_release_owner detaches. */
    function SlotToRelease(o: Owner, d: Device): Slot {
      PendingOr(OfDevice(d), ActiveSlot(OfDeviceAndOwner(d, o)))
    }

    /** The next request one round of virtusb_backend_stop detaches. */
    function SlotToStop(): Slot {
      if pending != [] then Pending(0) else if active != [] then Active(0) else Nowhere
    }
  }
}
