/** virtusb_transfer.c: one USB transfer, its state machine, its reference
    count and its payload. */
module Transfers {
  import opened Wrappers

  type Byte = bv8

  /** enum virtusb_transfer_state. */
  datatype XferState = New | Queued | Completed | Cancelled

  predicate Open(s: XferState) { s == New || s == Queued }

  /** VIRTUSB_TRANSFER_DATA_MAX. */
  const DATA_MAX: nat := 4096

  const CONTROL: int := 0
  const INTERRUPT: int := 3
  const OUT: int := 0
  const IN: int := 1

  /** What a URB or a transfer reports: a backend's own code, or an error. */
  datatype Status = InProgress | Reported(code: int) | Failed(error: Errno)

  /** The atomic counter behind transfer ids. */
  class TransferIds {
    var last: nat

    constructor ()
      ensures last == 0
    {
      last := 0;
    }

    method IncrementAndGet() returns (id: nat)
      modifies this
      ensures id == last == old(last) + 1
    {
      last := last + 1;
      id := last;
    }
  }

  class Transfer {
    const id: nat
    const device: nat
    const kind: int
    const direction: int
    const endpoint: nat
    const setup: Option<seq<Byte>>
    const requestedLength: nat
    ghost const payload: seq<Byte>   // what the caller's buffer held at creation
    var buffer: seq<Byte>
    var refcount: nat
    var state: XferState
    var status: Status
    var actualLength: nat
    var freed: bool

    /** The part of virtusb_transfer_create after its argument checks. An OUT
        transfer takes a copy of the caller's bytes. */
    constructor (id: nat, device: nat, kind: int, direction: int, endpoint: nat,
                 setup: Option<seq<Byte>>, data: seq<Byte>, length: nat)
      requires direction == OUT ==> |data| >= length
      ensures this.id == id && this.device == device && this.kind == kind && this.direction == direction
      ensures this.endpoint == endpoint && this.setup == setup && this.requestedLength == length
      ensures |buffer| == length && (direction == OUT ==> buffer == payload == data[..length])
      ensures refcount == 1 && state == New && status == InProgress && actualLength == 0 && !freed
    {
      this.id := id;
      this.device := device;
      this.kind := kind;
      this.direction := direction;
      this.endpoint := endpoint;
      this.setup := setup;
      this.requestedLength := length;
      this.payload := if direction == OUT then data[..length] else [];
      this.buffer := if direction == OUT then data[..length] else seq(length, _ => 0);
      this.refcount := 1;
      this.state := New;
      this.status := InProgress;
      this.actualLength := 0;
      this.freed := false;
    }

    method Get()
      requires refcount > 0
      modifies this`refcount
      ensures refcount == old(refcount) + 1
    {
      refcount := refcount + 1;
    }

    /** virtusb_transfer_put: the last reference frees the transfer. */
    method Put()
      requires refcount > 0
      modifies this`refcount, this`freed
      ensures refcount == old(refcount) - 1
      ensures freed == (old(freed) || refcount == 0)
    {
      refcount := refcount - 1;
      if refcount == 0 {
        freed := true;
      }
    }

    method MarkQueued() returns (error: Option<Errno>)
      modifies this`state
      ensures old(state) == New ==> error == None && state == Queued
      ensures old(state) != New ==> error == Some(EINVAL) && state == old(state)
    {
      if state != New {
        return Some(EINVAL);
      }
      state := Queued;
      return None;
    }

    /** virtusb_transfer_complete. */
    method Complete(newStatus: Status, actual: nat) returns (error: Option<Errno>)
      modifies this`state, this`status, this`actualLength
      ensures error == (if old(state) != New && old(state) != Queued then Some(EINVAL) else if actual > requestedLength then Some(EMSGSIZE) else None)
      ensures error == None ==> state == Completed && status == newStatus && actualLength == actual
      ensures error != None ==> state == old(state) && status == old(status) && actualLength == old(actualLength)
    {
      if state != New && state != Queued {
        return Some(EINVAL);
      }
      if actual > requestedLength {
        return Some(EMSGSIZE);
      }
      actualLength := actual;
      status := newStatus;
      state := Completed;
      return None;
    }

    /** virtusb_transfer_cancel. */
    method Cancel(newStatus: Status) returns (error: Option<Errno>)
      modifies this`state, this`status, this`actualLength
      ensures old(state) == New || old(state) == Queued ==> error == None && state == Cancelled && status == newStatus && actualLength == 0
      ensures old(state) != New && old(state) != Queued ==>
        error == Some(EINVAL) && state == old(state) && status == old(status) && actualLength == old(actualLength)
    {
      if state != New && state != Queued {
        return Some(EINVAL);
      }
      actualLength := 0;
      status := newStatus;
      state := Cancelled;
      return None;
    }
  }

  /** virtusb_transfer_create: null on a bad argument or a failed allocation. */
  method Create(ids: TransferIds, device: nat, kind: int, direction: int, endpoint: nat,
                setup: Option<seq<Byte>>, data: Option<seq<Byte>>, length: nat, memory: bool)
    returns (t: Transfer?)
    requires data.Some? ==> |data.value| >= length
    modifies ids
    ensures t != null <==>
      && 0 <= kind <= 3 && 0 <= direction <= 1 && endpoint <= 15 && (kind == 0 ==> setup.Some?)
      && (direction == 0 && length > 0 ==> data.Some?) && memory
    ensures t != null ==>
      && fresh(t) && t.id == ids.last == old(ids.last) + 1
      && t.device == device && t.kind == kind && t.direction == direction && t.endpoint == endpoint
      && t.setup == setup && t.requestedLength == length && |t.buffer| == length
      && (direction == OUT ==> t.buffer == t.payload == if data.Some? then data.value[..length] else [])
      && t.refcount == 1 && t.state == New && t.status == InProgress && !t.freed
    ensures t == null ==> ids.last == old(ids.last)
  {
    if kind < CONTROL || kind > INTERRUPT {
      return null;
    }
    if direction != OUT && direction != IN {
      return null;
    }
    if endpoint > 15 {
      return null;
    }
    if kind == CONTROL && setup == None {
      return null;
    }
    if direction == OUT && length > 0 && data == None {
      return null;
    }
    if !memory {
      return null;
    }
    var id := ids.IncrementAndGet();
    t := new Transfer(id, device, kind, direction, endpoint, setup, if data.Some? then data.value else [], length);
  }
}
