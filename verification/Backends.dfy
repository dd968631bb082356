/** virtusb_backend.c and urb_enqueue with every operation run to its end:
    lists spliced in place, transfers and URBs written, drains that loop while
    each giveback re-enters submit. The queue value `q` says what the lists
    hold; each method's contract names the locked section it performs on it. */
module Backends {
  import opened Wrappers
  import opened Queues
  import opened Transfers
  import opened Coherence
  import opened Rollbacks
  import opened Drains
  import opened Sections

  /** struct urb, as far as the driver uses it; `id` stands for its address. */
  class Urb {
    const id: nat
    const kind: int
    const direction: int
    const endpoint: nat
    const setup: Option<seq<Byte>>
    const buffer: array?<Byte>
    const length: nat          // transfer_buffer_length
    const scattered: bool      // num_sgs or number_of_packets is not zero
    var actualLength: nat

    constructor (id: nat, kind: int, direction: int, endpoint: nat, setup: Option<seq<Byte>>,
                 buffer: array?<Byte>, length: nat, scattered: bool)
      ensures this.id == id && this.kind == kind && this.direction == direction && this.endpoint == endpoint
      ensures this.setup == setup && this.buffer == buffer && this.length == length && this.scattered == scattered
    {
      this.id, this.kind, this.direction, this.endpoint := id, kind, direction, endpoint;
      this.setup, this.buffer, this.length, this.scattered := setup, buffer, length, scattered;
      this.actualLength := 0;
    }

    /** What the USB core guarantees of a URB it submits. */
    predicate Proper() {
      && CONTROL <= kind <= INTERRUPT && (direction == OUT || direction == IN)
      && (buffer != null ==> buffer.Length >= length)
      && (direction == IN && length > 0 ==> buffer != null)
    }
  }

  /** struct virtusb_hcd_request; `serial` numbers requests as submit accepts them. */
  datatype HcdRequest = HcdRequest(urb: Urb, transfer: Transfer, owner: Option<Owner>, serial: nat) {

    function Value(): Request {
      Request(urb.id, transfer.id, transfer.device, owner, serial)
    }

    /** The URB can take its transfer's bytes. */
    predicate Fits() {
      urb.Proper() && urb.direction == transfer.direction && urb.length == transfer.requestedLength <= DATA_MAX
    }

    /** The comparison of one list walk. */
    predicate Is(key: Key)
      ensures Is(key) == Matches(Value(), key)
    {
      match key
      case OfUrb(u) => urb.id == u
      case OfDevice(d) => transfer.device == d
      case OfId(o, id) => owner == Some(o) && transfer.id == id
      case OfDeviceAndOwner(d, o) => transfer.device == d && owner == Some(o)
    }
  }

  function Values(rs: seq<HcdRequest>): (qs: seq<Request>)
    ensures |qs| == |rs| && forall i :: 0 <= i < |rs| ==> qs[i] == rs[i].Value()
  {
    seq(|rs|, i requires 0 <= i < |rs| => rs[i].Value())
  }

  lemma ValuesWithout(rs: seq<HcdRequest>, i: nat)
    requires i < |rs|
    ensures Values(Without(rs, i)) == Without(Values(rs), i)
  {
  }

  lemma ValuesAdd(rs: seq<HcdRequest>, r: HcdRequest)
    ensures Values(rs + [r]) == Values(rs) + [r.Value()]
    ensures Values([r] + rs) == [r.Value()] + Values(rs)
  {
  }

  lemma KeptAdd(rs: seq<HcdRequest>, r: HcdRequest)
    requires Kept(rs) && Sound(r.transfer) && r.Fits()
    ensures Kept(rs + [r]) && Kept([r] + rs)
  {
  }

  /** A queued transfer is QUEUED and held, and holds the bytes it was created with if it goes out. */
  ghost predicate Sound(t: Transfer)
    reads t
  {
    && t.state == XferState.Queued && t.refcount > 0 && !t.freed && t.id > 0
    && |t.buffer| == t.requestedLength && (t.direction == OUT ==> t.buffer == t.payload)
  }

  ghost predicate Kept(rs: seq<HcdRequest>)
    reads set r | r in rs :: r.transfer
  {
    forall i :: 0 <= i < |rs| ==> Sound(rs[i].transfer) && rs[i].Fits()
  }

  lemma KeptWithout(rs: seq<HcdRequest>, i: nat)
    requires i < |rs| && Kept(rs)
    ensures Kept(Without(rs, i)) && Sound(rs[i].transfer) && rs[i].Fits()
  {
  }

  /** A transfer that was cancelled with this error. */
  ghost predicate Gone(t: Transfer, e: Errno)
    reads t
  {
    t.state == Cancelled && t.status == Failed(e) && t.actualLength == 0
  }

  /** No two entries share a transfer. */
  ghost predicate Separate(rs: set<HcdRequest>) {
    forall x, y :: x in rs && y in rs && x.transfer == y.transfer ==> x == y
  }

  lemma SeparateIds(rs: seq<HcdRequest>)
    requires forall i, j :: 0 <= i < j < |rs| ==> rs[i].transfer.id != rs[j].transfer.id
    ensures Separate(set r | r in rs)
  {
  }

  /** Part way through a drain, of the entries that were on the lists when their references
      were counted: what still is there has them all, and what is gone was cancelled and has
      lost the list's. */
  ghost predicate Drained(refs: map<HcdRequest, nat>, now: set<HcdRequest>, e: Errno)
    reads set r | r in refs :: r.transfer
  {
    && (forall x, y :: x in refs && y in now && x.transfer == y.transfer ==> x == y)
    && (forall x :: x in refs && x in now ==> x.transfer.refcount == refs[x])
    && (forall x :: x in refs && x !in now ==> Gone(x.transfer, e) && x.transfer.refcount + 1 == refs[x])
  }

  lemma WithoutHas(rs: seq<HcdRequest>, i: nat)
    requires i < |rs|
    ensures forall x :: x in rs ==> x == rs[i] || x in Without(rs, i)
    ensures forall x :: x in Without(rs, i) ==> x in rs
  {
    forall x | x in rs && x != rs[i] ensures x in Without(rs, i) {
      var j :| 0 <= j < |rs| && rs[j] == x;
      assert Without(rs, i)[if j < i then j else j - 1] == x;
    }
  }

  /** What submit was given under a transfer id: the URB, the device it went to, its setup
      packet, and the bytes its buffer held if it goes out. */
  datatype Sent = Sent(urb: Urb, device: Device, setup: Option<seq<Byte>>, bytes: seq<Byte>)

  function Setup(urb: Urb): Option<seq<Byte>> {
    if urb.kind == CONTROL then urb.setup else None
  }

  /** The bytes a URB takes out. */
  ghost function Bytes(urb: Urb): seq<Byte>
    reads if urb.buffer == null then {} else {urb.buffer}
  {
    if urb.direction == OUT && urb.buffer != null && urb.length <= urb.buffer.Length then urb.buffer[..urb.length] else []
  }

  /** A transfer is what was sent. */
  ghost predicate Made(t: Transfer, s: Sent) {
    && t.device == s.device && t.kind == s.urb.kind && t.direction == s.urb.direction && t.endpoint == s.urb.endpoint
    && t.requestedLength == s.urb.length && t.setup == s.setup && (t.direction == OUT ==> t.payload == s.bytes)
  }

  /** Each entry holds the URB that was sent under its transfer's id, and its transfer is what was sent. */
  ghost predicate Traced(rs: seq<HcdRequest>, sent: map<nat, Sent>) {
    forall i :: 0 <= i < |rs| ==>
      && rs[i].transfer.id in sent && rs[i].urb == sent[rs[i].transfer.id].urb
      && Made(rs[i].transfer, sent[rs[i].transfer.id])
  }

  lemma TracedAdd(rs: seq<HcdRequest>, r: HcdRequest, sent: map<nat, Sent>)
    requires Traced(rs, sent) && r.transfer.id in sent && r.urb == sent[r.transfer.id].urb
    requires Made(r.transfer, sent[r.transfer.id])
    ensures Traced(rs + [r], sent) && Traced([r] + rs, sent)
  {
  }

  lemma TracedWithout(rs: seq<HcdRequest>, i: nat, sent: map<nat, Sent>)
    requires i < |rs| && Traced(rs, sent)
    ensures Traced(Without(rs, i), sent)
    ensures rs[i].transfer.id in sent && rs[i].urb == sent[rs[i].transfer.id].urb && Made(rs[i].transfer, sent[rs[i].transfer.id])
  {
  }

  /** What was sent stays recorded. */
  ghost predicate Extended(was: map<nat, Sent>, now: map<nat, Sent>) {
    forall id :: id in was ==> id in now && now[id] == was[id]
  }

  lemma TracedMore(rs: seq<HcdRequest>, records: seq<Fetched>, was: map<nat, Sent>, now: map<nat, Sent>)
    requires Extended(was, now) && Traced(rs, was) && Borne(records, was)
    ensures Traced(rs, now) && Borne(records, now)
  {
  }

  /** How a submission fares: the allocations of the transfer and of the request, and linking to the endpoint. */
  datatype Luck = Luck(transfer: bool, request: bool, link: Option<Errno>)

  /** A URB that a completion handler submits. */
  datatype Submission = Submission(urb: Urb, device: Option<Device>, luck: Luck)

  /** struct virtusb_transfer_fetch; `data` has its fixed size. */
  datatype Fetched = Fetched(id: nat, device: Device, kind: int, direction: int, endpoint: nat,
                             setup: Option<seq<Byte>>, requestedLength: nat, dataLength: nat, data: seq<Byte>)

  function Zeros(n: nat): (s: seq<Byte>)
    ensures |s| == n && forall i :: 0 <= i < n ==> s[i] == 0
  {
    seq(n, _ => 0)
  }

  /** A fetch tells everything about a transfer: the setup packet if it has one, and
      the bytes its URB held when it was created, padded with zeros, if it goes out. */
  ghost predicate Tells(f: Fetched, t: Transfer) {
    && f.id == t.id && f.device == t.device && f.kind == t.kind && f.direction == t.direction
    && f.endpoint == t.endpoint && f.setup == t.setup && f.requestedLength == t.requestedLength
    && |f.data| == DATA_MAX && f.dataLength <= DATA_MAX
    && (t.direction == OUT ==> f.data[..f.dataLength] == t.payload)
    && (t.direction != OUT ==> f.dataLength == 0)
    && (forall i :: f.dataLength <= i < DATA_MAX ==> f.data[i] == 0)
  }

  /** A record tells what was sent: every field, the setup packet, and the bytes of an
      outgoing URB, padded with zeros. */
  ghost predicate Bears(f: Fetched, s: Sent) {
    && f.device == s.device && f.kind == s.urb.kind && f.direction == s.urb.direction && f.endpoint == s.urb.endpoint
    && f.setup == s.setup && f.requestedLength == s.urb.length && |f.data| == DATA_MAX && f.dataLength <= DATA_MAX
    && (s.urb.direction == OUT ==> f.data[..f.dataLength] == s.bytes)
    && (s.urb.direction != OUT ==> f.dataLength == 0)
    && (forall i :: f.dataLength <= i < DATA_MAX ==> f.data[i] == 0)
  }

  lemma TellsBears(f: Fetched, t: Transfer, s: Sent)
    requires Tells(f, t) && Made(t, s)
    ensures Bears(f, s)
  {
  }

  /** Every one of these records tells what was sent under its id. */
  ghost predicate Borne(records: seq<Fetched>, sent: map<nat, Sent>) {
    forall i :: 0 <= i < |records| ==> records[i].id in sent && Bears(records[i], sent[records[i].id])
  }

  lemma BorneAdd(records: seq<Fetched>, f: Fetched, sent: map<nat, Sent>)
    requires Borne(records, sent) && f.id in sent && Bears(f, sent[f.id])
    ensures Borne(records + [f], sent)
  {
  }

  lemma TellsId(f: Fetched, t: Transfer)
    requires Tells(f, t)
    ensures f.id == t.id
  {
  }

  /** The locked section of a fetch does not copy to user space. */
  lemma NoFault(q: Queue, o: Owner)
    ensures q.Fetch(o).Failure? ==> q.Fetch(o).error != EFAULT
  {
  }

  class Backend {
    const ids: TransferIds
    var bindings: seq<Binding>
    var pending: seq<HcdRequest>
    var active: seq<HcdRequest>
    var stopping: bool
    var linked: set<nat>
    var accepted: nat
    ghost var givebacks: seq<Given>
    ghost var sent: map<nat, Sent>       // what submit accepted, by transfer id
    ghost var records: seq<Fetched>      // what fetches have told, in order
    ghost var q: Queue

    /** The lists are in order; during the release of a device, `but` exempts
        that device's requests from having a bound owner. */
    ghost predicate Listed(but: Option<Device>)
      reads this
    {
      && q == Queue(bindings, Values(pending), Values(active), stopping)
      && Coherent(q, but) && LinkedTo(q, linked)
    }

    /** Everything that was sent has its own id, the queued transfers and their URBs are
        what was sent under theirs, and every record told what was sent under its. */
    ghost predicate Numbered()
      reads this, ids
    {
      && (forall id :: id in sent ==> id <= ids.last)
      && Traced(pending, sent) && Traced(active, sent) && Borne(records, sent)
    }

    ghost predicate ValidBut(but: Option<Device>)
      reads this, ids
      reads set r | r in pending :: r.transfer
      reads set r | r in active :: r.transfer
    {
      Listed(but) && Numbered() && Kept(pending) && Kept(active)
    }

    /** The invariant between operations. */
    ghost predicate Valid()
      reads this, ids
      reads set r | r in pending :: r.transfer
      reads set r | r in active :: r.transfer
    {
      ValidBut(None)
    }

    /** The entries of both lists. */
    ghost function Queued(): set<HcdRequest>
      reads this
    {
      (set r | r in pending) + (set r | r in active)
    }

    /** A device's entries. */
    ghost function QueuedFor(d: Device): set<HcdRequest>
      reads this
    {
      set x | x in Queued() && x.transfer.device == d
    }

    /** The entries of a URB. */
    ghost function QueuedAs(urb: nat): set<HcdRequest>
      reads this
    {
      set x | x in Queued() && x.urb.id == urb
    }

    /** The entries are those there were but these, and new ones with transfers of their own. */
    twostate predicate LeftAndNew(gone: set<HcdRequest>)
      reads this
    {
      && old(Queued()) - gone <= Queued()
      && forall x :: x in Queued() ==> fresh(x.transfer) || x in old(Queued()) - gone
    }

    /** The transfers of these were cancelled with this error and have lost one reference. */
    twostate predicate Lost(gone: set<HcdRequest>, e: Errno)
      reads set x | x in gone :: x.transfer
    {
      forall x :: x in gone ==> Gone(x.transfer, e) && x.transfer.refcount == old(x.transfer.refcount) - 1
    }

    /** virtusb_backend_init. */
    constructor (ids: TransferIds)
      ensures Valid() && this.ids == ids && q == Queue([], [], [], false) && linked == {} && givebacks == []
      ensures sent == map[] && records == []
    {
      this.ids := ids;
      bindings, pending, active, stopping, linked, accepted := [], [], [], false, {}, 0;
      givebacks, sent, records, q := [], map[], [], Queue([], [], [], false);
    }

    // ---- list walks ----------------------------------------------------

    method FindOwner(o: Owner) returns (i: nat)
      ensures i == OwnerAt(bindings, o)
    {
      i := 0;
      while i < |bindings| && bindings[i].owner != o
        invariant i <= |bindings| && forall j :: 0 <= j < i ==> bindings[j].owner != o
      {
        i := i + 1;
      }
    }

    method FindDevice(d: Device) returns (i: nat)
      ensures i == DeviceAt(bindings, d)
    {
      i := 0;
      while i < |bindings| && bindings[i].device != d
        invariant i <= |bindings| && forall j :: 0 <= j < i ==> bindings[j].device != d
      {
        i := i + 1;
      }
    }

    static method Find(rs: seq<HcdRequest>, key: Key) returns (i: nat)
      ensures i == FirstOf(Values(rs), key)
    {
      i := 0;
      while i < |rs| && !rs[i].Is(key)
        invariant i <= |rs| && forall j :: 0 <= j < i ==> !Matches(Values(rs)[j], key)
      {
        i := i + 1;
      }
      FirstOfIs(Values(rs), key, i);
    }

    // ---- bindings ------------------------------------------------------

    /** virtusb_backend_register. */
    method Register(o: Owner, d: Device, memory: bool) returns (error: Option<Errno>)
      requires Valid()
      modifies this`bindings, this`q
      ensures Valid()
      ensures error ==
        if !memory then Some(ENOMEM) else if stopping then Some(ESHUTDOWN)
        else if exists b :: b in old(bindings) && (b.owner == o || b.device == d) then Some(EBUSY) else None
      ensures bindings == if error == None then old(bindings) + [Binding(o, d)] else old(bindings)
      ensures if error == None then old(q).Register(o, d) == Success(q) else q == old(q)
    {
      RegisterExact(q, o, d);
      hide Coherent, LinkedTo, Kept, Traced, OwnerAt, DeviceAt;
      if !memory {
        return Some(ENOMEM);
      }
      if stopping {
        return Some(ESHUTDOWN);
      }
      var byOwner := FindOwner(o);
      var byDevice := FindDevice(d);
      if byOwner < |bindings| || byDevice < |bindings| {
        return Some(EBUSY);
      }
      RegisterCoherent(q, o, d);
      RegisterLinked(q, o, d, linked);
      bindings := bindings + [Binding(o, d)];
      q := q.Register(o, d).value;
      return None;
    }

    // ---- submit --------------------------------------------------------

    /** The transfer is on no list. */
    ghost predicate Unqueued(t: Transfer)
      reads this
    {
      && (forall i :: 0 <= i < |q.pending| ==> q.pending[i].id != t.id)
      && (forall i :: 0 <= i < |q.active| ==> q.active[i].id != t.id)
    }

    lemma UnqueuedApart(t: Transfer, but: Option<Device>)
      requires Listed(but) && Unqueued(t)
      ensures forall i :: 0 <= i < |pending| ==> pending[i].transfer != t
      ensures forall i :: 0 <= i < |active| ==> active[i].transfer != t
    {
      assert forall i :: 0 <= i < |pending| ==> q.pending[i] == pending[i].Value();
      assert forall i :: 0 <= i < |active| ==> q.active[i] == active[i].Value();
    }

    /** The locked section of virtusb_backend_submit. */
    method Offer(request: HcdRequest, link: Option<Errno>, ghost but: Option<Device>) returns (error: Option<Errno>)
      requires Listed(but) && Unqueued(request.transfer) && request.urb.id !in linked && request.owner == None
      modifies this`pending, this`linked, this`q
      ensures Listed(but)
      ensures error == ErrorOf(old(q).Submit(request.Value(), link))
      ensures error == None ==>
        && q == old(q).Submit(request.Value(), link).value && linked == old(linked) + {request.urb.id}
        && pending == old(pending) + [request]
      ensures error != None ==> q == old(q) && linked == old(linked) && pending == old(pending)
    {
      var bound := FindDevice(request.transfer.device);
      if stopping {
        return Some(ESHUTDOWN);
      }
      if bound == |bindings| {
        return Some(ENODEV);
      }
      if link != None {
        return link;
      }
      SubmitCoherent(q, request.Value(), but);
      SubmitLinked(q, request.Value(), linked);
      hide Coherent, LinkedTo, DeviceAt;
      pending := pending + [request];
      linked := linked + {request.urb.id};
      q := q.(pending := q.pending + [request.Value()]);
      return None;
    }

    /** The request submit makes of a URB and its transfer. */
    function Asked(urb: Urb, t: Transfer): HcdRequest
      reads this
    {
      HcdRequest(urb, t, None, accepted)
    }

    /** virtusb_backend_submit. */
    method Submit(urb: Urb, t: Transfer, memory: bool, link: Option<Errno>, ghost but: Option<Device>)
      returns (error: Option<Errno>)
      requires Listed(but) && Unqueued(t) && urb.id !in linked && t.refcount > 0 && !t.freed
      modifies this`pending, this`linked, this`accepted, this`q, t`refcount, t`state, t`status, t`actualLength, t`freed
      ensures Listed(but) && !t.freed
      ensures error ==
        if t.requestedLength > 4096 then Some(EMSGSIZE) else if !memory then Some(ENOMEM)
        else if old(t.state) != New then Some(EINVAL) else if old(stopping) then Some(ESHUTDOWN)
        else if forall b :: b in old(bindings) ==> b.device != t.device then Some(ENODEV) else link
      ensures error == None ==>
        && old(q).Submit(old(Asked(urb, t)).Value(), link) == Success(q) && linked == old(linked) + {urb.id}
        && pending == old(pending) + [old(Asked(urb, t))] && accepted == old(accepted) + 1
        && t.refcount == old(t.refcount) + 1 && t.state == XferState.Queued
      ensures error != None ==>
        && q == old(q) && linked == old(linked) && pending == old(pending) && t.refcount == old(t.refcount)
        && (t.requestedLength <= DATA_MAX && memory && old(t.state) == New ==> t.state == Cancelled && t.status == Failed(error.value))
    {
      hide Coherent, LinkedTo, Queue.Submit, Values;
      if t.requestedLength > DATA_MAX {
        return Some(EMSGSIZE);
      }
      if !memory {
        return Some(ENOMEM);
      }
      var request := HcdRequest(urb, t, None, accepted);
      SubmitExact(q, request.Value(), link);
      t.Get();
      error := t.MarkQueued();
      if error != None {
        t.Put();
        return;
      }
      error := Offer(request, link, but);
      if error == None {
        accepted := accepted + 1;
        return;
      }
      var ignored := t.Cancel(Failed(error.value));
      t.Put();
    }

    /** The request urb_enqueue offers for a URB it does not refuse. */
    ghost function Offered(urb: Urb, device: Device): Request
      reads this, ids
    {
      Request(urb.id, ids.last + 1, device, None, accepted)
    }

    /** Create the transfer of a URB, submit it, and drop the creator's reference. */
    method SubmitNew(urb: Urb, device: Device, setup: Option<seq<Byte>>, data: Option<seq<Byte>>, luck: Luck,
                     ghost but: Option<Device>)
      returns (error: Option<Errno>)
      requires ValidBut(but) && urb.id !in linked && urb.Proper()
      requires data.Some? ==> |data.value| >= urb.length
      modifies this`pending, this`linked, this`accepted, this`q, this`sent, ids
      ensures ValidBut(but) && ids.last >= old(ids.last)
      ensures error ==
        if urb.endpoint > 15 || !luck.transfer || (urb.kind == CONTROL && setup == None)
          || (urb.direction == OUT && urb.length > 0 && data == None) then Some(ENOMEM)
        else if urb.length > DATA_MAX then Some(EMSGSIZE)
        else if !luck.request then Some(ENOMEM)
        else ErrorOf(old(q).Submit(old(Offered(urb, device)), luck.link))
      ensures error == None ==>
        && q == old(q).Submit(old(Offered(urb, device)), luck.link).value && linked == old(linked) + {urb.id}
        && |pending| == |old(pending)| + 1 && pending[..|old(pending)|] == old(pending)
        && var request := pending[|old(pending)|];
           && request.urb == urb && fresh(request.transfer) && request.transfer.refcount == 1
           && Made(request.transfer, Sent(urb, device, setup, Carried(urb, data)))
      ensures old(ids.last) + 1 !in old(sent)
      ensures sent == if error == None then old(sent)[old(ids.last) + 1 := Sent(urb, device, setup, Carried(urb, data))] else old(sent)
      ensures error != None ==> q == old(q) && pending == old(pending) && linked == old(linked)
    {
      hide Coherent, LinkedTo, Queue.Submit, Kept, Traced, Borne, Values;
      FreshId(but);
      var t := Create(ids, device, urb.kind, urb.direction, urb.endpoint, setup, data, urb.length, luck.transfer);
      if t == null {
        return Some(ENOMEM);
      }
      if t.requestedLength > DATA_MAX {
        t.Put();
        return Some(EMSGSIZE);
      }
      error := SubmitCreated(urb, t, luck, Sent(urb, device, setup, Carried(urb, data)), but);
    }

    /** The counter's next id has not been sent, and is on no list. */
    lemma FreshId(but: Option<Device>)
      requires ValidBut(but)
      ensures ids.last + 1 !in sent
      ensures forall i :: 0 <= i < |q.pending| ==> q.pending[i].id <= ids.last
      ensures forall i :: 0 <= i < |q.active| ==> q.active[i].id <= ids.last
    {
      hide Coherent, LinkedTo, Kept, Borne, Made;
      assert forall i :: 0 <= i < |pending| ==> q.pending[i].id == pending[i].transfer.id;
      assert forall i :: 0 <= i < |active| ==> q.active[i].id == active[i].transfer.id;
    }

    /** The bytes a new transfer takes along. */
    static function Carried(urb: Urb, data: Option<seq<Byte>>): seq<Byte>
      requires data.Some? ==> |data.value| >= urb.length
    {
      if urb.direction == OUT && data.Some? then data.value[..urb.length] else []
    }

    /** The submission of a transfer that has just been created. */
    method SubmitCreated(urb: Urb, t: Transfer, luck: Luck, ghost s: Sent, ghost but: Option<Device>) returns (error: Option<Errno>)
      requires ValidBut(but) && urb.id !in linked && HcdRequest(urb, t, None, accepted).Fits()
      requires Unqueued(t) && 0 < t.id <= ids.last && t.refcount == 1 && t.state == New && !t.freed
      requires |t.buffer| == t.requestedLength && (t.direction == OUT ==> t.buffer == t.payload)
      requires t.id !in sent && s.urb == urb && Made(t, s)
      modifies this`pending, this`linked, this`accepted, this`q, this`sent, t
      ensures ValidBut(but)
      ensures error == if !luck.request then Some(ENOMEM)
                       else ErrorOf(old(q).Submit(old(Asked(urb, t)).Value(), luck.link))
      ensures error == None ==>
        && q == old(q).Submit(old(Asked(urb, t)).Value(), luck.link).value && linked == old(linked) + {urb.id}
        && pending == old(pending) + [old(Asked(urb, t))] && t.refcount == 1
      ensures sent == if error == None then old(sent)[t.id := s] else old(sent)
      ensures error != None ==> q == old(q) && pending == old(pending) && linked == old(linked)
    {
      hide Coherent, LinkedTo, Queue.Submit, Kept, Traced, Borne, Made;
      ghost var was, request := pending, Asked(urb, t);
      error := SubmitHeld(urb, t, luck, but);
      if error == None {
        Remember(was, request, s, but);
      }
    }

    /** Submit and the drop of the creator's reference. */
    method SubmitHeld(urb: Urb, t: Transfer, luck: Luck, ghost but: Option<Device>) returns (error: Option<Errno>)
      requires Listed(but) && Kept(pending) && Kept(active)
      requires urb.id !in linked && HcdRequest(urb, t, None, accepted).Fits()
      requires Unqueued(t) && 0 < t.id && t.refcount == 1 && t.state == New && !t.freed
      requires |t.buffer| == t.requestedLength && (t.direction == OUT ==> t.buffer == t.payload)
      modifies this`pending, this`linked, this`accepted, this`q, t
      ensures Listed(but) && Kept(pending) && Kept(active)
      ensures error == if !luck.request then Some(ENOMEM)
                       else ErrorOf(old(q).Submit(old(Asked(urb, t)).Value(), luck.link))
      ensures error == None ==>
        && q == old(q).Submit(old(Asked(urb, t)).Value(), luck.link).value && linked == old(linked) + {urb.id}
        && pending == old(pending) + [old(Asked(urb, t))] && t.refcount == 1
      ensures error != None ==> q == old(q) && pending == old(pending) && linked == old(linked)
    {
      hide Coherent, LinkedTo, Queue.Submit, Kept, Values;
      UnqueuedApart(t, but);
      ghost var was, request := pending, Asked(urb, t);
      SubmitExact(q, request.Value(), luck.link);
      error := Submit(urb, t, luck.request, luck.link, but);
      t.Put();
      assert Kept(was) && Kept(active);
      if error == None {
        KeptAdd(was, request);
      }
    }

    /** What submit accepted is recorded. */
    ghost method Remember(was: seq<HcdRequest>, request: HcdRequest, s: Sent, but: Option<Device>)
      requires Listed(but) && Kept(pending) && Kept(active) && pending == was + [request]
      requires forall id :: id in sent ==> id <= ids.last
      requires Traced(was, sent) && Traced(active, sent) && Borne(records, sent)
      requires request.transfer.id !in sent && request.transfer.id <= ids.last && request.urb == s.urb && Made(request.transfer, s)
      modifies this`sent
      ensures ValidBut(but) && sent == old(sent)[request.transfer.id := s]
    {
      hide Coherent, LinkedTo, Kept, Traced, Borne, Made;
      ghost var now := sent[request.transfer.id := s];
      TracedMore(was, records, sent, now);
      TracedMore(active, records, sent, now);
      TracedAdd(was, request, now);
      sent := now;
    }

    /** The part of virtusb_hcd_urb_enqueue behind its argument checks. */
    method Send(urb: Urb, device: Device, luck: Luck, ghost but: Option<Device>) returns (error: Option<Errno>)
      requires ValidBut(but) && urb.id !in linked && urb.Proper()
      requires urb.kind == CONTROL ==> urb.setup != None
      requires urb.direction == OUT && urb.length > 0 ==> urb.buffer != null
      modifies this`pending, this`linked, this`accepted, this`q, this`sent, ids
      ensures ValidBut(but) && ids.last >= old(ids.last)
      ensures error ==
        if urb.endpoint > 15 || !luck.transfer then Some(ENOMEM)
        else if urb.length > 4096 then Some(EMSGSIZE) else if !luck.request then Some(ENOMEM)
        else ErrorOf(old(q).Submit(old(Offered(urb, device)), luck.link))
      ensures error == None ==>
        && old(q).Submit(old(Offered(urb, device)), luck.link) == Success(q) && linked == old(linked) + {urb.id}
        && |pending| == |old(pending)| + 1 && pending[..|old(pending)|] == old(pending)
        && var request := pending[|old(pending)|];
           && request.urb == urb && fresh(request.transfer) && request.transfer.refcount == 1
           && Made(request.transfer, Sent(urb, device, Setup(urb), Bytes(urb)))
      ensures old(ids.last) + 1 !in old(sent)
      ensures sent == if error == None then old(sent)[old(ids.last) + 1 := Sent(urb, device, Setup(urb), Bytes(urb))] else old(sent)
      ensures error != None ==> q == old(q) && pending == old(pending) && linked == old(linked)
    {
      hide Coherent, LinkedTo, Queue.Submit, Kept, Traced, Borne;
      var setup := if urb.kind == CONTROL then urb.setup else None;
      var data: Option<seq<Byte>> := None;
      if urb.direction == OUT && urb.length > 0 {
        data := Some(urb.buffer[..]);
      }
      assert data.Some? ==> data.value[..urb.length] == urb.buffer[..urb.length];
      assert Carried(urb, data) == Bytes(urb);
      error := SubmitNew(urb, device, setup, data, luck, but);
    }

    /** virtusb_hcd_urb_enqueue; `device` is what the port topology names. */
    method Enqueue(urb: Urb, device: Option<Device>, luck: Luck, ghost but: Option<Device>)
      returns (error: Option<Errno>)
      requires ValidBut(but) && urb.id !in linked && urb.Proper()
      modifies this`pending, this`linked, this`accepted, this`q, this`sent, ids
      ensures ValidBut(but) && ids.last >= old(ids.last)
      ensures error ==
        if device == None then Some(ENODEV) else if urb.scattered then Some(EOPNOTSUPP)
        else if urb.kind == 0 && urb.setup == None then Some(EINVAL)
        else if urb.direction == 0 && urb.length > 0 && urb.buffer == null then Some(EINVAL)
        else if urb.endpoint > 15 || !luck.transfer then Some(ENOMEM)
        else if urb.length > 4096 then Some(EMSGSIZE) else if !luck.request then Some(ENOMEM)
        else if old(stopping) then Some(ESHUTDOWN)
        else if forall b :: b in old(bindings) ==> b.device != device.value then Some(ENODEV) else luck.link
      ensures error == None ==>
        && old(q).Submit(old(Offered(urb, device.value)), luck.link) == Success(q) && linked == old(linked) + {urb.id}
        && |pending| == |old(pending)| + 1 && pending[..|old(pending)|] == old(pending)
        && var request := pending[|old(pending)|];
           && request.urb == urb && fresh(request.transfer) && request.transfer.refcount == 1
           && Made(request.transfer, Sent(urb, device.value, Setup(urb), Bytes(urb)))
      ensures error == None ==>
        && |old(pending)| < |pending|
        && var t := pending[|old(pending)|].transfer;
           && t.device == device.value && t.kind == urb.kind && t.direction == urb.direction && t.endpoint == urb.endpoint
           && t.requestedLength == urb.length && t.setup == (if urb.kind == 0 then urb.setup else None)
           && (urb.direction == 0 && urb.length > 0 ==> urb.buffer != null && t.payload == t.buffer == urb.buffer[..urb.length])
           && t.id in sent && sent[t.id].urb == urb && sent[t.id].device == device.value && sent[t.id].setup == t.setup
           && (urb.direction == 0 && urb.length > 0 ==> sent[t.id].bytes == urb.buffer[..urb.length])
      ensures old(ids.last) + 1 !in old(sent)
      ensures sent == if error == None then old(sent)[old(ids.last) + 1 := Sent(urb, device.value, Setup(urb), Bytes(urb))] else old(sent)
      ensures error != None ==> q == old(q) && pending == old(pending) && linked == old(linked)
    {
      hide Coherent, LinkedTo, Queue.Submit, Traced, Borne, Values;
      FreshId(but);
      if device == None {
        return Some(ENODEV);
      }
      if urb.scattered {
        return Some(EOPNOTSUPP);
      }
      if urb.kind == CONTROL && urb.setup == None {
        return Some(EINVAL);
      }
      if urb.direction == OUT && urb.length > 0 && urb.buffer == null {
        return Some(EINVAL);
      }
      SubmitExact(q, Offered(urb, device.value), luck.link);
      error := Send(urb, device.value, luck, but);
    }

    // ---- taking a request off, giving it back ----------------------------

    ghost function AtSlot(s: Slot): HcdRequest
      requires if s.Pending? then s.index < |pending| else s.Active? && s.index < |active|
      reads this
    {
      if s.Pending? then pending[s.index] else active[s.index]
    }

    lemma SlotQueued(s: Slot, but: Option<Device>)
      requires Listed(but) && q.HasSlot(s)
      ensures AtSlot(s) in Queued() && AtSlot(s).Value() == q.At(s)
    {
    }

    /** list_del_init and usb_hcd_unlink_urb_from_ep, for a pending request. */
    method TakePending(i: nat, ghost but: Option<Device>) returns (request: HcdRequest)
      requires ValidBut(but) && i < |pending|
      modifies this`pending, this`linked, this`q
      ensures ValidBut(but) && Unqueued(request.transfer) && Sound(request.transfer) && request.Fits()
      ensures request == old(pending)[i] && pending == Without(old(pending), i) && linked == old(linked) - {request.urb.id}
      ensures q == old(q).Detach(Pending(i))
    {
      hide Coherent, LinkedTo, Kept, Sound, HcdRequest.Fits, Values, Without;
      request := pending[i];
      DetachCoherent(q, Pending(i), but);
      DetachLinked(q, Pending(i), linked);
      DetachedUnqueued(q, Pending(i), but);
      KeptWithout(pending, i);
      ValuesWithout(pending, i);
      q := q.Detach(Pending(i));
      pending := Without(pending, i);
      linked := linked - {request.urb.id};
    }

    /** The same for an active one. */
    method TakeActive(i: nat, ghost but: Option<Device>) returns (request: HcdRequest)
      requires ValidBut(but) && i < |active|
      modifies this`active, this`linked, this`q
      ensures ValidBut(but) && Unqueued(request.transfer) && Sound(request.transfer) && request.Fits()
      ensures request == old(active)[i] && active == Without(old(active), i) && linked == old(linked) - {request.urb.id}
      ensures q == old(q).Detach(Active(i))
    {
      hide Coherent, LinkedTo, Kept, Sound, HcdRequest.Fits, Values, Without;
      request := active[i];
      DetachCoherent(q, Active(i), but);
      DetachLinked(q, Active(i), linked);
      DetachedUnqueued(q, Active(i), but);
      KeptWithout(active, i);
      ValuesWithout(active, i);
      q := q.Detach(Active(i));
      active := Without(active, i);
      linked := linked - {request.urb.id};
    }

    /** New entries stand behind the old ones, with transfers of their own. */
    twostate predicate GrownNew(before: seq<HcdRequest>)
      reads this
    {
      && |before| <= |pending| && pending[..|before|] == before
      && (forall i :: |before| <= i < |pending| ==> fresh(pending[i].transfer))
    }

    /** The completion handler of a URB: it submits any number of URBs. */
    method RunHandler(wanted: seq<Submission>, ghost but: Option<Device>)
      requires ValidBut(but)
      modifies this`pending, this`linked, this`accepted, this`q, this`sent, ids
      ensures ValidBut(but) && ids.last >= old(ids.last) && Extended(old(sent), sent)
      ensures Grown(old(q), q) && GrownNew(old(pending))
    {
      hide Coherent, LinkedTo, Kept, Traced, Borne, Grown, Queue.Submit, Sound, HcdRequest.Fits;
      GrownNone(q);
      for i := 0 to |wanted|
        invariant ValidBut(but) && ids.last >= old(ids.last) && Extended(old(sent), sent)
        invariant Grown(old(q), q) && GrownNew(old(pending))
      {
        var w := wanted[i];
        if w.urb.id !in linked && w.urb.Proper() {
          ghost var p := q;
          ghost var r := if w.device.Some? then Offered(w.urb, w.device.value) else Request(0, 0, 0, None, 0);
          var error := Enqueue(w.urb, w.device, w.luck, but);
          if error == None { GrownBySubmit(old(q), p, r, w.luck.link); }
        }
      }
    }

    /** virtusb_backend_giveback: the URB goes back, its handler runs, and the
        request drops its reference. */
    method Giveback(request: HcdRequest, status: Status, wanted: seq<Submission>, ghost but: Option<Device>)
      requires ValidBut(but) && Unqueued(request.transfer) && request.transfer.refcount > 0
      modifies this`pending, this`linked, this`accepted, this`q, this`sent, this`givebacks, ids
      modifies request.transfer`refcount, request.transfer`freed
      ensures ValidBut(but) && ids.last >= old(ids.last) && Extended(old(sent), sent)
      ensures Grown(old(q), q) && GrownNew(old(pending))
      ensures givebacks == old(givebacks) + [Given(request.urb.id, request.transfer.id, status)]
      ensures request.transfer.refcount == old(request.transfer.refcount) - 1
    {
      UnqueuedApart(request.transfer, but);
      givebacks := givebacks + [Given(request.urb.id, request.transfer.id, status)];
      RunHandler(wanted, but);
      hide Coherent, LinkedTo;
      assert forall i :: 0 <= i < |pending| ==> pending[i].transfer != request.transfer by {
        assert forall i :: 0 <= i < |old(pending)| ==> pending[i] == old(pending)[i];
      }
      request.transfer.Put();
    }

    // ---- cancel and complete ---------------------------------------------

    /** virtusb_backend_cancel: it touches the transfer of that URB and no other. */
    method Cancel(urb: Urb, status: Errno, wanted: seq<Submission>) returns (error: Option<Errno>)
      requires Valid()
      modifies this`pending, this`active, this`linked, this`accepted, this`q, this`sent, this`givebacks, ids
      modifies set x | x in QueuedAs(urb.id) :: x.transfer
      ensures Valid() && Extended(old(sent), sent)
      ensures error == if urb.id in old(linked) then None else Some(EIDRM)
      ensures error != None ==> q == old(q) && givebacks == old(givebacks) && linked == old(linked) && Queued() == old(Queued())
      ensures error == None ==>
        && old(q).HasSlot(old(q).SlotOfUrb(urb.id))
        && var e := old(q).At(old(q).SlotOfUrb(urb.id));
           && e.urb == urb.id && Grown(old(q).Detach(old(q).SlotOfUrb(urb.id)), q)
           && e.id in old(sent) && old(sent)[e.id].urb.id == urb.id
           && givebacks == old(givebacks) + [Given(urb.id, e.id, Failed(status))]
           && LeftAndNew(old(QueuedAs(urb.id))) && Lost(old(QueuedAs(urb.id)), status)
    {
      hide Coherent, LinkedTo, Grown, Kept, Traced, Borne, Gone, Queue.SlotOfUrb, Queue.Detach, Queue.HasSlot, Queue.At;
      if urb.id !in linked {      // usb_hcd_check_unlink_urb
        return Some(EIDRM);
      }
      var s := FindUrb(urb.id);
      Drop(s, status, wanted, None);
      return None;
    }

    /** The two walks for the request of a linked URB. */
    method FindUrb(urb: nat) returns (s: Slot)
      requires Valid() && urb in linked
      ensures s == q.SlotOfUrb(urb) && q.HasSlot(s) && q.At(s).urb == urb && QueuedAs(urb) == {AtSlot(s)}
      ensures q.At(s).id in sent && sent[q.At(s).id].urb.id == urb
    {
      LinkedSlot(q, linked, urb);
      var i := Find(pending, OfUrb(urb));
      var j := Find(active, OfUrb(urb));
      s := if i < |pending| then Pending(i) else Active(j);
      SlotQueued(s, None);
      OneEntry(urb, s);
      hide Kept, Borne, Made;
    }

    /** A URB has one entry. */
    lemma OneEntry(urb: nat, s: Slot)
      requires Listed(None) && q.HasSlot(s) && q.At(s).urb == urb
      ensures QueuedAs(urb) == {AtSlot(s)}
    {
      hide Coherent;
      SlotQueued(s, None);
      assert forall i :: 0 <= i < |pending| ==> q.pending[i].urb == pending[i].urb.id;
      assert forall i :: 0 <= i < |active| ==> q.active[i].urb == active[i].urb.id;
    }

    /** Cancel a detached transfer and give its URB back. */
    method Discard(request: HcdRequest, status: Errno, wanted: seq<Submission>, ghost but: Option<Device>)
      requires ValidBut(but) && Unqueued(request.transfer) && Sound(request.transfer)
      modifies this`pending, this`linked, this`accepted, this`q, this`sent, this`givebacks, ids, request.transfer
      ensures ValidBut(but) && Extended(old(sent), sent)
      ensures Grown(old(q), q) && GrownNew(old(pending))
      ensures givebacks == old(givebacks) + [Given(request.urb.id, request.transfer.id, Failed(status))]
      ensures request.transfer.state == Cancelled && request.transfer.status == Failed(status) && request.transfer.actualLength == 0
      ensures request.transfer.refcount == old(request.transfer.refcount) - 1
    {
      UnqueuedApart(request.transfer, but);
      hide Coherent, LinkedTo, Grown, HcdRequest.Fits;
      var ignored := request.transfer.Cancel(Failed(status));
      Giveback(request, Failed(status), wanted, but);
    }

    /** A request taken off whichever list it is on; the other entries stay. */
    method Extract(s: Slot, ghost but: Option<Device>) returns (request: HcdRequest)
      requires ValidBut(but) && q.HasSlot(s)
      modifies this`pending, this`active, this`linked, this`q
      ensures ValidBut(but) && Unqueued(request.transfer) && Sound(request.transfer) && request.Fits()
      ensures request == old(AtSlot(s)) && request.Value() == old(q).At(s) && request in old(Queued())
      ensures old(Queued()) - {request} <= Queued() && Queued() <= old(Queued())
      ensures q == old(q).Detach(s)
    {
      hide Coherent, LinkedTo, Kept, Sound, HcdRequest.Fits, Queue.Detach, Without;
      if s.Pending? {
        WithoutHas(pending, s.index);
        request := TakePending(s.index, but);
      } else {
        WithoutHas(active, s.index);
        request := TakeActive(s.index, but);
      }
    }

    /** What stands in a list that has grown at its end. */
    static lemma Outgrown(before: seq<HcdRequest>, after: seq<HcdRequest>)
      requires |before| <= |after| && after[..|before|] == before
      ensures forall x :: x in before ==> x in after
      ensures forall x :: x in after ==> x in before || exists i :: |before| <= i < |after| && after[i] == x
    {
      assert after == before + after[|before|..];
    }

    /** Take a request off and give it back cancelled; the other entries stay. */
    method Drop(s: Slot, status: Errno, wanted: seq<Submission>, ghost but: Option<Device>)
      requires ValidBut(but) && q.HasSlot(s)
      modifies this`pending, this`active, this`linked, this`accepted, this`q, this`sent, this`givebacks, ids, AtSlot(s).transfer
      ensures ValidBut(but) && Extended(old(sent), sent)
      ensures Grown(old(q).Detach(s), q)
      ensures old(AtSlot(s)) in old(Queued()) && old(AtSlot(s)).Value() == old(q).At(s)
      ensures old(Queued()) - {old(AtSlot(s))} <= Queued()
      ensures forall x :: x in Queued() ==> fresh(x.transfer) || (x in old(Queued()) && x.transfer != old(AtSlot(s)).transfer)
      ensures givebacks == old(givebacks) + [Given(old(q).At(s).urb, old(q).At(s).id, Failed(status))]
      ensures Gone(old(AtSlot(s)).transfer, status)
      ensures old(AtSlot(s)).transfer.refcount == old(AtSlot(s).transfer.refcount) - 1
    {
      hide Coherent, LinkedTo, Grown, Kept, HcdRequest.Fits;
      var request := Extract(s, but);
      UnqueuedApart(request.transfer, but);
      ghost var before := pending;
      Discard(request, status, wanted, but);
      Outgrown(before, pending);
    }

    /** The first `actual` bytes overwritten, the others left. */
    static function Overwritten(before: seq<Byte>, data: seq<Byte>, actual: nat): (after: seq<Byte>)
      ensures |after| == |before|
      ensures forall i :: 0 <= i < |after| ==> after[i] == if i < actual && i < |data| then data[i] else before[i]
    {
      seq(|before|, i requires 0 <= i < |before| => if i < actual && i < |data| then data[i] else before[i])
    }

    /** The bytes of a completion reach the transfer and then the URB's buffer. */
    static method CopyIn(urb: Urb, t: Transfer, data: seq<Byte>, actual: nat)
      requires |data| == DATA_MAX && actual <= |t.buffer| <= DATA_MAX
      requires actual > 0 ==> urb.buffer != null && urb.buffer.Length >= actual
      modifies t`buffer, if urb.buffer == null then {} else {urb.buffer}
      ensures t.buffer == Overwritten(old(t.buffer), data, actual)
      ensures urb.buffer != null && actual <= urb.buffer.Length ==> urb.buffer[..] == Overwritten(old(urb.buffer[..]), data, actual)
    {
      t.buffer := data[..actual] + t.buffer[actual..];
      if actual > 0 {
        forall i | 0 <= i < actual {
          urb.buffer[i] := t.buffer[i];
        }
      }
    }

    /** What a completion has made of an entry: its transfer and URB are completed with this
        status and length, and its buffer has these bytes if it comes in; or it was too long
        for it, and the transfer is cancelled and the URB as it was. */
    static twostate predicate Finished(r: HcdRequest, new error: Option<Errno>, status: int, actual: nat, data: seq<Byte>)
      reads r.transfer, r.urb, if r.urb.buffer == null then {} else {r.urb.buffer}
    {
      && error == (if actual > r.transfer.requestedLength then Some(EMSGSIZE) else None)
      && r.transfer.refcount == old(r.transfer.refcount) - 1
      && (error == None ==>
            && r.transfer.state == Completed && r.transfer.status == Reported(status)
            && r.transfer.actualLength == r.urb.actualLength == actual)
      && (error != None ==> Gone(r.transfer, EMSGSIZE) && r.urb.actualLength == old(r.urb.actualLength))
      && (r.urb.buffer != null ==>
            r.urb.buffer[..] ==
            (if error == None && r.transfer.direction == IN then Overwritten(old(r.urb.buffer[..]), data, actual)
             else old(r.urb.buffer[..])))
    }

    /** How a completion reports. */
    static function Report(error: Option<Errno>, status: int): Status {
      if error == None then Reported(status) else Failed(EMSGSIZE)
    }

    /** What becomes of a detached request when a completion names it. */
    method Finish(request: HcdRequest, status: int, actual: nat, data: seq<Byte>, wanted: seq<Submission>)
      returns (error: Option<Errno>)
      requires Valid() && Unqueued(request.transfer) && Sound(request.transfer) && request.Fits() && |data| == DATA_MAX
      modifies this`pending, this`linked, this`accepted, this`q, this`sent, this`givebacks, ids
      modifies request.transfer, request.urb, if request.urb.buffer == null then {} else {request.urb.buffer}
      ensures Valid() && Extended(old(sent), sent) && Grown(old(q), q) && GrownNew(old(pending))
      ensures Finished(request, error, status, actual, data)
      ensures givebacks == old(givebacks) + [Given(request.urb.id, request.transfer.id, Report(error, status))]
    {
      if actual > request.transfer.requestedLength || actual > |data| {
        Discard(request, EMSGSIZE, wanted, None);
        return Some(EMSGSIZE);
      }
      FinishFitting(request, status, actual, data, wanted);
      return None;
    }

    /** A completion that fits. */
    method FinishFitting(request: HcdRequest, status: int, actual: nat, data: seq<Byte>, wanted: seq<Submission>)
      requires Valid() && Unqueued(request.transfer) && Sound(request.transfer) && request.Fits()
      requires |data| == DATA_MAX && actual <= request.transfer.requestedLength
      modifies this`pending, this`linked, this`accepted, this`q, this`sent, this`givebacks, ids
      modifies request.transfer, request.urb, if request.urb.buffer == null then {} else {request.urb.buffer}
      ensures Valid() && Extended(old(sent), sent) && Grown(old(q), q) && GrownNew(old(pending))
      ensures givebacks == old(givebacks) + [Given(request.urb.id, request.transfer.id, Reported(status))]
      ensures request.transfer.refcount == old(request.transfer.refcount) - 1
      ensures request.transfer.state == Completed && request.transfer.status == Reported(status)
      ensures request.transfer.actualLength == request.urb.actualLength == actual
      ensures request.urb.buffer != null && request.transfer.direction == IN ==>
        request.urb.buffer[..] == Overwritten(old(request.urb.buffer[..]), data, actual)
      ensures request.urb.buffer != null && request.transfer.direction != IN ==>
        request.urb.buffer[..] == old(request.urb.buffer[..])
    {
      UnqueuedApart(request.transfer, None);
      hide Coherent, LinkedTo, Grown, Kept, Traced, Overwritten;
      Fulfil(request, status, actual, data);
      Giveback(request, Reported(status), wanted, None);
    }

    /** The bytes, the length and the status of a completion that fits. */
    static method Fulfil(request: HcdRequest, status: int, actual: nat, data: seq<Byte>)
      requires Sound(request.transfer) && request.Fits() && |data| == DATA_MAX && actual <= request.transfer.requestedLength
      modifies request.transfer`buffer, request.transfer`state, request.transfer`status, request.transfer`actualLength
      modifies request.urb, if request.urb.buffer == null then {} else {request.urb.buffer}
      ensures request.transfer.state == Completed && request.transfer.status == Reported(status)
      ensures request.transfer.actualLength == request.urb.actualLength == actual
      ensures request.urb.buffer != null && request.transfer.direction == IN ==>
        request.urb.buffer[..] == Overwritten(old(request.urb.buffer[..]), data, actual)
      ensures request.urb.buffer != null && request.transfer.direction != IN ==>
        request.urb.buffer[..] == old(request.urb.buffer[..])
    {
      if request.transfer.direction == IN && actual > 0 {
        CopyIn(request.urb, request.transfer, data, actual);
      }
      var error := request.transfer.Complete(Reported(status), actual);
      assert error == None;    // a queued transfer that fits never fails to complete
      request.urb.actualLength := actual;
    }

    /** The completion of the active request at position i. */
    method CompleteAt(i: nat, status: int, actual: nat, data: seq<Byte>, wanted: seq<Submission>) returns (error: Option<Errno>)
      requires Valid() && |data| == DATA_MAX && i < |active|
      modifies this`pending, this`active, this`linked, this`accepted, this`q, this`sent, this`givebacks, ids
      modifies active[i].transfer, active[i].urb, if active[i].urb.buffer == null then {} else {active[i].urb.buffer}
      ensures Valid() && Extended(old(sent), sent) && Grown(old(q).Detach(Active(i)), q)
      ensures active == Without(old(active), i) && GrownNew(old(pending))
      ensures var r := old(active)[i];
        && r.transfer.id in old(sent) && r.urb == old(sent)[r.transfer.id].urb
        && givebacks == old(givebacks) + [Given(r.urb.id, r.transfer.id, Report(error, status))]
        && Finished(r, error, status, actual, data)
    {
      hide Coherent, LinkedTo, Grown, Kept, Traced, Borne, Overwritten;
      KeptWithout(active, i);
      TracedWithout(active, i, sent);
      var request := TakeActive(i, None);
      error := Finish(request, status, actual, data, wanted);
    }

    /** virtusb_backend_complete: it touches the request that owner and id name, and no other. */
    method Complete(o: Owner, id: nat, status: int, actual: nat, data: seq<Byte>, wanted: seq<Submission>)
      returns (error: Option<Errno>)
      requires Valid() && |data| == DATA_MAX
      modifies this`pending, this`active, this`linked, this`accepted, this`q, this`sent, this`givebacks, ids
      modifies set r | r in active && r.Is(OfId(o, id)) :: r.transfer, set r | r in active && r.Is(OfId(o, id)) :: r.urb
      modifies set r | r in active && r.Is(OfId(o, id)) && r.urb.buffer != null :: r.urb.buffer
      ensures Valid() && Extended(old(sent), sent)
      ensures id == 0 ==> error == Some(EINVAL)
      ensures id > 0 && old(q).SlotOfId(o, id) == Nowhere ==> error == Some(ENOENT)
      ensures id == 0 || old(q).SlotOfId(o, id) == Nowhere ==>
        q == old(q) && givebacks == old(givebacks) && pending == old(pending) && active == old(active)
      ensures id > 0 && old(q).SlotOfId(o, id).Active? ==>
        var i := old(q).SlotOfId(o, id).index;
        && i < |old(q).active| && i < |old(active)|
        && var r := old(active)[i];
           && r.transfer.id == id && r.owner == Some(o) && Grown(old(q).Detach(Active(i)), q)
           && active == Without(old(active), i) && GrownNew(old(pending))
           && id in old(sent) && r.urb == old(sent)[id].urb
           && givebacks == old(givebacks) + [Given(r.urb.id, id, Report(error, status))]
           && Finished(r, error, status, actual, data)
    {
      if id == 0 {
        return Some(EINVAL);
      }
      var i := Find(active, OfId(o, id));
      if i == |active| {
        return Some(ENOENT);
      }
      hide Coherent, LinkedTo, Grown, Kept, Overwritten, Traced, Borne;
      error := CompleteAt(i, status, actual, data, wanted);
    }

    // ---- fetch and rollback ------------------------------------------------

    /** The record a fetch fills from a transfer. */
    static method Describe(t: Transfer) returns (f: Fetched)
      requires Sound(t) && t.requestedLength <= DATA_MAX
      ensures Tells(f, t)
    {
      var data, length := Zeros(DATA_MAX), 0;
      if t.direction == OUT && t.requestedLength > 0 {
        data := t.buffer + Zeros(DATA_MAX - t.requestedLength);
        length := t.requestedLength;
      }
      f := Fetched(t.id, t.device, t.kind, t.direction, t.endpoint, t.setup, t.requestedLength, length, data);
    }

    /** The unlocked tail of a fetch, under a reference of its own. */
    static method Record(t: Transfer) returns (f: Fetched)
      requires Sound(t) && t.requestedLength <= DATA_MAX
      modifies t`refcount, t`freed
      ensures Tells(f, t) && Sound(t) && t.refcount == old(t.refcount)
    {
      t.Get();
      f := Describe(t);
      t.Put();
    }

    /** The lists after a fetch would be in order. */
    lemma Activated(i: nat, o: Owner, request: HcdRequest)
      requires Valid() && q.Owned(o) && i == FirstOf(q.pending, OfDevice(q.DeviceOf(o))) < |q.pending|
      requires request == pending[i].(owner := Some(o))
      ensures q.Fetch(o).Success?
      ensures q.Fetch(o).value.1 == Queue(bindings, Values(Without(pending, i)), Values(active + [request]), stopping)
      ensures Coherent(q.Fetch(o).value.1, None) && LinkedTo(q.Fetch(o).value.1, linked)
      ensures Kept(Without(pending, i)) && Kept(active + [request]) && Sound(request.transfer) && request.Fits()
      ensures Traced(Without(pending, i), sent) && Traced(active + [request], sent)
      ensures request.transfer.id in sent && Made(request.transfer, sent[request.transfer.id])
    {
      TracedWithout(pending, i, sent);
      TracedAdd(active, request, sent);
      FetchCoherent(q, o);
      FetchLinked(q, o, linked);
      KeptWithout(pending, i);
      KeptAdd(active, request);
      ValuesWithout(pending, i);
      ValuesAdd(active, request);
      hide Coherent, LinkedTo, FirstOf, OwnerAt, Sound, Kept, Values;
    }

    /** Where the first pending request stands that a fetch by o takes. */
    ghost function NextFor(o: Owner): nat
      requires q.Owned(o)
      reads this
    {
      FirstOf(q.pending, OfDevice(q.DeviceOf(o)))
    }

    /** list_move_tail from pending to active, with the owner set. */
    method Activate(i: nat, o: Owner) returns (t: Transfer)
      requires Valid() && q.Owned(o) && i == NextFor(o) < |q.pending|
      modifies this`pending, this`active, this`q
      ensures Valid() && t == old(pending)[i].transfer
      ensures q == old(q).Fetch(o).value.1
      ensures active == old(active) + [old(pending)[i].(owner := Some(o))] && pending == Without(old(pending), i)
      ensures Sound(t) && t.requestedLength <= DATA_MAX && t.id in sent && Made(t, sent[t.id])
    {
      hide Coherent, LinkedTo, FirstOf, OwnerAt, Kept, Traced, Borne, Made, Values, Without, Queue.Fetch, Queue.DeviceOf, Queue.Owned;
      var request := pending[i].(owner := Some(o));
      Activated(i, o, request);
      q := q.Fetch(o).value.1;
      t := request.transfer;
      pending := Without(pending, i);
      active := active + [request];
    }

    /** Take the request at position i for o, and describe it. */
    method Deliver(i: nat, o: Owner) returns (f: Fetched)
      requires Valid() && q.Owned(o) && i == NextFor(o) < |q.pending|
      modifies this`pending, this`active, this`q, this`records, pending[i].transfer`refcount, pending[i].transfer`freed
      ensures Valid() && Tells(f, old(pending)[i].transfer) && f.id in sent && Bears(f, sent[f.id])
      ensures q == old(q).Fetch(o).value.1 && records == old(records) + [f]
      ensures active == old(active) + [old(pending)[i].(owner := Some(o))] && pending == Without(old(pending), i)
      ensures old(pending)[i].transfer.refcount == old(pending[i].transfer.refcount) && !old(pending)[i].transfer.freed
    {
      hide Coherent, LinkedTo, FirstOf, OwnerAt, Queue.Fetch, Tells, Bears, Traced, Borne, Made, Kept, Sound;
      hide Queue.Owned, Queue.DeviceOf, Without, Values;
      var t := Activate(i, o);
      f := Tell(t);
    }

    /** The record of a queued transfer, filled outside the lock. */
    method Tell(t: Transfer) returns (f: Fetched)
      requires Valid() && Sound(t) && t.requestedLength <= DATA_MAX && t.id in sent && Made(t, sent[t.id])
      modifies this`records, t`refcount, t`freed
      ensures Valid() && Tells(f, t) && f.id in sent && Bears(f, sent[f.id])
      ensures records == old(records) + [f] && t.refcount == old(t.refcount) && !t.freed
    {
      hide Coherent, LinkedTo, Tells, Bears, Traced, Borne, Made, HcdRequest.Fits, Values;
      f := Record(t);
      assert f.id == t.id by { TellsId(f, t); }
      TellsBears(f, t, sent[t.id]);
      BorneAdd(records, f, sent);
      records := records + [f];
    }

    /** What a fetch that has nothing to take answers. */
    lemma FetchAnswers(o: Owner)
      requires Listed(None)
      ensures (forall b :: b in bindings ==> b.owner != o) ==> q.Fetch(o) == Failure(ENODEV)
      ensures forall d :: Binding(o, d) in bindings && (forall x :: x in pending ==> x.transfer.device != d) ==>
        q.Fetch(o) == Failure(if stopping then ESHUTDOWN else EAGAIN)
    {
      FetchRefused(q, o);
      hide Queue.Fetch;
      forall d | Binding(o, d) in bindings && (forall x :: x in pending ==> x.transfer.device != d)
        ensures q.Fetch(o) == Failure(if stopping then ESHUTDOWN else EAGAIN)
      {
        assert forall i :: 0 <= i < |pending| ==> q.pending[i].device == pending[i].transfer.device;
      }
    }

    /** The walks of a fetch, and what it takes. */
    method FetchNext(o: Owner) returns (r: Result<Fetched>)
      requires Valid()
      modifies this`pending, this`active, this`q, this`records
      modifies (set r | r in pending :: r.transfer)`refcount, (set r | r in pending :: r.transfer)`freed
      ensures Valid()
      ensures ErrorOf(r) == ErrorOf(old(q).Fetch(o))
      ensures r.Failure? ==> q == old(q) && active == old(active) && pending == old(pending) && records == old(records)
      ensures r.Success? ==>
        && old(q).Owned(o) && old(NextFor(o)) < |old(pending)|
        && var i := old(NextFor(o));
           && q == old(q).Fetch(o).value.1 && records == old(records) + [r.value]
           && r.value.id == old(q).Fetch(o).value.0.id > 0
           && active == old(active) + [old(pending)[i].(owner := Some(o))] && pending == Without(old(pending), i)
           && Tells(r.value, old(pending)[i].transfer)
           && r.value.id in sent && Bears(r.value, sent[r.value.id])
      ensures forall x :: x in old(pending) ==> x.transfer.refcount == old(x.transfer.refcount) && !x.transfer.freed
    {
      var k := FindOwner(o);
      if k == |bindings| {
        return Failure(ENODEV);
      }
      var i := Find(pending, OfDevice(bindings[k].device));
      if i == |pending| {
        return Failure(if stopping then ESHUTDOWN else EAGAIN);
      }
      hide Coherent, LinkedTo, Kept, Tells;
      var f := Deliver(i, o);
      return Success(f);
    }

    /** One pass of the loop of virtusb_backend_fetch; EAGAIN stands for the wait. */
    method Fetch(o: Owner) returns (r: Result<Fetched>)
      requires Valid()
      modifies this`pending, this`active, this`q, this`records
      modifies (set r | r in pending :: r.transfer)`refcount, (set r | r in pending :: r.transfer)`freed
      ensures Valid()
      ensures ErrorOf(r) == ErrorOf(old(q).Fetch(o))
      ensures (forall b :: b in bindings ==> b.owner != o) ==> r == Failure(ENODEV)
      ensures forall d :: Binding(o, d) in bindings && (forall x :: x in old(pending) ==> x.transfer.device != d) ==>
        r == Failure(if stopping then ESHUTDOWN else EAGAIN)
      ensures r.Failure? ==> q == old(q) && active == old(active) && pending == old(pending) && records == old(records)
      ensures r.Success? ==>
        && old(q).Owned(o) && old(NextFor(o)) < |old(pending)|
        && var i := old(NextFor(o));
           && q == old(q).Fetch(o).value.1 && records == old(records) + [r.value]
           && r.value.id == old(q).Fetch(o).value.0.id > 0
           && active == old(active) + [old(pending)[i].(owner := Some(o))] && pending == Without(old(pending), i)
           && Tells(r.value, old(pending)[i].transfer)
           && r.value.id in sent && Bears(r.value, sent[r.value.id])
      ensures forall x :: x in old(pending) ==> x.transfer.refcount == old(x.transfer.refcount) && !x.transfer.freed
    {
      hide Coherent, LinkedTo, Kept, Tells, Bears, Traced, Borne, Sound, Queue.Fetch, FirstOf, OwnerAt, Made, Values, Without;
      FetchAnswers(o);
      r := FetchNext(o);
    }

    /** list_move of the active request at position i to the head of pending. */
    method PutBack(i: nat, ghost o: Owner, ghost id: nat)
      requires Valid() && i == FirstOf(q.active, OfId(o, id)) < |q.active|
      modifies this`pending, this`active, this`q
      ensures Valid() && q == old(q).Rollback(o, id).value
      ensures active == Without(old(active), i) && pending == [old(active)[i].(owner := None)] + old(pending)
    {
      hide Coherent, LinkedTo, FirstOf, Sound, Kept, Traced, Borne, Made, Values, Without;
      RollbackCoherent(q, o, id);
      RollbackLinked(q, o, id, linked);
      var request := active[i].(owner := None);
      KeptWithout(active, i);
      KeptAdd(pending, request);
      TracedWithout(active, i, sent);
      TracedAdd(pending, request, sent);
      ValuesWithout(active, i);
      ValuesAdd(pending, request);
      q := q.Rollback(o, id).value;
      active := Without(active, i);
      pending := [request] + pending;
    }

    /** virtusb_backend_fetch_rollback. */
    method Rollback(o: Owner, id: nat) returns (error: Option<Errno>)
      requires Valid()
      modifies this`pending, this`active, this`q
      ensures Valid()
      ensures error ==
        if id == 0 then Some(EINVAL)
        else if exists x :: x in old(active) && x.owner == Some(o) && x.transfer.id == id then None else Some(ENOENT)
      ensures error != None ==> q == old(q) && active == old(active) && pending == old(pending)
      ensures error == None ==>
        && FirstOf(old(q).active, OfId(o, id)) < |old(active)|
        && var i := FirstOf(old(q).active, OfId(o, id));
           && old(q).Rollback(o, id) == Success(q) && old(active)[i].owner == Some(o) && old(active)[i].transfer.id == id
           && active == Without(old(active), i) && pending == [old(active)[i].(owner := None)] + old(pending)
    {
      hide Coherent, LinkedTo, Kept, Traced, Borne;
      if id == 0 {
        return Some(EINVAL);
      }
      var i := Find(active, OfId(o, id));
      if i == |active| {
        return Some(ENOENT);
      }
      PutBack(i, o, id);
      return None;
    }

    lemma PendingUnowned()
      requires Valid()
      ensures forall i :: 0 <= i < |pending| ==> pending[i].owner == None
      ensures Tidy(q)
    {
      assert forall i :: 0 <= i < |pending| ==> q.pending[i].owner == pending[i].owner;
    }

    /** The fetch of virtusb_control.c: a record that cannot be copied out goes back. */
    method FetchOut(o: Owner, copied: bool) returns (r: Result<Fetched>)
      requires Valid()
      modifies this`pending, this`active, this`q, this`records
      modifies (set r | r in pending :: r.transfer)`refcount, (set r | r in pending :: r.transfer)`freed
      ensures Valid()
      ensures ErrorOf(r) == if old(q).Fetch(o).Success? && !copied then Some(EFAULT) else ErrorOf(old(q).Fetch(o))
      ensures r.Success? ==>
        && old(q).Owned(o) && old(NextFor(o)) < |old(pending)|
        && var i := old(NextFor(o));
           && q == old(q).Fetch(o).value.1 && records == old(records) + [r.value]
           && active == old(active) + [old(pending)[i].(owner := Some(o))] && pending == Without(old(pending), i)
           && Tells(r.value, old(pending)[i].transfer)
           && r.value.id in sent && Bears(r.value, sent[r.value.id])
      ensures r.Failure? && r.error != EFAULT ==> records == old(records)
      ensures r == Failure(EFAULT) ==> |records| == |old(records)| + 1 && records[..|old(records)|] == old(records)
      ensures r.Failure? ==> SameForDevices(old(q), q) && active == old(active)
      ensures r.Failure? && r.error != EFAULT ==> pending == old(pending)
      ensures r == Failure(EFAULT) ==>
        && old(q).Owned(o) && old(NextFor(o)) < |old(pending)|
        && pending == [old(pending)[old(NextFor(o))]] + Without(old(pending), old(NextFor(o)))
      ensures forall x :: x in old(pending) ==> x.transfer.refcount == old(x.transfer.refcount) && !x.transfer.freed
    {
      hide Coherent, LinkedTo, Kept, Traced, Borne, Bears, Queue.Fetch, Queue.Rollback, Project, FirstOf;
      PendingUnowned();
      NoFault(q, o);
      r := Fetch(o);
      if r.Success? && !copied {
        ghost var i := old(NextFor(o));
        PutFetched(o, r.value.id, old(q), old(active), old(pending), i);
        return Failure(EFAULT);
      }
    }

    /** The rollback of a fetch that has just been done. */
    method PutFetched(o: Owner, id: nat, ghost q0: Queue, ghost before: seq<HcdRequest>, ghost was: seq<HcdRequest>, ghost i: nat)
      requires Valid() && Tidy(q0) && q0.Fetch(o).Success? && q == q0.Fetch(o).value.1 && id == q0.Fetch(o).value.0.id > 0
      requires |q0.active| == |before| && i < |was| && was[i].owner == None
      requires active == before + [was[i].(owner := Some(o))] && pending == Without(was, i)
      modifies this`pending, this`active, this`q
      ensures Valid() && SameForDevices(q0, q) && active == before && pending == [was[i]] + Without(was, i)
    {
      hide Coherent, LinkedTo, Kept, Traced, Borne, Tidy, Queue.Fetch, Project, FirstOf, Values;
      FetchedStands(q0, o);
      RollbackUndoes(q0, o, q);
      ghost var mid := active;
      var ignored := Rollback(o, id);
      assert Without(mid, |before|) == before;
    }

    /** Whatever operations ran, in whatever order: each record that a fetch has told bears
        what submit was given under its id. No operation changes either once it is there. */
    lemma RecordsTell(i: nat)
      requires Valid() && i < |records|
      ensures records[i].id in sent
      ensures var f, s := records[i], sent[records[i].id];
        && f.device == s.device && f.kind == s.urb.kind && f.direction == s.urb.direction && f.endpoint == s.urb.endpoint
        && f.setup == s.setup && f.requestedLength == s.urb.length && |f.data| == 4096
        && (s.urb.direction == 0 ==> f.dataLength == |s.bytes| <= 4096 && f.data[..f.dataLength] == s.bytes)
        && (s.urb.direction != 0 ==> f.dataLength == 0)
        && forall k :: f.dataLength <= k < 4096 ==> f.data[k] == 0
    {
      hide Coherent, LinkedTo, Kept, Traced;
    }

    // ---- the two drains ------------------------------------------------------

    /** The references each queued transfer has. */
    ghost function References(): map<HcdRequest, nat>
      reads this, set r | r in pending :: r.transfer, set r | r in active :: r.transfer
    {
      map x | x in Queued() :: x.transfer.refcount
    }

    lemma QueuedSeparate(but: Option<Device>)
      requires Listed(but)
      ensures Separate(Queued())
    {
      var all := pending + active;
      assert forall i :: 0 <= i < |all| ==> all[i].transfer.id == (q.pending + q.active)[i].id;
      SeparateIds(all);
      assert Queued() == (set r | r in all);
      hide Separate, Coherent, LinkedTo;
    }

    lemma DrainBegins(but: Option<Device>, e: Errno)
      requires Listed(but)
      ensures Drained(References(), Queued(), e)
    {
      hide Coherent, LinkedTo;
      QueuedSeparate(but);
    }

    /** One round of a drain. */
    method DropNext(s: Slot, wanted: seq<Submission>, ghost but: Option<Device>, ghost refs: map<HcdRequest, nat>)
      requires ValidBut(but) && q.HasSlot(s) && Drained(refs, Queued(), ESHUTDOWN)
      modifies this`pending, this`active, this`linked, this`accepted, this`q, this`sent, this`givebacks, ids, AtSlot(s).transfer
      ensures ValidBut(but) && Extended(old(sent), sent) && Drained(refs, Queued(), ESHUTDOWN)
      ensures Grown(old(q).Detach(s), q)
      ensures forall x :: x in Queued() ==> x in old(Queued()) || fresh(x.transfer)
      ensures old(Queued()) - {old(AtSlot(s))} <= Queued()
      ensures givebacks == old(givebacks) + [Given(old(q).At(s).urb, old(q).At(s).id, Failed(ESHUTDOWN))]
    {
      hide Coherent, LinkedTo, Grown, Kept, Traced, Borne, Queue.Detach, Gone, Backend.Queued;
      ghost var taken := AtSlot(s);
      Drop(s, ESHUTDOWN, wanted, but);
      forall x | x in refs && x !in Queued() ensures Gone(x.transfer, ESHUTDOWN) && x.transfer.refcount + 1 == refs[x] {
        assert x == taken || x !in old(Queued());
      }
    }

    /** The binding of o taken off the list. */
    method Unbind(k: nat, o: Owner) returns (d: Device)
      requires Valid() && k == OwnerAt(bindings, o) < |bindings|
      modifies this`bindings, this`q
      ensures d == old(q).DeviceOf(o) && ValidBut(Some(d))
      ensures q == old(q).(bindings := Without(old(bindings), k)) && Releasing(old(q), q, o, d, [])
    {
      hide Coherent, LinkedTo, Kept, Traced, Releasing, OwnerAt, Values, Without;
      UnbindCoherent(q, k);
      UnbindLinked(q, k, linked);
      ReleaseBegins(q, o);
      d := bindings[k].device;
      bindings := Without(bindings, k);
      q := q.(bindings := bindings);
    }

    /** The walks one round makes: the device's first pending request, or else its owner's first active one. */
    method NextToRelease(o: Owner, d: Device) returns (s: Slot)
      requires q.pending == Values(pending) && q.active == Values(active)
      ensures s == q.SlotToRelease(o, d)
    {
      var i := Find(pending, OfDevice(d));
      if i < |pending| {
        return Pending(i);
      }
      var j := Find(active, OfDeviceAndOwner(d, o));
      return if j < |active| then Active(j) else Nowhere;
    }

    /** One round of the loop of virtusb_backend_release_owner. */
    method ReleaseOne(s: Slot, o: Owner, d: Device, wanted: seq<Submission>,
                      ghost q0: Queue, ghost done: seq<Request>, ghost refs: map<HcdRequest, nat>)
      returns (next: Slot)
      requires ValidBut(Some(d)) && Drained(refs, Queued(), ESHUTDOWN)
      requires Releasing(q0, q, o, d, done) && s == q.SlotToRelease(o, d) && q.HasSlot(s)
      modifies this`pending, this`active, this`linked, this`accepted, this`q, this`sent, this`givebacks, ids, AtSlot(s).transfer
      ensures ValidBut(Some(d)) && Extended(old(sent), sent) && Drained(refs, Queued(), ESHUTDOWN)
      ensures Releasing(q0, q, o, d, done + [old(q).At(s)]) && next == q.SlotToRelease(o, d) && |done| < |Share(q0, d)|
      ensures forall x :: x in Queued() ==> x in old(Queued()) || fresh(x.transfer)
      ensures forall x :: x in old(Queued()) && x.transfer.device != d ==> x in Queued()
      ensures givebacks == old(givebacks) + [Given(old(q).At(s).urb, old(q).At(s).id, Failed(ESHUTDOWN))]
    {
      ghost var before := q;
      hide Coherent, LinkedTo, Kept, Traced, Borne, Releasing, Share, Grown, Project, Drained;
      hide Queue.SlotToRelease, Queue.Detach;
      SlotFound(q, o, d);
      SlotQueued(s, Some(d));
      assert forall x :: x in refs ==> allocated(x.transfer);
      DropNext(s, wanted, Some(d), refs);
      ReleaseRound(q0, before, q, o, d, done);
      next := NextToRelease(o, d);
    }

    /** The loop of virtusb_backend_release_owner: it touches the device's transfers `ts` and no other. */
    method DrainDevice(o: Owner, d: Device, script: seq<seq<Submission>>,
                       ghost q0: Queue, ghost refs: map<HcdRequest, nat>, ghost ts: set<Transfer>)
      requires ValidBut(Some(d)) && Releasing(q0, q, o, d, []) && Drained(refs, Queued(), ESHUTDOWN)
      requires forall x :: x in Queued() && x.transfer.device == d ==> x.transfer in ts
      modifies this`pending, this`active, this`linked, this`accepted, this`q, this`sent, this`givebacks, ids, ts
      ensures ValidBut(Some(d)) && Extended(old(sent), sent) && Releasing(q0, q, o, d, Share(q0, d)) && Coherent(q, None) && Share(q, d) == []
      ensures givebacks == old(givebacks) + Gives(Share(q0, d), ESHUTDOWN)
      ensures Drained(refs, Queued(), ESHUTDOWN)
      ensures forall x :: x in Queued() ==> x in old(Queued()) || fresh(x.transfer)
      ensures forall x :: x in old(Queued()) && x.transfer.device != d ==> x in Queued()
    {
      hide Coherent, LinkedTo, Kept, Traced, Borne, Releasing, Share, Grown, Project, Drained;
      hide Queue.SlotToRelease, Queue.Detach, Gives, Values, Sound, HcdRequest.Fits;
      ghost var done: seq<Request> := [];
      GivesMore([], Request(0, 0, 0, None, 0), ESHUTDOWN);
      assert givebacks + [] == givebacks;
      assert forall x :: x in refs ==> allocated(x.transfer);
      var s := NextToRelease(o, d);
      var round := 0;
      while s != Nowhere
        invariant ValidBut(Some(d)) && Drained(refs, Queued(), ESHUTDOWN)
        invariant Releasing(q0, q, o, d, done) && s == q.SlotToRelease(o, d)
        invariant givebacks == old(givebacks) + Gives(done, ESHUTDOWN)
        invariant Extended(old(sent), sent)
        invariant forall x :: x in Queued() ==> x in old(Queued()) || fresh(x.transfer)
        invariant forall x :: x in old(Queued()) && x.transfer.device != d ==> x in Queued()
        decreases |Share(q0, d)| - |done|
      {
        SlotFound(q, o, d);
        SlotQueued(s, Some(d));
        ghost var r := q.At(s);
        s := ReleaseOne(s, o, d, if round < |script| then script[round] else [], q0, done, refs);
        GivesMore(done, r, ESHUTDOWN);
        done := done + [r];
        round := round + 1;
      }
      ReleaseEnds(q0, q, o, d, done);
    }

    /** With nothing of the device left, no entry on the lists is the device's. */
    lemma NoneLeft(d: Device, but: Option<Device>)
      requires Listed(but) && Share(q, d) == []
      ensures forall x :: x in Queued() ==> x.transfer.device != d
    {
      ProjectEmpty(q.pending, d);
      ProjectEmpty(q.active, d);
      assert forall i :: 0 <= i < |pending| ==> pending[i].transfer.device == q.pending[i].device;
      assert forall i :: 0 <= i < |active| ==> active[i].transfer.device == q.active[i].device;
    }

    /** virtusb_backend_release_owner; round n's handler submits script[n]. It cancels the
        transfers of the owner's device, and touches no other. */
    method ReleaseOwner(o: Owner, script: seq<seq<Submission>>)
      requires Valid()
      modifies this`bindings, this`pending, this`active, this`linked, this`accepted, this`q, this`sent, this`givebacks, ids
      modifies set x | x in Queued() && Binding(o, x.transfer.device) in bindings :: x.transfer
      ensures Valid() && Extended(old(sent), sent)
      ensures !old(q).Owned(o) ==> q == old(q) && givebacks == old(givebacks) && Queued() == old(Queued())
      ensures old(q).Owned(o) ==>
        var d := old(q).DeviceOf(o);
        && !q.Bound(d) && Share(q, d) == []
        && givebacks == old(givebacks) + Gives(Share(old(q), d), ESHUTDOWN)
        && (forall e :: e != d ==> Project(old(q).pending, e) <= Project(q.pending, e))
        && (forall e :: e != d ==> Project(q.active, e) == Project(old(q).active, e))
        && LeftAndNew(old(QueuedFor(d))) && Lost(old(QueuedFor(d)), ESHUTDOWN)
    {
      hide Coherent, LinkedTo, Kept, Traced, Borne, Share, Project, Gives, Gone;
      var k := FindOwner(o);
      if k == |bindings| {
        return;
      }
      OneDevice(o, k);
      ReleaseBound(o, k, script);
    }

    /** The release of an owner that has a binding, at position k. */
    method ReleaseBound(o: Owner, k: nat, script: seq<seq<Submission>>)
      requires Valid() && k == OwnerAt(bindings, o) < |bindings|
      modifies this`bindings, this`pending, this`active, this`linked, this`accepted, this`q, this`sent, this`givebacks, ids
      modifies set x | x in Queued() && x.transfer.device == bindings[k].device :: x.transfer
      ensures Valid() && Extended(old(sent), sent)
      ensures
        var d := old(bindings)[k].device;
        && d == old(q).DeviceOf(o) && !q.Bound(d) && Share(q, d) == []
        && givebacks == old(givebacks) + Gives(Share(old(q), d), ESHUTDOWN)
        && (forall e :: e != d ==> Project(old(q).pending, e) <= Project(q.pending, e))
        && (forall e :: e != d ==> Project(q.active, e) == Project(old(q).active, e))
        && LeftAndNew(old(QueuedFor(d))) && Lost(old(QueuedFor(d)), ESHUTDOWN)
    {
      hide Coherent, LinkedTo, Kept, Traced, Borne, Share, Project, Gone, Gives, Grown;
      ghost var refs, d := References(), bindings[k].device;
      DrainBegins(None, ESHUTDOWN);
      ReleaseWith(o, k, script, refs, set x | x in Queued() && x.transfer.device == d :: x.transfer);
    }

    /** The same, with the references of the queued transfers counted. */
    method ReleaseWith(o: Owner, k: nat, script: seq<seq<Submission>>, ghost refs: map<HcdRequest, nat>, ghost ts: set<Transfer>)
      requires Valid() && k == OwnerAt(bindings, o) < |bindings| && Drained(refs, Queued(), ESHUTDOWN)
      requires forall x :: x in Queued() && x.transfer.device == bindings[k].device ==> x.transfer in ts
      modifies this`bindings, this`pending, this`active, this`linked, this`accepted, this`q, this`sent, this`givebacks, ids, ts
      ensures Valid() && Extended(old(sent), sent) && Drained(refs, Queued(), ESHUTDOWN)
      ensures
        var d := old(bindings)[k].device;
        && d == old(q).DeviceOf(o) && !q.Bound(d) && Share(q, d) == []
        && givebacks == old(givebacks) + Gives(Share(old(q), d), ESHUTDOWN)
        && (forall e :: e != d ==> Project(old(q).pending, e) <= Project(q.pending, e))
        && (forall e :: e != d ==> Project(q.active, e) == Project(old(q).active, e))
        && (forall x :: x in Queued() ==> fresh(x.transfer) || x in old(Queued()))
        && (forall x :: x in Queued() ==> x.transfer.device != d)
        && (forall x :: x in old(Queued()) && x.transfer.device != d ==> x in Queued())
    {
      hide Coherent, LinkedTo, Kept, Traced, Borne, Share, Project, Drained, Gives, Grown;
      assert forall x :: x in refs ==> allocated(x.transfer);
      var d := Unbind(k, o);
      DrainDevice(o, d, script, old(q), refs, ts);
      NoneLeft(d, None);
    }

    /** An owner binds one device. */
    lemma OneDevice(o: Owner, k: nat)
      requires Listed(None) && k < |bindings| && bindings[k].owner == o
      ensures forall d :: Binding(o, d) in bindings <==> d == bindings[k].device
    {
      forall d | Binding(o, d) in bindings ensures d == bindings[k].device {
        var j :| 0 <= j < |bindings| && bindings[j] == Binding(o, d);
        assert q.bindings[j].owner == q.bindings[k].owner;
      }
      assert bindings[k] == Binding(o, bindings[k].device);
    }

    /** The head of the pending list, or else of the active one. */
    method NextToStop() returns (s: Slot)
      requires q.pending == Values(pending) && q.active == Values(active)
      ensures s == q.SlotToStop()
    {
      if pending != [] {
        return Pending(0);
      }
      return if active != [] then Active(0) else Nowhere;
    }

    /** One round of the first loop of virtusb_backend_stop. */
    method StopOne(s: Slot, wanted: seq<Submission>,
                   ghost q0: Queue, ghost done: seq<Request>, ghost refs: map<HcdRequest, nat>)
      returns (next: Slot)
      requires ValidBut(None) && Drained(refs, Queued(), ESHUTDOWN)
      requires Emptying(q0, q, done) && s == q.SlotToStop() && q.HasSlot(s)
      modifies this`pending, this`active, this`linked, this`accepted, this`q, this`sent, this`givebacks, ids, AtSlot(s).transfer
      ensures ValidBut(None) && Extended(old(sent), sent) && Drained(refs, Queued(), ESHUTDOWN)
      ensures Emptying(q0, q, done + [old(q).At(s)]) && next == q.SlotToStop() && |done| < |Everything(q0)|
      ensures forall x :: x in Queued() ==> x in old(Queued()) || fresh(x.transfer)
      ensures givebacks == old(givebacks) + [Given(old(q).At(s).urb, old(q).At(s).id, Failed(ESHUTDOWN))]
    {
      ghost var before := q;
      hide Coherent, LinkedTo, Kept, Traced, Borne, Emptying, Everything, Grown, Drained;
      hide Queue.SlotToStop, Queue.Detach;
      assert forall x :: x in refs ==> allocated(x.transfer);
      DropNext(s, wanted, None, refs);
      StopRound(q0, before, q, done);
      next := NextToStop();
    }

    /** The first loop of virtusb_backend_stop. */
    method DrainAll(script: seq<seq<Submission>>, ghost refs: map<HcdRequest, nat>, ghost ts: set<Transfer>)
      requires Valid() && stopping && Drained(refs, Queued(), ESHUTDOWN)
      requires forall x :: x in Queued() ==> x.transfer in ts
      modifies this`pending, this`active, this`linked, this`accepted, this`q, this`sent, this`givebacks, ids, ts
      ensures ValidBut(None) && Extended(old(sent), sent) && q == Queue(old(q).bindings, [], [], true)
      ensures givebacks == old(givebacks) + Gives(Everything(old(q)), ESHUTDOWN)
      ensures Drained(refs, Queued(), ESHUTDOWN)
    {
      ghost var q0 := q;
      ghost var done: seq<Request> := [];
      hide Coherent, LinkedTo, Kept, Traced, Borne, Emptying, Everything, Drained, Queue.SlotToStop, Gives;
      StopBegins(q);
      GivesMore([], Request(0, 0, 0, None, 0), ESHUTDOWN);
      assert givebacks + [] == givebacks;
      assert forall x :: x in refs ==> allocated(x.transfer);
      var s := NextToStop();
      var round := 0;
      while s != Nowhere
        invariant ValidBut(None) && Drained(refs, Queued(), ESHUTDOWN)
        invariant Emptying(q0, q, done) && s == q.SlotToStop()
        invariant givebacks == old(givebacks) + Gives(done, ESHUTDOWN)
        invariant Extended(old(sent), sent)
        invariant forall x :: x in Queued() ==> x.transfer in ts || fresh(x.transfer)
        decreases |Everything(q0)| - |done|
      {
        ghost var r := StopSlotFound(q);
        SlotQueued(s, None);
        s := StopOne(s, if round < |script| then script[round] else [], q0, done, refs);
        GivesMore(done, r, ESHUTDOWN);
        done := done + [r];
        round := round + 1;
      }
      StopEnds(q0, q, done);
    }

    /** virtusb_backend_stop. */
    method Stop(script: seq<seq<Submission>>)
      requires Valid()
      modifies this`bindings, this`pending, this`active, this`stopping, this`linked, this`accepted, this`q, this`sent, this`givebacks, ids
      modifies set r | r in pending :: r.transfer, set r | r in active :: r.transfer
      ensures Valid() && Extended(old(sent), sent) && q == Queue([], [], [], true) && linked == {}
      ensures givebacks == old(givebacks) + Gives(Everything(old(q)), ESHUTDOWN)
      ensures Lost(old(Queued()), ESHUTDOWN)
    {
      hide Coherent, LinkedTo, Kept, Traced, Borne, Gone, Gives, Everything;
      ghost var refs := References();
      DrainBegins(None, ESHUTDOWN);
      StopWith(script, refs, set x | x in Queued() :: x.transfer);
    }

    /** The stop, with the references of the queued transfers counted. */
    method StopWith(script: seq<seq<Submission>>, ghost refs: map<HcdRequest, nat>, ghost ts: set<Transfer>)
      requires Valid() && Drained(refs, Queued(), ESHUTDOWN) && forall x :: x in Queued() ==> x.transfer in ts
      modifies this`bindings, this`pending, this`active, this`stopping, this`linked, this`accepted, this`q, this`sent, this`givebacks, ids, ts
      ensures Valid() && Extended(old(sent), sent) && q == Queue([], [], [], true) && linked == {}
      ensures givebacks == old(givebacks) + Gives(Everything(old(q)), ESHUTDOWN)
      ensures Drained(refs, {}, ESHUTDOWN)
    {
      hide Coherent, LinkedTo, Kept, Traced, Borne, Drained, Gives;
      assert forall x :: x in refs ==> allocated(x.transfer);
      Halt();
      DrainAll(script, refs, ts);
      assert pending == [] && active == [];
      assert Queued() == {};
      UnbindAll();
    }

    /** The second loop of virtusb_backend_stop. */
    method UnbindAll()
      requires Valid() && q == Queue(bindings, [], [], true) && pending == [] && active == []
      modifies this`bindings, this`q
      ensures Valid() && q == Queue([], [], [], true) && linked == {}
    {
      assert Urbs([]) == {};
      while bindings != []
        invariant Valid() && q == Queue(bindings, [], [], true)
        decreases |bindings|
      {
        UnbindEmpty(q);
        hide Coherent;
        bindings := bindings[1..];
        q := q.(bindings := bindings);
      }
    }

    method Halt()
      requires Valid()
      modifies this`stopping, this`q
      ensures Valid() && q == old(q).(stopping := true)
    {
      HaltCoherent(q);
      hide Coherent;
      stopping := true;
      q := q.(stopping := true);
    }
  }
}
