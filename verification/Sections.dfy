/** What each locked section answers and does, told by what is on the lists and not by the
    walks that look for it. Owners and devices are bound once each, as every run keeps it. */
module Sections {
  import opened Wrappers
  import opened Queues

  ghost predicate Paired(bs: seq<Binding>) {
    forall i, j :: 0 <= i < j < |bs| ==> bs[i].owner != bs[j].owner && bs[i].device != bs[j].device
  }

  lemma OwnsBinding(q: Queue, o: Owner)
    ensures q.Owned(o) <==> exists b :: b in q.bindings && b.owner == o
    ensures q.Owned(o) ==> Binding(o, q.DeviceOf(o)) in q.bindings
  {
    if q.Owned(o) { assert q.bindings[OwnerAt(q.bindings, o)] == Binding(o, q.DeviceOf(o)); }
  }

  lemma HasBinding(q: Queue, d: Device)
    ensures q.Bound(d) <==> exists b :: b in q.bindings && b.device == d
  {
    if q.Bound(d) { assert q.bindings[DeviceAt(q.bindings, d)].device == d; }
  }

  lemma OneBinding(q: Queue, o: Owner, d: Device)
    requires Paired(q.bindings) && Binding(o, d) in q.bindings
    ensures q.Owned(o) && q.DeviceOf(o) == d
  {
    OwnsBinding(q, o);
    var i :| 0 <= i < |q.bindings| && q.bindings[i] == Binding(o, d);
    var j := OwnerAt(q.bindings, o);
    assert q.bindings[j].owner == q.bindings[i].owner;
  }

  lemma HasPendingIs(q: Queue, d: Device)
    ensures q.HasPending(d) <==> exists r :: r in q.pending && r.device == d
  {
    if q.HasPending(d) { assert q.pending[FirstOf(q.pending, OfDevice(d))] in q.pending; }
  }

  /** A fetch stops waiting exactly when the backend stops or a request is pending for the
      device its owner is bound to. */
  lemma ReadyExact(q: Queue, o: Owner)
    requires Paired(q.bindings)
    ensures q.Ready(o) <==>
      q.stopping || exists b, r :: b in q.bindings && b.owner == o && r in q.pending && r.device == b.device
  {
    OwnsBinding(q, o);
    if q.Owned(o) { HasPendingIs(q, q.DeviceOf(o)); }
    forall b | b in q.bindings && b.owner == o ensures q.Owned(o) && q.DeviceOf(o) == b.device {
      OneBinding(q, o, b.device);
    }
    if q.Owned(o) && q.HasPending(q.DeviceOf(o)) {
      var r :| r in q.pending && r.device == q.DeviceOf(o);
      assert Binding(o, q.DeviceOf(o)).owner == o;
    }
  }

  /** A binding is refused while the backend stops, or if owner or device has one. */
  lemma RegisterExact(q: Queue, o: Owner, d: Device)
    ensures q.Register(o, d) ==
      if q.stopping then Failure(ESHUTDOWN)
      else if exists b :: b in q.bindings && (b.owner == o || b.device == d) then Failure(EBUSY)
      else Success(Queue(q.bindings + [Binding(o, d)], q.pending, q.active, false))
  {
    OwnsBinding(q, o);
    HasBinding(q, d);
  }

  /** A request is refused while the backend stops, if its device is not bound, or if its URB
      cannot be linked; otherwise it becomes the last pending one. */
  lemma SubmitExact(q: Queue, r: Request, link: Option<Errno>)
    ensures q.Submit(r, link) ==
      if q.stopping then Failure(ESHUTDOWN)
      else if forall b :: b in q.bindings ==> b.device != r.device then Failure(ENODEV)
      else if link.Some? then Failure(link.value)
      else Success(Queue(q.bindings, q.pending + [r], q.active, false))
  {
    HasBinding(q, r.device);
  }

  /** What a fetch that has nothing to take answers. */
  lemma FetchRefused(q: Queue, o: Owner)
    requires Paired(q.bindings)
    ensures (forall b :: b in q.bindings ==> b.owner != o) ==> q.Fetch(o) == Failure(ENODEV)
    ensures forall d :: Binding(o, d) in q.bindings && (forall r :: r in q.pending ==> r.device != d) ==>
      q.Fetch(o) == Failure(if q.stopping then ESHUTDOWN else EAGAIN)
  {
    OwnsBinding(q, o);
    forall d | Binding(o, d) in q.bindings && (forall r :: r in q.pending ==> r.device != d)
      ensures q.Fetch(o) == Failure(if q.stopping then ESHUTDOWN else EAGAIN)
    {
      OneBinding(q, o, d);
      HasPendingIs(q, d);
    }
  }

  /** A fetch takes the first pending request of its owner's device, whether or not the backend stops:
      it goes to the end of active with that owner, and nothing else moves. */
  lemma FetchMoves(q: Queue, o: Owner, d: Device, i: nat)
    requires Paired(q.bindings) && Binding(o, d) in q.bindings
    requires i < |q.pending| && q.pending[i].device == d && forall j :: 0 <= j < i ==> q.pending[j].device != d
    ensures var r := q.pending[i].(owner := Some(o));
      q.Fetch(o) == Success((r, Queue(q.bindings, q.pending[..i] + q.pending[i + 1..], q.active + [r], q.stopping)))
  {
    OneBinding(q, o, d);
    FirstOfIs(q.pending, OfDevice(d), i);
  }

  /** A rollback puts the first active request with this owner and id at the head of pending, without
      an owner, and nothing else moves; it fails if there is none. */
  lemma RollbackExact(q: Queue, o: Owner, id: nat, i: nat)
    requires i <= |q.active| && forall j :: 0 <= j < i ==> !(q.active[j].owner == Some(o) && q.active[j].id == id)
    ensures i == |q.active| ==> q.Rollback(o, id) == Failure(ENOENT)
    ensures i < |q.active| && q.active[i].owner == Some(o) && q.active[i].id == id ==>
      q.Rollback(o, id) ==
        Success(Queue(q.bindings, [q.active[i].(owner := None)] + q.pending, q.active[..i] + q.active[i + 1..], q.stopping))
  {
    if i == |q.active| || (q.active[i].owner == Some(o) && q.active[i].id == id) { FirstOfIs(q.active, OfId(o, id), i); }
  }

  // ---- what is taken off --------------------------------------------------------

  /** Cancel takes the URB's first request, from pending before active. */
  lemma CancelTakes(q: Queue, u: Urb)
    ensures match q.SlotOfUrb(u)
      case Pending(i) => i < |q.pending| && q.pending[i].urb == u && forall j :: 0 <= j < i ==> q.pending[j].urb != u
      case Active(i) =>
        && (forall r :: r in q.pending ==> r.urb != u)
        && i < |q.active| && q.active[i].urb == u && forall j :: 0 <= j < i ==> q.active[j].urb != u
      case Nowhere => forall r :: r in q.pending + q.active ==> r.urb != u
  {
  }

  /** Completion takes the first active request with this owner and id, and never a pending one. */
  lemma CompleteTakes(q: Queue, o: Owner, id: nat)
    ensures match q.SlotOfId(o, id)
      case Pending(i) => false
      case Active(i) =>
        && i < |q.active| && q.active[i].owner == Some(o) && q.active[i].id == id
        && forall j :: 0 <= j < i ==> !(q.active[j].owner == Some(o) && q.active[j].id == id)
      case Nowhere => forall r :: r in q.active ==> !(r.owner == Some(o) && r.id == id)
  {
  }

  /** A round of release takes the device's first pending request, or else the first active one that
      this owner has of it; it ends when there is neither. */
  lemma ReleaseTakes(q: Queue, o: Owner, d: Device)
    ensures match q.SlotToRelease(o, d)
      case Pending(i) => i < |q.pending| && q.pending[i].device == d && forall j :: 0 <= j < i ==> q.pending[j].device != d
      case Active(i) =>
        && (forall r :: r in q.pending ==> r.device != d)
        && i < |q.active| && q.active[i].device == d && q.active[i].owner == Some(o)
        && forall j :: 0 <= j < i ==> !(q.active[j].device == d && q.active[j].owner == Some(o))
      case Nowhere =>
        && (forall r :: r in q.pending ==> r.device != d)
        && (forall r :: r in q.active ==> !(r.device == d && r.owner == Some(o)))
  {
  }

  /** A round of stop takes the head of pending, or else of active; it ends when both are empty. */
  lemma StopTakes(q: Queue)
    ensures match q.SlotToStop()
      case Pending(i) => i == 0 < |q.pending|
      case Active(i) => q.pending == [] && i == 0 < |q.active|
      case Nowhere => q.pending == [] && q.active == []
  {
  }

  /** What is taken off leaves its list, and nothing else changes. */
  lemma DetachRemoves(q: Queue, s: Slot)
    requires q.HasSlot(s)
    ensures s != Nowhere
    ensures s.Pending? ==>
      && s.index < |q.pending| && q.At(s) == q.pending[s.index]
      && q.Detach(s) == Queue(q.bindings, q.pending[..s.index] + q.pending[s.index + 1..], q.active, q.stopping)
    ensures s.Active? ==>
      && s.index < |q.active| && q.At(s) == q.active[s.index]
      && q.Detach(s) == Queue(q.bindings, q.pending, q.active[..s.index] + q.active[s.index + 1..], q.stopping)
  {
  }
}
