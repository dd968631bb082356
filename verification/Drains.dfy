/** What the two drain loops do to a queue, round by round. */
module Drains {
  import opened Wrappers
  import opened Queues
  import opened Transfers
  import opened Rollbacks
  import opened Coherence

  /** One call of usb_hcd_giveback_urb. */
  datatype Given = Given(urb: nat, id: nat, status: Status)

  /** These requests given back in this order with this error. */
  function Gives(rs: seq<Request>, e: Errno): (gs: seq<Given>)
    ensures |gs| == |rs| && forall i :: 0 <= i < |rs| ==> gs[i] == Given(rs[i].urb, rs[i].id, Failed(e))
  {
    seq(|rs|, i requires 0 <= i < |rs| => Given(rs[i].urb, rs[i].id, Failed(e)))
  }

  lemma GivesMore(rs: seq<Request>, r: Request, e: Errno)
    ensures Gives([], e) == []
    ensures Gives(rs + [r], e) == Gives(rs, e) + [Given(r.urb, r.id, Failed(e))]
  {
  }

  /** What completion handlers add to the queue while a request is given back:
      requests at the end of pending, for bound devices, and none once stopping. */
  ghost predicate Grown(p: Queue, q: Queue) {
    && q.bindings == p.bindings && q.active == p.active && q.stopping == p.stopping
    && |p.pending| <= |q.pending| && q.pending[..|p.pending|] == p.pending
    && (forall i :: |p.pending| <= i < |q.pending| ==> p.Bound(q.pending[i].device))
    && (p.stopping ==> q == p)
  }

  lemma GrownNone(q: Queue)
    ensures Grown(q, q)
  {
  }

  lemma GrownBySubmit(p: Queue, q: Queue, r: Request, link: Option<Errno>)
    requires Grown(p, q) && q.Submit(r, link).Success?
    ensures Grown(p, q.Submit(r, link).value)
  {
  }

  /** Growth adds behind each bound device's requests, and nothing for other devices. */
  lemma GrownProject(p: Queue, q: Queue, d: Device)
    requires Grown(p, q)
    ensures Project(p.pending, d) <= Project(q.pending, d)
    ensures !p.Bound(d) ==> Project(q.pending, d) == Project(p.pending, d)
  {
    var added := q.pending[|p.pending|..];
    assert q.pending == p.pending + added;
    ProjectConcat(p.pending, added, d);
    if !p.Bound(d) {
      assert forall i :: 0 <= i < |added| ==> added[i] == q.pending[|p.pending| + i];
      ProjectNone(added, d);
    }
  }

  /** A device's requests, pending before active. */
  function Share(q: Queue, d: Device): seq<Request> {
    Project(q.pending, d) + Project(q.active, d)
  }

  /** Part way through the release of device d from owner o: `done` has gone back,
      the rest of d's requests are still there in order, nobody can add to them,
      and no other device has lost a request or its place. */
  ghost predicate Releasing(q0: Queue, q: Queue, o: Owner, d: Device, done: seq<Request>) {
    && !q.Bound(d) && q.stopping == q0.stopping
    && done + Share(q, d) == Share(q0, d)
    && (forall e :: e != d ==> Project(q0.pending, e) <= Project(q.pending, e))
    && (forall e :: e != d ==> Project(q.active, e) == Project(q0.active, e))
    && (forall i :: 0 <= i < |q.active| && q.active[i].device == d ==> q.active[i].owner == Some(o))
  }

  lemma ReleaseBegins(q: Queue, o: Owner)
    requires Coherent(q, None) && q.Owned(o)
    ensures Releasing(q, q.(bindings := Without(q.bindings, OwnerAt(q.bindings, o))), o, q.DeviceOf(o), [])
  {
    var k := OwnerAt(q.bindings, o);
    forall i | 0 <= i < |q.active| && q.active[i].device == q.DeviceOf(o) ensures q.active[i].owner == Some(o) {
      ActiveOwner(q, o, i);
    }
    assert [] + Share(q, q.DeviceOf(o)) == Share(q, q.DeviceOf(o));
  }

  lemma SlotFound(q: Queue, o: Owner, d: Device)
    requires q.SlotToRelease(o, d) != Nowhere
    ensures q.HasSlot(q.SlotToRelease(o, d)) && q.At(q.SlotToRelease(o, d)).device == d
  {
  }

  /** The round takes the first request of d that is left. */
  lemma ReleaseTakesFirst(q: Queue, o: Owner, d: Device)
    requires q.SlotToRelease(o, d) != Nowhere
    requires forall i :: 0 <= i < |q.active| && q.active[i].device == d ==> q.active[i].owner == Some(o)
    ensures var s := q.SlotToRelease(o, d);
      && q.HasSlot(s) && q.At(s).device == d && Share(q, d) == [q.At(s)] + Share(q.Detach(s), d)
  {
    var s := q.SlotToRelease(o, d);
    if s.Pending? {
      ProjectWithout(q.pending, s.index, d);
    } else {
      ProjectNone(q.pending, d);
      FirstOfIs(q.active, OfDevice(d), s.index);
      ProjectWithout(q.active, s.index, d);
    }
  }

  lemma DetachLeavesOthers(q: Queue, s: Slot, e: Device)
    requires q.HasSlot(s) && q.At(s).device != e
    ensures Project(q.Detach(s).pending, e) == Project(q.pending, e)
    ensures Project(q.Detach(s).active, e) == Project(q.active, e)
  {
    if s.Pending? { ProjectWithout(q.pending, s.index, e); } else { ProjectWithout(q.active, s.index, e); }
  }

  lemma ReleaseRound(q0: Queue, q: Queue, after: Queue, o: Owner, d: Device, done: seq<Request>)
    requires Releasing(q0, q, o, d, done) && q.SlotToRelease(o, d) != Nowhere
    requires q.HasSlot(q.SlotToRelease(o, d)) && Grown(q.Detach(q.SlotToRelease(o, d)), after)
    ensures Releasing(q0, after, o, d, done + [q.At(q.SlotToRelease(o, d))])
    ensures |done| < |Share(q0, d)|
  {
    var s := q.SlotToRelease(o, d);
    var left := q.Detach(s);
    ReleaseTakesFirst(q, o, d);
    GrownProject(left, after, d);
    assert done + Share(q, d) == done + [q.At(s)] + Share(left, d);
    assert forall i :: 0 <= i < |left.active| ==> left.active[i] in q.active;
    forall e | e != d ensures Project(q0.pending, e) <= Project(after.pending, e) && Project(after.active, e) == Project(q0.active, e) {
      hide Project;
      DetachLeavesOthers(q, s, e);
      GrownProject(left, after, e);
    }
  }

  /** When no round finds a request, the device has none left on either list. */
  lemma ReleaseEnds(q0: Queue, q: Queue, o: Owner, d: Device, done: seq<Request>)
    requires Releasing(q0, q, o, d, done) && Coherent(q, Some(d)) && q.SlotToRelease(o, d) == Nowhere
    ensures Coherent(q, None) && Share(q, d) == [] && done == Share(q0, d)
  {
    assert forall i :: 0 <= i < |q.active| ==> !Matches(q.active[i], OfDeviceAndOwner(d, o));
    ProjectNone(q.pending, d);
    ProjectNone(q.active, d);
  }

  /** Every queued request, in the order a stop gives them back. */
  function Everything(q: Queue): seq<Request> {
    q.pending + q.active
  }

  /** Part way through a stop. */
  ghost predicate Emptying(q0: Queue, q: Queue, done: seq<Request>) {
    && q.stopping && q.bindings == q0.bindings && done + Everything(q) == Everything(q0)
  }

  lemma StopBegins(q: Queue)
    requires q.stopping
    ensures Emptying(q, q, [])
  {
    assert [] + (q.pending + q.active) == q.pending + q.active;
  }

  lemma StopRound(q0: Queue, q: Queue, after: Queue, done: seq<Request>)
    requires Emptying(q0, q, done) && q.SlotToStop() != Nowhere && Grown(q.Detach(q.SlotToStop()), after)
    ensures Emptying(q0, after, done + [q.At(q.SlotToStop())])
    ensures |done| < |Everything(q0)|
  {
    var s := q.SlotToStop();
    if s.Pending? {
      assert q.pending == [q.pending[0]] + Without(q.pending, 0);
    } else {
      assert q.active == [q.active[0]] + Without(q.active, 0);
    }
    assert q.pending + q.active == [q.At(s)] + (after.pending + after.active);
    assert done + (q.pending + q.active) == done + [q.At(s)] + (after.pending + after.active);
  }

  lemma StopSlotFound(q: Queue) returns (r: Request)
    requires q.SlotToStop() != Nowhere
    ensures q.HasSlot(q.SlotToStop()) && r == q.At(q.SlotToStop())
  {
    r := q.At(q.SlotToStop());
  }

  lemma StopEnds(q0: Queue, q: Queue, done: seq<Request>)
    requires Emptying(q0, q, done) && q.SlotToStop() == Nowhere
    ensures q == Queue(q0.bindings, [], [], true) && done == Everything(q0)
  {
    assert done + ([] + []) == done;
  }
}
