/** What the queue looks like between whole operations, when every operation
    runs to its end before the next one starts. */
module Coherence {
  import opened Wrappers
  import opened Queues
  import opened Rollbacks

  predicate Exempt(d: Device, but: Option<Device>) { but == Some(d) }

  predicate BoundTo(bs: seq<Binding>, r: Request) {
    exists i :: 0 <= i < |bs| && bs[i].device == r.device && (r.owner.Some? ==> bs[i].owner == r.owner.value)
  }

  /** Every request is on one list once, and its device is bound; an active
      request's owner is the one its device is bound to. While a release
      drains device `but`, that device alone is exempt from the last part. */
  ghost predicate Coherent(q: Queue, but: Option<Device>) {
    && Tidy(q)
    && (forall i, j :: 0 <= i < j < |q.active| ==> q.active[i].id != q.active[j].id)
    && (forall i :: 0 <= i < |q.active| ==> q.active[i].owner.Some?)
    && (forall i, j :: 0 <= i < j < |q.bindings| ==>
          q.bindings[i].owner != q.bindings[j].owner && q.bindings[i].device != q.bindings[j].device)
    && (forall i :: 0 <= i < |q.pending| && !Exempt(q.pending[i].device, but) ==> BoundTo(q.bindings, q.pending[i]))
    && (forall i :: 0 <= i < |q.active| && !Exempt(q.active[i].device, but) ==> BoundTo(q.bindings, q.active[i]))
  }

  function Urbs(rs: seq<Request>): set<Urb> {
    set i | 0 <= i < |rs| :: rs[i].urb
  }

  /** The endpoint lists hold the URBs of the queue, and each URB is on it once. */
  ghost predicate LinkedTo(q: Queue, linked: set<Urb>) {
    && linked == Urbs(q.pending) + Urbs(q.active)
    && (forall i, j :: 0 <= i < j < |q.pending| ==> q.pending[i].urb != q.pending[j].urb)
    && (forall i, j :: 0 <= i < j < |q.active| ==> q.active[i].urb != q.active[j].urb)
    && (forall i, j :: 0 <= i < |q.pending| && 0 <= j < |q.active| ==> q.pending[i].urb != q.active[j].urb)
  }

  lemma SubmitCoherent(q: Queue, r: Request, but: Option<Device>)
    requires Coherent(q, but) && q.Submit(r, None).Success? && r.owner == None
    requires forall i :: 0 <= i < |q.pending| ==> q.pending[i].id != r.id
    requires forall i :: 0 <= i < |q.active| ==> q.active[i].id != r.id
    ensures Coherent(q.Submit(r, None).value, but)
  {
    assert BoundTo(q.bindings, r) by { assert q.bindings[DeviceAt(q.bindings, r.device)].device == r.device; }
  }

  lemma SubmitLinked(q: Queue, r: Request, linked: set<Urb>)
    requires LinkedTo(q, linked) && r.urb !in linked
    ensures LinkedTo(q.(pending := q.pending + [r]), linked + {r.urb})
  {
    var p := q.(pending := q.pending + [r]);
    assert forall i :: 0 <= i < |q.pending| ==> p.pending[i] == q.pending[i];
    assert p.pending[|q.pending|] == r;
    assert Urbs(p.pending) == Urbs(q.pending) + {r.urb};
    assert forall i :: 0 <= i < |q.pending| ==> q.pending[i].urb in Urbs(q.pending);
    assert forall i :: 0 <= i < |q.active| ==> q.active[i].urb in Urbs(q.active);
  }

  lemma FetchCoherent(q: Queue, o: Owner)
    requires Coherent(q, None) && q.Fetch(o).Success?
    ensures Coherent(q.Fetch(o).value.1, None)
  {
    var (r, p) := q.Fetch(o).value;
    assert BoundTo(p.bindings, r) by {
      var k := OwnerAt(q.bindings, o);
      assert q.bindings[k].device == r.device && q.bindings[k].owner == o;
    }
  }

  lemma FetchLinked(q: Queue, o: Owner, linked: set<Urb>)
    requires LinkedTo(q, linked) && q.Fetch(o).Success?
    ensures LinkedTo(q.Fetch(o).value.1, linked)
  {
    var (r, p) := q.Fetch(o).value;
    var i := FirstOf(q.pending, OfDevice(q.DeviceOf(o)));
    UrbsWithout(q.pending, i);
    UrbsAppend(q.active, r);
  }

  lemma UrbsWithout(rs: seq<Request>, i: nat)
    requires i < |rs| && forall a, b :: 0 <= a < b < |rs| ==> rs[a].urb != rs[b].urb
    ensures Urbs(Without(rs, i)) == Urbs(rs) - {rs[i].urb}
  {
    var ss := Without(rs, i);
    forall u | u in Urbs(rs) - {rs[i].urb} ensures u in Urbs(ss) {
      var j :| 0 <= j < |rs| && rs[j].urb == u;
      assert ss[if j < i then j else j - 1] == rs[j];
    }
    forall u | u in Urbs(ss) ensures u in Urbs(rs) - {rs[i].urb} {
      var j :| 0 <= j < |ss| && ss[j].urb == u;
      assert ss[j] == rs[if j < i then j else j + 1];
    }
  }

  lemma UrbsAppend(rs: seq<Request>, r: Request)
    ensures Urbs(rs + [r]) == Urbs(rs) + {r.urb}
    ensures Urbs([r] + rs) == Urbs(rs) + {r.urb}
  {
    forall u | u in Urbs(rs) + {r.urb} ensures u in Urbs(rs + [r]) && u in Urbs([r] + rs) {
      if u == r.urb {
        assert (rs + [r])[|rs|] == r && ([r] + rs)[0] == r;
      } else {
        var j :| 0 <= j < |rs| && rs[j].urb == u;
        assert (rs + [r])[j] == rs[j] && ([r] + rs)[j + 1] == rs[j];
      }
    }
  }

  lemma RollbackCoherent(q: Queue, o: Owner, id: nat)
    requires Coherent(q, None) && q.Rollback(o, id).Success?
    ensures Coherent(q.Rollback(o, id).value, None)
  {
    var p := q.Rollback(o, id).value;
    var i := FirstOf(q.active, OfId(o, id));
    assert BoundTo(q.bindings, q.active[i]);
    assert BoundTo(p.bindings, p.pending[0]);
  }

  lemma RollbackLinked(q: Queue, o: Owner, id: nat, linked: set<Urb>)
    requires LinkedTo(q, linked) && q.Rollback(o, id).Success?
    ensures LinkedTo(q.Rollback(o, id).value, linked)
  {
    var i := FirstOf(q.active, OfId(o, id));
    UrbsWithout(q.active, i);
    UrbsAppend(q.pending, q.active[i].(owner := None));
  }

  lemma DetachCoherent(q: Queue, s: Slot, but: Option<Device>)
    requires Coherent(q, but) && q.HasSlot(s)
    ensures Coherent(q.Detach(s), but)
  {
  }

  /** A detached request is on neither list any more. */
  lemma DetachedUnqueued(q: Queue, s: Slot, but: Option<Device>)
    requires Coherent(q, but) && q.HasSlot(s)
    ensures forall i :: 0 <= i < |q.Detach(s).pending| ==> q.Detach(s).pending[i].id != q.At(s).id
    ensures forall i :: 0 <= i < |q.Detach(s).active| ==> q.Detach(s).active[i].id != q.At(s).id
  {
  }

  lemma DetachLinked(q: Queue, s: Slot, linked: set<Urb>)
    requires LinkedTo(q, linked) && q.HasSlot(s)
    ensures q.At(s).urb in linked && LinkedTo(q.Detach(s), linked - {q.At(s).urb})
  {
    if s.Pending? {
      UrbsWithout(q.pending, s.index);
    } else {
      UrbsWithout(q.active, s.index);
    }
  }

  /** A URB is linked exactly while cancel finds its request. */
  lemma LinkedSlot(q: Queue, linked: set<Urb>, u: Urb)
    requires LinkedTo(q, linked)
    ensures u in linked <==> q.SlotOfUrb(u) != Nowhere
  {
  }

  lemma RegisterCoherent(q: Queue, o: Owner, d: Device)
    requires Coherent(q, None) && q.Register(o, d).Success?
    ensures Coherent(q.Register(o, d).value, None)
  {
    var p := q.Register(o, d).value;
    assert forall i :: 0 <= i < |q.bindings| ==> p.bindings[i] == q.bindings[i];
    forall i | 0 <= i < |q.pending| ensures BoundTo(p.bindings, q.pending[i]) { assert BoundTo(q.bindings, q.pending[i]); }
    forall i | 0 <= i < |q.active| ensures BoundTo(p.bindings, q.active[i]) { assert BoundTo(q.bindings, q.active[i]); }
  }

  lemma RegisterLinked(q: Queue, o: Owner, d: Device, linked: set<Urb>)
    requires LinkedTo(q, linked) && q.Register(o, d).Success?
    ensures LinkedTo(q.Register(o, d).value, linked)
  {
  }

  lemma UnbindLinked(q: Queue, k: nat, linked: set<Urb>)
    requires LinkedTo(q, linked) && k < |q.bindings|
    ensures LinkedTo(q.(bindings := Without(q.bindings, k)), linked)
  {
  }

  lemma HaltCoherent(q: Queue)
    requires Coherent(q, None)
    ensures Coherent(q.(stopping := true), None)
  {
  }

  lemma UnbindEmpty(q: Queue)
    requires Coherent(q, None) && q.pending == [] && q.active == [] && q.bindings != []
    ensures Coherent(q.(bindings := q.bindings[1..]), None)
  {
  }

  /** Without its binding, only the released device's requests are exempt. */
  lemma UnbindCoherent(q: Queue, k: nat)
    requires Coherent(q, None) && k < |q.bindings|
    ensures Coherent(q.(bindings := Without(q.bindings, k)), Some(q.bindings[k].device))
  {
    var d := q.bindings[k].device;
    var bs := Without(q.bindings, k);
    forall r: Request | BoundTo(q.bindings, r) && r.device != d ensures BoundTo(bs, r) {
      var i :| 0 <= i < |q.bindings| && q.bindings[i].device == r.device && (r.owner.Some? ==> q.bindings[i].owner == r.owner.value);
      assert bs[if i < k then i else i - 1] == q.bindings[i];
    }
  }

  /** An active request of a bound device belongs to the owner bound to it. */
  lemma ActiveOwner(q: Queue, o: Owner, i: nat)
    requires Coherent(q, None) && q.Owned(o) && i < |q.active| && q.active[i].device == q.DeviceOf(o)
    ensures q.active[i].owner == Some(o)
  {
    assert BoundTo(q.bindings, q.active[i]);
  }
}
