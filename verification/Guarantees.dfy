/** What the conservation laws say about every reachable state, in terms of the
    lists, the threads and the histories themselves. */
module Guarantees {
  import opened Wrappers
  import opened Sums
  import opened Queues
  import opened Transfers
  import opened Machines
  import opened Frames
  import opened Ledger
  import opened Conservation
  import opened Steps

  ghost predicate Reachable(m: Machine) { exists es :: Run(Boot(), es, m) }

  lemma ReachableInv(m: Machine)
    requires Reachable(m)
    ensures Inv(m)
  {
    BootKeeps();
    var es :| Run(Boot(), es, m);
    RunKeeps(Boot(), es, m);
  }

  lemma {:induction false} RunThen(m: Machine, es: seq<Event>, n: Machine, e: Event)
    requires Run(m, es, n) && Enabled(n, e)
    ensures Run(m, es + [e], Next(n, e))
    decreases es
  {
    if es == [] {
      assert es + [e] == [e] && [e][1..] == [];
    } else {
      assert (es + [e])[1..] == es[1..] + [e];
      RunThen(Next(m, es[0]), es[1..], n, e);
    }
  }

  lemma ReachNext(m: Machine, e: Event, n: Machine)
    requires Reachable(m) && Enabled(m, e) && n == Next(m, e)
    ensures Reachable(n)
  {
    var es :| Run(Boot(), es, m);
    RunThen(Boot(), es, m, e);
  }

  // ---- histories -------------------------------------------------------

  lemma {:induction false} RunExtends(m: Machine, es: seq<Event>, n: Machine)
    requires Run(m, es, n)
    ensures Extends(m, n)
    decreases es
  {
    if es != [] {
      StepFrame(m, es[0]);
      RunExtends(Next(m, es[0]), es[1..], n);
    }
  }

  lemma Counted(xs: seq<nat>, i: nat)
    requires i < |xs|
    ensures Count(xs, xs[i]) > 0
  {
    TotalAtLeast(xs, i, Is(xs[i]));
  }

  // ---- exactly-once giveback -------------------------------------------

  /** How many threads hold the detached request of a transfer. */
  function InHand(m: Machine, id: nat): nat { Pcs(m.threads, Place(id)) }

  function OnList(rs: seq<Request>, id: nat): nat { Reqs(rs, Place(id)) }

  /** An accepted request is at all times in exactly one of pending, active, one
      thread's hand, or given back; nothing else is ever given back. */
  lemma ExactlyOnce(m: Machine, id: nat)
    requires Reachable(m)
    ensures Count(m.accepted, id) <= 1
    ensures OnList(m.q.pending, id) + OnList(m.q.active, id) + InHand(m, id) + Count(m.given, id) == Count(m.accepted, id)
  {
    ReachableInv(m);
    assert Law(m, Place(id)) && Law(m, Offer(id));
  }

  /** The same for a URB: it is in flight at most once, and linked exactly while queued. */
  lemma UrbInFlightOnce(m: Machine, u: Urb)
    requires Reachable(m)
    ensures Reqs(m.q.pending, Use(u)) + Reqs(m.q.active, Use(u)) + Pcs(m.threads, Use(u)) <= 1
    ensures u in m.linked <==>
      (exists i :: 0 <= i < |m.q.pending| && m.q.pending[i].urb == u) || (exists i :: 0 <= i < |m.q.active| && m.q.active[i].urb == u)
  {
    ReachableInv(m);
    assert Law(m, Use(u));
    forall i | 0 <= i < |m.q.pending| && m.q.pending[i].urb == u ensures u in m.linked {
      TotalAtLeast(m.q.pending, i, OfReq(Use(u)));
    }
    forall i | 0 <= i < |m.q.active| && m.q.active[i].urb == u ensures u in m.linked {
      TotalAtLeast(m.q.active, i, OfReq(Use(u)));
    }
    if u in m.linked {
      if Reqs(m.q.pending, Use(u)) > 0 {
        TotalPositive(m.q.pending, OfReq(Use(u)));
      } else {
        TotalPositive(m.q.active, OfReq(Use(u)));
      }
    }
  }

  /** A transfer no thread can offer any more and that was not accepted. */
  ghost predicate Barred(m: Machine, id: nat) {
    && m.Known(id) && Count(m.accepted, id) == 0
    && (forall th :: 0 <= th < |m.threads| && (m.threads[th].Created? || m.threads[th].Linking?) ==> m.threads[th].id != id)
  }

  lemma StepBarred(m: Machine, e: Event, id: nat)
    requires Enabled(m, e) && Barred(m, id)
    ensures Barred(Next(m, e), id)
  {
    hide Total;
    var n := Next(m, e);
    StepFrame(m, e);
    if e.Lock? {
      LockNotBarred(m, e, id);
    } else if e.Spawn? || e.WakeUp? {
      RousedBarred(m, e, id);
    }
    hide Next, Enabled;
    if !e.Spawn? && !e.WakeUp? {
      forall th | 0 <= th < |n.threads| && (n.threads[th].Created? || n.threads[th].Linking?) ensures n.threads[th].id != id {
        assert th != e.th ==> n.threads[th] == m.threads[th];
      }
    }
  }

  lemma LockNotBarred(m: Machine, e: Event, id: nat)
    requires Enabled(m, e) && Barred(m, id) && e.Lock?
    ensures Count(Next(m, e).accepted, id) == 0
  {
    hide Total;
    TotalAppend(m.accepted, m.At(e.th).id, Is(id));
  }

  lemma RousedBarred(m: Machine, e: Event, id: nat)
    requires Enabled(m, e) && Barred(m, id) && (e.Spawn? || e.WakeUp?)
    ensures Barred(Next(m, e), id)
  {
    hide Total;
  }

  lemma {:induction false} RunBarred(m: Machine, es: seq<Event>, n: Machine, id: nat)
    requires Run(m, es, n) && Barred(m, id)
    ensures Barred(n, id)
    decreases es
  {
    if es != [] {
      StepBarred(m, es[0], id);
      RunBarred(Next(m, es[0]), es[1..], n, id);
    }
  }

  /** A URB whose submit failed is never given back for that submission,
      whatever the other threads do afterwards. */
  lemma RefusedNeverGivenBack(m: Machine, th: nat, es: seq<Event>, n: Machine)
    requires Reachable(m) && th < |m.threads| && m.threads[th].Refused? && Run(m, es, n)
    ensures Count(n.given, m.threads[th].id) == 0
  {
    var id := m.threads[th].id;
    ReachableInv(m);
    assert Law(m, Offer(id));
    TotalAtLeast(m.threads, th, OfPc(Offer(id)));
    forall j | 0 <= j < |m.threads| && (m.threads[j].Created? || m.threads[j].Linking?) ensures m.threads[j].id != id {
      if m.threads[j].id == id { OfferedOnce(m, th, j, id); }
    }
    RunBarred(m, es, n, id);
    RunKeeps(m, es, n);
    assert Law(n, Place(id));
  }

  /** The same for a transfer that enqueue gives up before the locked section, for want of
      memory or because its payload is too long. */
  lemma GivenUpNeverGivenBack(m: Machine, th: nat, es: seq<Event>, n: Machine)
    requires Reachable(m) && Enabled(m, GiveUp(th)) && Run(Next(m, GiveUp(th)), es, n)
    ensures Count(n.given, m.At(th).id) == 0
  {
    var id := m.At(th).id;
    ReachableInv(m);
    GivenUpIsBarred(m, th);
    StepKeeps(m, GiveUp(th));
    RunBarred(Next(m, GiveUp(th)), es, n, id);
    RunKeeps(Next(m, GiveUp(th)), es, n);
    assert Law(n, Place(id));
  }

  lemma GivenUpIsBarred(m: Machine, th: nat)
    requires Inv(m) && Enabled(m, GiveUp(th))
    ensures Barred(Next(m, GiveUp(th)), m.At(th).id)
  {
    hide Total, NextDetach, NextSettle, NextServe, NextRefer;
    var id := m.At(th).id;
    assert Law(m, Offer(id)) && PcGenuine(m, m.threads[th]);
    OfferedWeighs(m, th);
    forall j | 0 <= j < |m.threads| && j != th && (m.threads[j].Created? || m.threads[j].Linking?) ensures m.threads[j].id != id {
      if m.threads[j].id == id { OfferedOnce(m, th, j, id); }
    }
  }

  lemma OfferedWeighs(m: Machine, th: nat)
    requires th < |m.threads| && m.threads[th].Created?
    ensures Pcs(m.threads, Offer(m.threads[th].id)) > 0
  {
    TotalAtLeast(m.threads, th, OfPc(Offer(m.threads[th].id)));
  }

  // ---- references ------------------------------------------------------

  /** A transfer's count is its creators', requests' and fetches' references;
      it was released once if that is none, and not at all otherwise. */
  lemma TransferReferences(m: Machine, id: nat)
    requires Reachable(m)
    ensures m.X(id).refs == Reqs(m.q.pending, XferRefs(id)) + Reqs(m.q.active, XferRefs(id)) + Pcs(m.threads, XferRefs(id))
    ensures Count(m.freedXfers, id) == if m.Known(id) && m.X(id).refs == 0 then 1 else 0
  {
    ReachableInv(m);
    assert Law(m, XferRefs(id));
  }

  /** A device's count is its registry reference, bindings, live transfers and callers. */
  lemma DeviceReferences(m: Machine, d: Device)
    requires Reachable(m)
    ensures m.D(d).refs == (if m.D(d).registered then 1 else 0) + Binds(m.q.bindings, d) + Live(m.xfers, d) + Pcs(m.threads, DevRefs(d))
    ensures Count(m.freedDevs, d) == if d < |m.devs| && m.D(d).refs == 0 then 1 else 0
  {
    ReachableInv(m);
    assert Law(m, DevRefs(d));
  }

  /** No queued request and no thread can reach a released transfer. */
  lemma ReachedTransferIsLive(m: Machine, id: nat)
    requires Reachable(m)
    requires
      || (exists i :: 0 <= i < |m.q.pending| && m.q.pending[i].id == id)
      || (exists i :: 0 <= i < |m.q.active| && m.q.active[i].id == id)
      || (exists th :: 0 <= th < |m.threads| && PcWeight(m.threads[th], XferRefs(id)) > 0)
    ensures m.Known(id) && m.X(id).refs > 0 && Count(m.freedXfers, id) == 0
  {
    ReachableInv(m);
    var k := XferRefs(id);
    assert Law(m, k);
    if i :| 0 <= i < |m.q.pending| && m.q.pending[i].id == id {
      TotalAtLeast(m.q.pending, i, OfReq(k));
    } else if i :| 0 <= i < |m.q.active| && m.q.active[i].id == id {
      TotalAtLeast(m.q.active, i, OfReq(k));
    } else if th :| 0 <= th < |m.threads| && PcWeight(m.threads[th], k) > 0 {
      TotalAtLeast(m.threads, th, OfPc(k));
    }
  }

  /** No registry entry, binding, live transfer or thread can reach a released device. */
  lemma ReachedDeviceIsLive(m: Machine, d: Device)
    requires Reachable(m)
    requires m.D(d).registered
      || (exists i :: 0 <= i < |m.q.bindings| && m.q.bindings[i].device == d)
      || (exists id: nat :: m.Known(id) && m.X(id).refs > 0 && m.X(id).device == d)
      || (exists th :: 0 <= th < |m.threads| && PcWeight(m.threads[th], DevRefs(d)) > 0)
    ensures d < |m.devs| && m.D(d).refs > 0 && Count(m.freedDevs, d) == 0
  {
    ReachableInv(m);
    assert Law(m, DevRefs(d));
    if i :| 0 <= i < |m.q.bindings| && m.q.bindings[i].device == d {
      TotalAtLeast(m.q.bindings, i, OfBinding(d));
    } else if id: nat :| m.Known(id) && m.X(id).refs > 0 && m.X(id).device == d {
      TotalAtLeast(m.xfers, id - 1, OfXfer(d));
    } else if th :| 0 <= th < |m.threads| && PcWeight(m.threads[th], DevRefs(d)) > 0 {
      TotalAtLeast(m.threads, th, OfPc(DevRefs(d)));
    }
  }

  /** A release is final: what was released once is never referenced again. */
  lemma ReleasedForGood(m: Machine, es: seq<Event>, n: Machine)
    requires Reachable(m) && Run(m, es, n)
    ensures forall id: nat :: id in m.freedXfers ==> n.X(id).refs == 0
    ensures forall d: Device :: d in m.freedDevs ==> n.D(d).refs == 0
  {
    ReachableInv(m);
    RunKeeps(m, es, n);
    RunExtends(m, es, n);
    forall id | id in m.freedXfers ensures n.X(id).refs == 0 {
      var i :| 0 <= i < |m.freedXfers| && m.freedXfers[i] == id;
      Counted(n.freedXfers, i);
      assert Law(n, XferRefs(id));
    }
    forall d | d in m.freedDevs ensures n.D(d).refs == 0 {
      var i :| 0 <= i < |m.freedDevs| && m.freedDevs[i] == d;
      Counted(n.freedDevs, i);
      assert Law(n, DevRefs(d));
    }
  }

  // ---- the coupling of queue, transfers and endpoint --------------------

  /** Every queued transfer is QUEUED, known, within the size bound, on one list
      once, and carries an owner exactly while active. */
  lemma QueuedCoupling(m: Machine)
    requires Reachable(m)
    ensures forall r :: r in m.q.pending ==> r.owner == None
    ensures forall r :: r in m.q.active ==> r.owner.Some?
    ensures forall r :: r in m.q.pending + m.q.active ==>
      r.id > 0 && m.X(r.id).state == Queued && m.X(r.id).length <= DATA_MAX && m.X(r.id).urb == r.urb && m.X(r.id).device == r.device
    ensures forall i, j :: 0 <= i < j < |m.q.pending + m.q.active| ==>
      (m.q.pending + m.q.active)[i].id != (m.q.pending + m.q.active)[j].id
  {
    ReachableInv(m);
    var rs := m.q.pending + m.q.active;
    forall i | 0 <= i < |rs| ensures m.X(rs[i].id).state == Queued {
      var k := Stage(rs[i].id);
      assert Law(m, k);
      TotalConcat(m.q.pending, m.q.active, OfReq(k));
      TotalAtLeast(rs, i, OfReq(k));
    }
    forall i, j | 0 <= i < j < |rs| ensures rs[i].id != rs[j].id {
      var k := Stage(rs[i].id);
      assert Law(m, k);
      TotalConcat(m.q.pending, m.q.active, OfReq(k));
      if rs[i].id == rs[j].id { TotalAtLeastTwo(rs, i, j, OfReq(k)); }
    }
  }

  /** A linked URB is found: cancel cannot take its not-found exit. */
  lemma LinkedIsFound(m: Machine, u: Urb)
    requires Reachable(m) && u in m.linked
    ensures m.q.SlotOfUrb(u) != Nowhere && m.q.At(m.q.SlotOfUrb(u)).urb == u
  {
    UrbInFlightOnce(m, u);
  }

  /** A thread that settles a detached request finds it open: cancelling or
      completing the transfer cannot fail. */
  lemma HeldIsOpen(m: Machine, th: nat)
    requires Reachable(m) && th < |m.threads| && m.threads[th].Holding?
    ensures m.X(m.threads[th].r.id).state == Queued
  {
    ReachableInv(m);
    var k := Stage(m.threads[th].r.id);
    assert Law(m, k);
    TotalAtLeast(m.threads, th, OfPc(k));
  }

  function Rank(s: XferState): nat {
    match s case New => 0 case Queued => 1 case Completed => 2 case Cancelled => 2
  }

  /** Transfer states only go forward; COMPLETED and CANCELLED are final. */
  lemma StepForward(m: Machine, e: Event, id: nat)
    requires Inv(m) && Enabled(m, e)
    ensures Rank(m.X(id).state) <= Rank(Next(m, e).X(id).state)
    ensures !Open(m.X(id).state) ==> Next(m, e).X(id).state == m.X(id).state
  {
    StepFrame(m, e);
    if e.Prepare? || e.Refuse? || e.SettleHeld? {
      assert PcGenuine(m, m.threads[e.th]);
      WritesForward(m, e, id);
    }
  }

  lemma WritesForward(m: Machine, e: Event, id: nat)
    requires Enabled(m, e) && (e.Prepare? || e.Refuse? || e.SettleHeld?) && PcGenuine(m, m.At(e.th))
    ensures Rank(m.X(id).state) <= Rank(Next(m, e).X(id).state)
    ensures !Open(m.X(id).state) ==> Next(m, e).X(id).state == m.X(id).state
  {
  }

  lemma {:induction false} StatesGoForward(m: Machine, es: seq<Event>, n: Machine, id: nat)
    requires Inv(m) && Run(m, es, n)
    ensures Rank(m.X(id).state) <= Rank(n.X(id).state)
    ensures !Open(m.X(id).state) ==> n.X(id).state == m.X(id).state
    decreases es
  {
    if es != [] {
      StepForward(m, es[0], id);
      StepKeeps(m, es[0]);
      StatesGoForward(Next(m, es[0]), es[1..], n, id);
    }
  }
}
