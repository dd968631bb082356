/** What the calls of the backend come to under every interleaving: where each step that decides
    something leads, which end a transfer gets, and that no thread is ever stuck inside a call. */
module Calls {
  import opened Wrappers
  import opened Sums
  import opened Queues
  import opened Transfers
  import opened Machines
  import opened Frames
  import opened Ledger
  import opened Steps
  import opened Guarantees
  import opened Sections
  import Stopping
  import Wakeups

  lemma BoundOnce(m: Machine)
    requires Reachable(m)
    ensures Paired(m.q.bindings)
  {
    ReachableInv(m);
  }

  // ---- fetch, wait and wake -----------------------------------------------------------

  /** A fetch that has read the queue copies a request of its owner's device if one is pending; it waits if its
      owner is bound, nothing is pending, the backend does not stop and the caller is willing; otherwise
      it returns. */
  lemma FetchLeads(m: Machine, th: nat, o: Owner, nonblock: bool)
    requires Reachable(m) && m.At(th) == Fetching(o)
    ensures var pc := Next(m, Fetch(th, nonblock)).At(th);
      && (pc.Copying? <==> exists b, r :: b in m.q.bindings && b.owner == o && r in m.q.pending && r.device == b.device)
      && (pc == Waiting(o, false) <==>
            && !m.q.stopping && !nonblock && (exists b :: b in m.q.bindings && b.owner == o)
            && (forall b, r :: b in m.q.bindings && b.owner == o && r in m.q.pending ==> r.device != b.device))
      && (pc.Copying? || pc == Waiting(o, false) || pc == Idle)
  {
    BoundOnce(m);
    hide NextSubmit, NextDetach, NextSettle, NextRefer, Reachable;
    FetchWays(m.q, o);
  }

  /** Whether a fetch takes something. */
  lemma FetchWays(q: Queue, o: Owner)
    requires Paired(q.bindings)
    ensures q.Fetch(o).Success? <==> exists b, r :: b in q.bindings && b.owner == o && r in q.pending && r.device == b.device
    ensures q.Fetch(o) == Failure(EAGAIN) <==>
      && !q.stopping && (exists b :: b in q.bindings && b.owner == o)
      && (forall b, r :: b in q.bindings && b.owner == o && r in q.pending ==> r.device != b.device)
  {
    OwnsBinding(q, o);
    forall b | b in q.bindings && b.owner == o ensures q.Owned(o) && q.DeviceOf(o) == b.device { OneBinding(q, o, b.device); }
    if q.Owned(o) { HasPendingIs(q, q.DeviceOf(o)); assert Binding(o, q.DeviceOf(o)).owner == o; }
  }

  /** A waiter that reads its condition goes on to fetch exactly if the backend stops or a request is
      pending for the device its owner is bound to; otherwise it sleeps, or waits once more if it has
      been woken meanwhile. Nothing else changes. */
  lemma CheckLeads(m: Machine, th: nat, o: Owner, woken: bool)
    requires Reachable(m) && th < |m.threads| && m.threads[th] == Waiting(o, woken)
    ensures Next(m, Check(th)) == m.(threads := m.threads[th :=
      if m.q.stopping || exists b, r :: b in m.q.bindings && b.owner == o && r in m.q.pending && r.device == b.device then Fetching(o)
      else if woken then Waiting(o, false) else Asleep(o)])
  {
    BoundOnce(m);
    ReadyExact(m.q, o);
    hide Reachable, Queue.Ready, NextSubmit, NextDetach, NextSettle, NextRefer;
  }

  /** A wake-up sets every sleeper and every waiter before its condition again, and lets its own thread go on. */
  lemma WakeLeads(m: Machine, t: nat, th: nat, o: Owner)
    requires Enabled(m, WakeUp(t)) && th < |m.threads| && (m.threads[th].Asleep? || m.threads[th].Waiting?) && m.threads[th].o == o
    ensures Next(m, WakeUp(t)).At(th) == Waiting(o, true) && Next(m, WakeUp(t)).q == m.q
    ensures !Next(m, WakeUp(t)).At(t).Wake?
  {
    hide NextSubmit, NextDetach, NextSettle, NextServe, NextRefer;
  }

  /** When a stop has returned and no wake-up is owed, no fetch sleeps. */
  lemma StoppedLeavesNoSleeper(m: Machine, t: nat, th: nat)
    requires Reachable(m) && t < |m.threads| && m.threads[t] == Stopped
    requires forall i :: 0 <= i < |m.threads| ==> !m.threads[i].Wake?
    requires th < |m.threads|
    ensures !m.threads[th].Asleep?
  {
    Stopping.StoppedStops(m, t);
    if m.threads[th].Asleep? { Wakeups.NoLostWakeup(m, th, m.threads[th].o); }
  }

  /** Once the backend stops, a fetch waits no more: it takes what is pending for its owner's device, or returns. */
  lemma StoppingFetchReturns(m: Machine, th: nat, o: Owner, nonblock: bool)
    requires Reachable(m) && m.At(th) == Fetching(o) && m.q.stopping
    ensures var pc := Next(m, Fetch(th, nonblock)).At(th);
      if exists b, r :: b in m.q.bindings && b.owner == o && r in m.q.pending && r.device == b.device then pc.Copying? else pc == Idle
  {
    FetchLeads(m, th, o, nonblock);
  }

  /** A signal ends the wait of a fetch, which returns without having taken anything. */
  lemma InterruptLeads(m: Machine, th: nat)
    requires th < |m.threads| && (m.threads[th].Waiting? || m.threads[th].Asleep?)
    ensures Enabled(m, Interrupt(th)) && Next(m, Interrupt(th)) == m.(threads := m.threads[th := Idle])
  {
    hide NextSubmit, NextDetach, NextSettle, NextRefer;
  }

  /** A copy that succeeds delivers the request and ends the fetch; one that fails is to be rolled back. */
  lemma CopyLeads(m: Machine, th: nat, o: Owner, r: Request, ok: bool)
    requires m.At(th) == Copied(o, r)
    ensures var n := Next(m, CopyOut(th, ok));
      if ok then n.delivered == m.delivered + [r] && n.At(th) == Idle && n.q == m.q
      else n.delivered == m.delivered && n.At(th) == Undo(o, r) && n.q == m.q
  {
    hide NextSubmit, NextDetach, NextSettle, NextRefer;
  }

  // ---- the registry's part ---------------------------------------------------------------

  /** A device that has left the registry is found by no lookup and no URB afterwards, in any continuation. */
  lemma {:induction false} UnpublishedForGood(m: Machine, es: seq<Event>, n: Machine, d: Device, th: nat, u: Urb, length: nat)
    requires d < |m.devs| && !m.devs[d].registered && Run(m, es, n)
    ensures !Enabled(n, Enqueue(th, u, d, length)) && !Enabled(n, Lookup(th, d))
    decreases es
  {
    if es != [] {
      StaysUnpublished(m, es[0], d);
      UnpublishedForGood(Next(m, es[0]), es[1..], n, d, th, u, length);
    }
  }

  /** Only a creation registers a device, and a new one. */
  lemma StaysUnpublished(m: Machine, e: Event, d: Device)
    requires d < |m.devs| && !m.devs[d].registered && Enabled(m, e)
    ensures d < |Next(m, e).devs| && !Next(m, e).devs[d].registered
  {
    hide Next, Enabled;
    if Detaching(e) {
      DetachUnpublished(m, e);
    } else if e.Spawn? || e.WakeUp? {
      WakeUnpublished(m, e);
    } else if Submitting(e) {
      SubmitUnpublished(m, e, d);
    } else if Settling(e) || Serving(e) {
      ServeUnpublished(m, e, d);
    } else {
      ReferUnpublished(m, e, d);
    }
  }

  lemma SubmitUnpublished(m: Machine, e: Event, d: Device)
    requires d < |m.devs| && !m.devs[d].registered && Enabled(m, e) && Submitting(e)
    ensures d < |Next(m, e).devs| && !Next(m, e).devs[d].registered
  {
    hide NextDetach, NextSettle, NextServe, NextRefer, FirstOf, OwnerAt, DeviceAt, Queue.Submit;
  }

  lemma WakeUnpublished(m: Machine, e: Event)
    requires Enabled(m, e) && (e.Spawn? || e.WakeUp?)
    ensures Next(m, e).devs == m.devs
  {
    hide NextSubmit, NextDetach, NextSettle, NextServe, NextRefer;
  }

  lemma ReferUnpublished(m: Machine, e: Event, d: Device)
    requires d < |m.devs| && !m.devs[d].registered && Enabled(m, e) && Referring(e)
    ensures d < |Next(m, e).devs| && !Next(m, e).devs[d].registered
  {
    hide NextSubmit, NextDetach, NextSettle, NextServe, FirstOf, OwnerAt, DeviceAt, Queue.Register, Queue.Owned;
  }

  lemma DetachUnpublished(m: Machine, e: Event)
    requires Enabled(m, e) && Detaching(e)
    ensures Next(m, e).devs == m.devs
  {
    hide Next, Enabled, Target, Verdict, Missed, Continuation;
    DetachIs(m, e);
  }

  lemma ServeUnpublished(m: Machine, e: Event, d: Device)
    requires d < |m.devs| && !m.devs[d].registered && Enabled(m, e) && (Settling(e) || Serving(e))
    ensures d < |Next(m, e).devs| && !Next(m, e).devs[d].registered
  {
    hide NextSubmit, NextDetach, NextRefer, FirstOf, OwnerAt, DeviceAt;
  }

  /** Unregistering a device takes it out of the registry. */
  lemma UnpublishLeads(m: Machine, th: nat, d: Device)
    requires Enabled(m, Unpublish(th)) && m.At(th) == Caller(d)
    ensures d < |m.devs| && d < |Next(m, Unpublish(th)).devs| && !Next(m, Unpublish(th)).devs[d].registered
    ensures Next(m, Unpublish(th)).At(th) == Unpublished(d)
  {
    hide NextSubmit, NextDetach, NextSettle, NextServe;
  }

  // ---- submit, register, release and stop --------------------------------------------------

  /** A URB that comes in gets a NEW transfer under the next id, held by its creator, which takes a device
      reference. */
  lemma EnqueueLeads(m: Machine, th: nat, u: Urb, d: Device, length: nat)
    requires Enabled(m, Enqueue(th, u, d, length)) && th < |m.threads| && d < |m.devs|
    ensures Next(m, Enqueue(th, u, d, length)) ==
      m.(xfers := m.xfers + [Xfer(u, d, length, New, 1)], threads := m.threads[th := Created(u, |m.xfers| + 1)],
         devs := m.devs[d := m.devs[d].(refs := m.devs[d].refs + 1)])
  {
    hide NextDetach, NextSettle, NextServe, NextRefer, Machine.InFlight;
  }

  /** The locked section of submit accepts unless the backend stops, the device is not bound or the URB cannot
      be linked: the request is then the last pending one, its URB linked, and a wake-up owed. */
  lemma LockLeads(m: Machine, th: nat, u: Urb, id: nat, link: Option<Errno>)
    requires th < |m.threads| && m.threads[th] == Linking(u, id)
    ensures var d, n := m.X(id).device, Next(m, Lock(th, link));
      n ==
        if m.q.stopping || link.Some? || forall b :: b in m.q.bindings ==> b.device != d then
          m.(threads := m.threads[th := Refused(u, id)])
        else
          m.(q := m.q.(pending := m.q.pending + [Request(u, id, d, None, |m.accepted|)]), linked := m.linked + {u},
             accepted := m.accepted + [id], threads := m.threads[th := Wake(ThenPutTransfer(id))])
  {
    SubmitExact(m.q, Offered(m, th), link);
    hide NextDetach, NextSettle, NextServe, NextRefer, Queue.Submit;
  }

  /** The locked section of register binds unless the backend stops or owner or device is bound. */
  lemma RegisterLeads(m: Machine, th: nat, o: Owner, d: Device)
    requires th < |m.threads| && m.threads[th] == Registering(o, d)
    ensures Next(m, RegisterLock(th)) ==
      if m.q.stopping || exists b :: b in m.q.bindings && (b.owner == o || b.device == d) then
        m.(threads := m.threads[th := RegisterFailed(d)])
      else
        m.(q := m.q.(bindings := m.q.bindings + [Binding(o, d)]), threads := m.threads[th := Wake(ThenCaller(d))])
  {
    RegisterExact(m.q, o, d);
    hide NextSubmit, NextDetach, NextSettle, NextServe, Queue.Register;
  }

  /** A release takes its owner's binding off, and no other, and goes on to drain that device. */
  lemma ReleaseLeads(m: Machine, th: nat, o: Owner, d: Device)
    requires Reachable(m) && m.At(th) == Idle && th < |m.threads| && Binding(o, d) in m.q.bindings
    ensures Enabled(m, Release(th, o))
    ensures var n := Next(m, Release(th, o));
      && n.At(th) == Releasing(o, d) && n.q.pending == m.q.pending && n.q.active == m.q.active && n.q.stopping == m.q.stopping
      && forall b :: b in n.q.bindings <==> b in m.q.bindings && b.owner != o
  {
    BoundOnce(m);
    OneBinding(m.q, o, d);
    hide Reachable, NextSubmit, NextDetach, NextSettle, NextServe;
    OneLess(m.q.bindings, OwnerAt(m.q.bindings, o));
  }

  lemma OneLess(bs: seq<Binding>, i: nat)
    requires Paired(bs) && i < |bs|
    ensures forall b :: b in Without(bs, i) <==> b in bs && b.owner != bs[i].owner
  {
    forall b | b in bs && b.owner != bs[i].owner ensures b in Without(bs, i) {
      var j :| 0 <= j < |bs| && bs[j] == b;
      assert Without(bs, i)[if j < i then j else j - 1] == b;
    }
    forall b | b in Without(bs, i) ensures b in bs && b.owner != bs[i].owner {
      var j :| 0 <= j < |Without(bs, i)| && Without(bs, i)[j] == b;
      assert b == bs[if j < i then j else j + 1];
    }
  }

  /** A stop sets the flag and owes a wake-up before it drains. */
  lemma StopLeads(m: Machine, th: nat)
    requires th < |m.threads| && m.threads[th] == Idle
    ensures Enabled(m, Stop(th))
    ensures Next(m, Stop(th)) == m.(q := m.q.(stopping := true), threads := m.threads[th := Wake(ThenStop)])
  {
    hide NextSubmit, NextDetach, NextSettle, NextServe;
  }

  /** A round of release holds a request of the device until there is none left that it may take, and is then done. */
  lemma ReleaseRoundLeads(m: Machine, th: nat, o: Owner, d: Device)
    requires th < |m.threads| && m.threads[th] == Releasing(o, d)
    ensures var n := Next(m, ReleaseRound(th));
      if (exists r :: r in m.q.pending && r.device == d) || (exists r :: r in m.q.active && r.device == d && r.owner == Some(o)) then
        && n.threads[th].Holding? && n.threads[th].verdict == Cancelled && n.threads[th].next == ToRelease(o, d)
        && n.threads[th].r.device == d && (n.threads[th].r in m.q.pending || n.threads[th].r in m.q.active)
        && n.linked == m.linked - {n.threads[th].r.urb}
      else n == m.(threads := m.threads[th := Released(d)])
  {
    ReleaseTakes(m.q, o, d);
    hide FirstOf, Queue.SlotToRelease, Queue.Detach, NextSubmit, NextSettle, NextServe, NextRefer;
  }

  /** A round of stop holds a request until both lists are empty. */
  lemma StopRoundLeads(m: Machine, th: nat)
    requires th < |m.threads| && m.threads[th] == StopDrain
    ensures var n := Next(m, StopRound(th));
      if m.q.pending + m.q.active != [] then
        && n.threads[th].Holding? && n.threads[th].verdict == Cancelled && n.threads[th].next == ToStop
        && n.threads[th].r == (m.q.pending + m.q.active)[0] && n.linked == m.linked - {n.threads[th].r.urb}
      else n == m.(threads := m.threads[th := StopBindings])
  {
    StopTakes(m.q);
    hide FirstOf, Queue.SlotToStop, Queue.Detach, NextSubmit, NextSettle, NextServe, NextRefer;
  }

  /** A refused transfer ends CANCELLED, and loses the reference of the request that was not made. */
  lemma RefuseLeads(m: Machine, th: nat, u: Urb, id: nat)
    requires Reachable(m) && th < |m.threads| && m.threads[th] == Refused(u, id)
    ensures var n := Next(m, Refuse(th));
      && n.X(id).state == Cancelled && n.X(id).refs == m.X(id).refs - 1 && n.At(th) == PutCreator(id)
      && n.q == m.q && n.linked == m.linked && n.given == m.given
  {
    ReachableInv(m);
    RefusedIsQueued(m, th);
    hide Inv, Reachable, NextDetach, NextSettle, NextServe, NextRefer;
  }

  lemma RefusedIsQueued(m: Machine, th: nat)
    requires Inv(m) && th < |m.threads| && m.threads[th].Refused?
    ensures m.X(m.threads[th].id).state == XferState.Queued && m.Known(m.threads[th].id)
  {
    var k := Stage(m.threads[th].id);
    assert Law(m, k);
    TotalAtLeast(m.threads, th, OfPc(k));
  }

  /** A rollback puts the fetched request back at the head of pending and owes a wake-up, unless it has been taken
      off meanwhile. */
  lemma RollbackLeads(m: Machine, th: nat, o: Owner, r: Request)
    requires th < |m.threads| && m.threads[th] == Undo(o, r)
    ensures var n := Next(m, Rollback(th));
      if exists x :: x in m.q.active && x.owner == Some(o) && x.id == r.id then
        && n.At(th) == Wake(ThenReturn) && |n.q.pending| == |m.q.pending| + 1 && n.q.pending[1..] == m.q.pending
        && n.q.pending[0].id == r.id && n.q.pending[0].owner == None && |n.q.active| == |m.q.active| - 1
      else n == m.(threads := m.threads[th := Idle])
  {
    var i := FirstOf(m.q.active, OfId(o, r.id));
    RollbackExact(m.q, o, r.id, i);
    hide NextSubmit, NextDetach, NextSettle, NextRefer, Queue.Rollback;
  }

  /** A completion that names no active request of this owner changes nothing. */
  lemma CompleteMisses(m: Machine, th: nat, o: Owner, id: nat, actual: nat)
    requires m.At(th) == Idle && forall r :: r in m.q.active ==> !(r.owner == Some(o) && r.id == id)
    ensures Next(m, Complete(th, o, id, actual)) == m
  {
    CompleteTakes(m.q, o, id);
    hide NextSubmit, NextSettle, NextServe, NextRefer, Queue.SlotOfId;
    assert th < |m.threads|;
    assert m.threads[th := Idle] == m.threads;
  }

  /** A thread that gives a URB back does so once, for the request it holds, after its transfer's end is written. */
  lemma GivebackLeads(m: Machine, th: nat, r: Request, next: Resume)
    requires th < |m.threads| && m.threads[th] == Settled(r, next)
    ensures Next(m, Giveback(th)) == m.(given := m.given + [r.id], threads := m.threads[th := Returned(r, next)])
  {
    hide NextSubmit, NextDetach, NextServe, NextRefer;
  }

  // ---- where a transfer is ------------------------------------------------------------------

  /** An accepted transfer whose URB has not been given back is on a list or in some thread's hand. */
  lemma AcceptedIsSomewhere(m: Machine, id: nat)
    requires Reachable(m) && id in m.accepted && id !in m.given
    ensures
      || (exists r :: (r in m.q.pending || r in m.q.active) && r.id == id)
      || (exists th :: 0 <= th < |m.threads| && (m.threads[th].Holding? || m.threads[th].Settled?) && m.threads[th].r.id == id)
  {
    ExactlyOnce(m, id);
    var i :| 0 <= i < |m.accepted| && m.accepted[i] == id;
    Counted(m.accepted, i);
    if Count(m.given, id) > 0 { TotalPositive(m.given, Is(id)); }
    hide Reachable;
    if OnList(m.q.pending, id) > 0 {
      TotalPositive(m.q.pending, OfReq(Place(id)));
    } else if OnList(m.q.active, id) > 0 {
      TotalPositive(m.q.active, OfReq(Place(id)));
    } else {
      TotalPositive(m.threads, OfPc(Place(id)));
    }
  }

  /** One whose URB has been given back was accepted, and is nowhere any more. */
  lemma GivenIsGone(m: Machine, id: nat)
    requires Reachable(m) && id in m.given
    ensures id in m.accepted
    ensures forall r :: r in m.q.pending || r in m.q.active ==> r.id != id
    ensures forall th :: 0 <= th < |m.threads| && (m.threads[th].Holding? || m.threads[th].Settled?) ==> m.threads[th].r.id != id
  {
    ExactlyOnce(m, id);
    var i :| 0 <= i < |m.given| && m.given[i] == id;
    Counted(m.given, i);
    TotalPositive(m.accepted, Is(id));
    hide Reachable;
    forall r | r in m.q.pending || r in m.q.active ensures r.id != id { QueuedWeighs(m, r); }
    forall th | 0 <= th < |m.threads| && (m.threads[th].Holding? || m.threads[th].Settled?) ensures m.threads[th].r.id != id {
      HeldWeighs(m, th);
    }
  }

  lemma QueuedWeighs(m: Machine, r: Request)
    requires r in m.q.pending || r in m.q.active
    ensures OnList(m.q.pending, r.id) + OnList(m.q.active, r.id) > 0
  {
    var k := Place(r.id);
    if r in m.q.pending {
      var j :| 0 <= j < |m.q.pending| && m.q.pending[j] == r;
      TotalAtLeast(m.q.pending, j, OfReq(k));
    } else {
      var j :| 0 <= j < |m.q.active| && m.q.active[j] == r;
      TotalAtLeast(m.q.active, j, OfReq(k));
    }
  }

  lemma HeldWeighs(m: Machine, th: nat)
    requires th < |m.threads| && (m.threads[th].Holding? || m.threads[th].Settled?)
    ensures InHand(m, m.threads[th].r.id) > 0
  {
    TotalAtLeast(m.threads, th, OfPc(Place(m.threads[th].r.id)));
  }

  // ---- every thread can go on -------------------------------------------------------------

  /** The step a thread takes next. */
  function NextStep(pc: Pc, th: nat): Event {
    match pc
    case Idle => FetchStart(th, 0)
    case Wake(_) => WakeUp(th)
    case Created(_, _) => GiveUp(th)
    case Linking(_, _) => Lock(th, None)
    case Refused(_, _) => Refuse(th)
    case PutCreator(_) => PutTransfer(th)
    case Holding(_, _, _) => SettleHeld(th)
    case Settled(_, _) => Giveback(th)
    case Returned(_, _) => PutTransfer(th)
    case Fetching(_) => Fetch(th, false)
    case Waiting(_, _) => Check(th)
    case Asleep(_) => Interrupt(th)
    case Copying(_, _) => PutTransfer(th)
    case Copied(_, _) => CopyOut(th, true)
    case Undo(_, _) => Rollback(th)
    case Caller(_) => PutDevice(th)
    case Unpublished(_) => PutDevice(th)
    case Registering(_, _) => RegisterLock(th)
    case RegisterFailed(_) => PutDevice(th)
    case Releasing(_, _) => ReleaseRound(th)
    case Released(_) => PutDevice(th)
    case StopDrain => StopRound(th)
    case StopBindings => StopUnbind(th)
    case StopPut(_) => PutDevice(th)
    case Stopped => Spawn
  }

  /** No thread is ever stuck inside a call: whatever the others do, it can take its next step, and that takes it on;
      but for a sleeper, which only a signal or a wake-up moves. */
  lemma NoThreadStuck(m: Machine, th: nat)
    requires th < |m.threads| && m.threads[th] != Stopped
    ensures var e := NextStep(m.threads[th], th);
      && Enabled(m, e) && !e.Spawn? && e.th == th && Next(m, e).At(th) != m.threads[th]
      && (e.Interrupt? <==> m.threads[th].Asleep?)
  {
    hide Next, Enabled;
    match m.threads[th]
    case Wake(_) => WakeGoes(m, th);
    case Created(_, _) => SubmitGoes(m, th);
    case Linking(_, _) => SubmitGoes(m, th);
    case Refused(_, _) => SubmitGoes(m, th);
    case PutCreator(_) => SettleGoes(m, th);
    case Holding(_, _, _) => SettleGoes(m, th);
    case Settled(_, _) => SettleGoes(m, th);
    case Returned(_, _) => SettleGoes(m, th);
    case Copying(_, _) => SettleGoes(m, th);
    case Releasing(_, _) => DrainGoes(m, th);
    case StopDrain => DrainGoes(m, th);
    case Caller(_) => ReferGoes(m, th);
    case Unpublished(_) => ReferGoes(m, th);
    case Registering(_, _) => ReferGoes(m, th);
    case RegisterFailed(_) => ReferGoes(m, th);
    case Released(_) => ReferGoes(m, th);
    case StopBindings => ReferGoes(m, th);
    case StopPut(_) => ReferGoes(m, th);
    case _ => ServeGoes(m, th);
  }

  /** The next step is possible and moves the thread. */
  ghost predicate Goes(m: Machine, th: nat)
    requires th < |m.threads| && m.threads[th] != Stopped
  {
    var e := NextStep(m.threads[th], th);
    Enabled(m, e) && !e.Spawn? && e.th == th && Next(m, e).At(th) != m.threads[th]
  }

  lemma WakeGoes(m: Machine, th: nat)
    requires th < |m.threads| && m.threads[th].Wake?
    ensures Goes(m, th)
  {
    hide NextSubmit, NextDetach, NextSettle, NextServe, NextRefer;
  }

  lemma SubmitGoes(m: Machine, th: nat)
    requires th < |m.threads| && (m.threads[th].Created? || m.threads[th].Linking? || m.threads[th].Refused?)
    ensures Goes(m, th)
  {
    hide NextDetach, NextSettle, NextServe, NextRefer, Queue.Submit;
  }

  lemma SettleGoes(m: Machine, th: nat)
    requires th < |m.threads|
    requires var pc := m.threads[th]; pc.PutCreator? || pc.Holding? || pc.Settled? || pc.Returned? || pc.Copying?
    ensures Goes(m, th)
  {
    hide NextSubmit, NextDetach, NextServe, NextRefer;
  }

  lemma DrainGoes(m: Machine, th: nat)
    requires th < |m.threads| && (m.threads[th].Releasing? || m.threads[th] == StopDrain)
    ensures Goes(m, th)
  {
    var e := NextStep(m.threads[th], th);
    hide Target, Verdict, NextSubmit, NextDetach, NextSettle, NextServe, NextRefer;
    DetachIs(m, e);
    hide Next;
  }

  lemma ServeGoes(m: Machine, th: nat)
    requires th < |m.threads|
    requires var pc := m.threads[th]; pc.Idle? || pc.Fetching? || pc.Waiting? || pc.Asleep? || pc.Copied? || pc.Undo?
    ensures Goes(m, th)
  {
    hide NextSubmit, NextDetach, NextSettle, NextRefer, Queue.Fetch, Queue.Rollback, Queue.Ready;
  }

  lemma ReferGoes(m: Machine, th: nat)
    requires th < |m.threads|
    requires var pc := m.threads[th];
      pc.Caller? || pc.Unpublished? || pc.Registering? || pc.RegisterFailed? || pc.Released? || pc.StopBindings? || pc.StopPut?
    ensures Goes(m, th)
  {
    hide NextSubmit, NextDetach, NextSettle, NextServe, Queue.Register;
  }
}
