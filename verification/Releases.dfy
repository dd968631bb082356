/** virtusb_backend_release_owner under concurrency: nothing of a released device is
    forgotten, and its drain ends. */
module Releases {
  import opened Wrappers
  import opened Sums
  import opened Queues
  import opened Machines
  import opened Frames
  import opened Ledger
  import opened Stopping
  import opened Guarantees
  import opened Delivery
  import Conservation
  import Steps

  /** The thread is in the drain loop of owner o's release of device d. */
  predicate Drains(pc: Pc, o: Owner, d: Device) {
    pc == Releasing(o, d) || NextOf(pc) == Some(ToRelease(o, d))
  }

  /** Some thread still drains device d for o. */
  ghost predicate Draining(m: Machine, o: Owner, d: Device) {
    exists th :: 0 <= th < |m.threads| && Drains(m.threads[th], o, d)
  }

  /** An owner's active request of a device: they are bound, or it is being drained. */
  ghost predicate Answered(m: Machine, r: Request) {
    r.owner.Some? ==> Binding(r.owner.value, r.device) in m.q.bindings || Draining(m, r.owner.value, r.device)
  }

  /** A pending request's device is bound, or it is being drained. */
  ghost predicate Awaited(m: Machine, r: Request) {
    m.q.Bound(r.device) || exists o :: Draining(m, o, r.device)
  }

  ghost predicate ReleaseLaw(m: Machine) {
    && (forall i :: 0 <= i < |m.q.active| ==> Answered(m, m.q.active[i]))
    && (forall i :: 0 <= i < |m.q.pending| ==> Awaited(m, m.q.pending[i]))
  }

  lemma BoundIs(q: Queue, d: Device)
    ensures q.Bound(d) <==> exists i :: 0 <= i < |q.bindings| && q.bindings[i].device == d
  {
  }

  lemma AnsweredIsAwaited(m: Machine, r: Request)
    requires Answered(m, r) && r.owner.Some?
    ensures Awaited(m, r)
  {
    if Binding(r.owner.value, r.device) in m.q.bindings { BoundIs(m.q, r.device); }
  }

  // ---- who drains ------------------------------------------------------------

  /** A thread goes on draining until a round finds nothing left. */
  lemma DrainsOn(m: Machine, e: Event, th: nat, o: Owner, d: Device)
    requires Enabled(m, e) && Frame(m, e, Next(m, e)) && th < |m.threads| && Drains(m.threads[th], o, d)
    requires !(e == ReleaseRound(th) && m.q.SlotToRelease(o, d) == Nowhere)
    ensures th < |Next(m, e).threads| && Drains(Next(m, e).threads[th], o, d)
  {
    if e.Spawn? || e.WakeUp? {
      hide NextSubmit, NextDetach, NextSettle, NextServe, NextRefer;
    } else if e.th == th {
      if Detaching(e) { RoundDrains(m, e, o, d); } else { SettleDrains(m, e, o, d); }
      hide Next, Enabled, Frame, Drains;
    } else {
      hide Next, Enabled;
    }
  }

  lemma RoundDrains(m: Machine, e: Event, o: Owner, d: Device)
    requires Enabled(m, e) && Detaching(e) && Drains(m.At(e.th), o, d)
    requires !(e.ReleaseRound? && m.q.SlotToRelease(o, d) == Nowhere)
    ensures e.th < |m.threads| && Drains(Next(m, e).At(e.th), o, d)
  {
    hide Next, Verdict, Queue.SlotToRelease;
    DetachIs(m, e);
  }

  lemma SettleDrains(m: Machine, e: Event, o: Owner, d: Device)
    requires Enabled(m, e) && !e.Spawn? && !e.WakeUp? && !Detaching(e) && Drains(m.At(e.th), o, d)
    ensures Drains(Next(m, e).At(e.th), o, d)
  {
    assert Settling(e);
    hide NextSubmit, NextDetach, NextServe, NextRefer;
  }

  // ---- steps that take no binding and end no drain -----------------------------

  /** What was bound is bound, and who drained still drains. */
  ghost predicate Onward(m: Machine, n: Machine) {
    && (forall b :: b in m.q.bindings ==> b in n.q.bindings)
    && (forall o, d :: Draining(m, o, d) ==> Draining(n, o, d))
  }

  /** The steps that take a binding away, or leave a drain with nothing left. */
  ghost predicate Ends(m: Machine, e: Event)
    requires Enabled(m, e)
  {
    e.Release? || e.StopUnbind? || (e.ReleaseRound? && Target(m, e) == Nowhere)
  }

  lemma StepOnward(m: Machine, e: Event)
    requires Enabled(m, e) && Frame(m, e, Next(m, e)) && !Ends(m, e)
    ensures Onward(m, Next(m, e))
  {
    var n := Next(m, e);
    BindingsStay(m, e);
    forall o, d | Draining(m, o, d) ensures Draining(n, o, d) {
      var th :| 0 <= th < |m.threads| && Drains(m.threads[th], o, d);
      if e == ReleaseRound(th) { assert m.threads[th] == Releasing(o, d); }
      DrainsOn(m, e, th, o, d);
      hide Next, Enabled, Drains;
    }
  }

  lemma BindingsStay(m: Machine, e: Event)
    requires Enabled(m, e) && Frame(m, e, Next(m, e)) && !e.Release? && !e.StopUnbind?
    ensures forall b :: b in m.q.bindings ==> b in Next(m, e).q.bindings
  {
    if e.RegisterLock? {
      hide OwnerAt, DeviceAt, Frame, NextSubmit, NextDetach, NextSettle, NextServe;
    } else {
      hide Next, Enabled;
    }
  }

  lemma StillAwaited(m: Machine, n: Machine, r: Request)
    requires Onward(m, n) && Awaited(m, r)
    ensures Awaited(n, r)
  {
    BoundIs(m.q, r.device);
    BoundIs(n.q, r.device);
    hide Draining, Queue.Bound;
    if m.q.Bound(r.device) {
      var i :| 0 <= i < |m.q.bindings| && m.q.bindings[i].device == r.device;
      assert m.q.bindings[i] in n.q.bindings;
    }
  }

  /** The lists after such a step hold what they held, what a binding admits, or what moved between them. */
  lemma OnwardLaw(m: Machine, e: Event)
    requires ReleaseLaw(m) && ListShape(m) && Enabled(m, e) && Frame(m, e, Next(m, e)) && Onward(m, Next(m, e))
    ensures ReleaseLaw(Next(m, e))
  {
    var n := Next(m, e);
    if e.Lock? && m.q.Submit(Offered(m, e.th), e.link).Success? {
      LockAwaited(m, e);
    } else if FetchSucceeds(m, e) {
      FetchAnswered(m, e);
    } else if e.Rollback? && m.q.Rollback(m.At(e.th).o, m.At(e.th).r.id).Success? {
      RollbackAwaited(m, e);
    } else {
      SameOrFewer(m, e);
      hide Next, Enabled, Frame, Onward;
      ShrinkLaw(m, n);
    }
  }

  lemma SameOrFewer(m: Machine, e: Event)
    requires Enabled(m, e) && Frame(m, e, Next(m, e)) && !FetchSucceeds(m, e)
    requires e.Lock? ==> m.q.Submit(Offered(m, e.th), e.link).Failure?
    requires e.Rollback? ==> m.q.Rollback(m.At(e.th).o, m.At(e.th).r.id).Failure?
    ensures forall j :: 0 <= j < |Next(m, e).q.pending| ==> Next(m, e).q.pending[j] in m.q.pending
    ensures forall j :: 0 <= j < |Next(m, e).q.active| ==> Next(m, e).q.active[j] in m.q.active
  {
    ActiveOrigin(m, e);
    if e.Rollback? { FailedRollback(m, e); } else if e.Lock? { FailedLock(m, e); } else { PendingOrigin(m, e); }
    hide Next, Enabled, Frame;
  }

  lemma FailedLock(m: Machine, e: Event)
    requires Enabled(m, e) && e.Lock? && m.q.Submit(Offered(m, e.th), e.link).Failure?
    ensures Next(m, e).q == m.q
  {
    hide Queue.Submit, NextDetach, NextSettle, NextServe, NextRefer;
  }

  lemma ShrinkLaw(m: Machine, n: Machine)
    requires ReleaseLaw(m) && Onward(m, n)
    requires forall j :: 0 <= j < |n.q.pending| ==> n.q.pending[j] in m.q.pending
    requires forall j :: 0 <= j < |n.q.active| ==> n.q.active[j] in m.q.active
    ensures ReleaseLaw(n)
  {
    forall j | 0 <= j < |n.q.pending| ensures Awaited(n, n.q.pending[j]) { StillAwaited(m, n, n.q.pending[j]); }
    hide Draining, Awaited;
    forall j | 0 <= j < |n.q.active| ensures Answered(n, n.q.active[j]) { assert Answered(m, n.q.active[j]); }
  }

  lemma LockAwaited(m: Machine, e: Event)
    requires ReleaseLaw(m) && Enabled(m, e) && Onward(m, Next(m, e))
    requires e.Lock? && m.q.Submit(Offered(m, e.th), e.link).Success?
    ensures ReleaseLaw(Next(m, e))
  {
    var n, r := Next(m, e), Offered(m, e.th);
    assert m.q.Bound(r.device) && n.q.pending == m.q.pending + [r] && n.q.active == m.q.active;
    hide Next, Enabled, Queue.Submit, Queue.Bound, Draining;
    forall j | 0 <= j < |n.q.pending| ensures Awaited(n, n.q.pending[j]) {
      StillAwaited(m, n, n.q.pending[j]);
    }
    forall j | 0 <= j < |n.q.active| ensures Answered(n, n.q.active[j]) { assert Answered(m, n.q.active[j]); }
  }

  lemma FetchAnswered(m: Machine, e: Event)
    requires ReleaseLaw(m) && Enabled(m, e) && FetchSucceeds(m, e) && Onward(m, Next(m, e))
    ensures ReleaseLaw(Next(m, e))
  {
    var n, o := Next(m, e), m.At(e.th).o;
    var i := FirstOf(m.q.pending, OfDevice(m.q.DeviceOf(o)));
    var r := m.q.pending[i].(owner := Some(o));
    assert Binding(o, r.device) in m.q.bindings by { assert m.q.bindings[OwnerAt(m.q.bindings, o)] == Binding(o, r.device); }
    assert n.q.pending == Without(m.q.pending, i) && n.q.active == m.q.active + [r];
    hide Next, Enabled, Queue.Fetch, Queue.Bound, Draining, FirstOf;
    forall j | 0 <= j < |n.q.pending| ensures Awaited(n, n.q.pending[j]) { StillAwaited(m, n, n.q.pending[j]); }
    forall j | 0 <= j < |n.q.active| ensures Answered(n, n.q.active[j]) {
      if j < |m.q.active| { assert Answered(m, m.q.active[j]); }
    }
  }

  lemma RollbackAwaited(m: Machine, e: Event)
    requires ReleaseLaw(m) && ListShape(m) && Enabled(m, e) && Onward(m, Next(m, e))
    requires e.Rollback? && m.q.Rollback(m.At(e.th).o, m.At(e.th).r.id).Success?
    ensures ReleaseLaw(Next(m, e))
  {
    var n := Next(m, e);
    var i := FirstOf(m.q.active, OfId(m.At(e.th).o, m.At(e.th).r.id));
    var r := m.q.active[i];
    assert n.q.pending == [r.(owner := None)] + m.q.pending && n.q.active == Without(m.q.active, i);
    AnsweredIsAwaited(m, r);
    assert Awaited(m, r.(owner := None)) by { hide Queue.Bound, Draining; }
    hide Next, Enabled, Queue.Rollback, Queue.Bound, Draining, FirstOf;
    forall j | 0 <= j < |n.q.pending| ensures Awaited(n, n.q.pending[j]) { StillAwaited(m, n, n.q.pending[j]); }
    forall j | 0 <= j < |n.q.active| ensures Answered(n, n.q.active[j]) { assert Answered(m, n.q.active[j]); }
  }

  // ---- steps that take a binding or end a drain ----------------------------------

  /** virtusb_backend_release_owner takes the binding off and owes the drain. */
  lemma ReleaseStepLaw(m: Machine, e: Event)
    requires ReleaseLaw(m) && Enabled(m, e) && e.Release? && Frame(m, e, Next(m, e))
    ensures ReleaseLaw(Next(m, e))
  {
    var n := Next(m, e);
    var i := OwnerAt(m.q.bindings, e.o);
    var b := m.q.bindings[i];
    assert n.q.bindings == Without(m.q.bindings, i) && n.threads[e.th] == Releasing(b.owner, b.device)
      && n.q.pending == m.q.pending && n.q.active == m.q.active by { hide OwnerAt; }
    assert Drains(n.threads[e.th], b.owner, b.device);
    OthersDrain(m, e);
    assert Draining(n, b.owner, b.device);
    hide Next, Enabled, Frame, Draining, OwnerAt, Queue.Bound;
    forall j | 0 <= j < |n.q.active| ensures Answered(n, n.q.active[j]) {
      assert Answered(m, n.q.active[j]);
      UnboundOne(m.q.bindings, i);
    }
    forall j | 0 <= j < |n.q.pending| ensures Awaited(n, n.q.pending[j]) {
      assert Awaited(m, n.q.pending[j]);
      if m.q.Bound(n.q.pending[j].device) { LessBound(m.q, n.q, i, n.q.pending[j].device); }
    }
  }

  lemma UnboundOne(bs: seq<Binding>, i: nat)
    requires i < |bs|
    ensures forall b :: b in bs ==> b == bs[i] || b in Without(bs, i)
  {
    forall b | b in bs && b != bs[i] ensures b in Without(bs, i) {
      var j :| 0 <= j < |bs| && bs[j] == b;
      assert Without(bs, i)[if j < i then j else j - 1] == b;
    }
  }

  lemma LessBound(q: Queue, p: Queue, i: nat, d: Device)
    requires i < |q.bindings| && p.bindings == Without(q.bindings, i) && q.Bound(d)
    ensures p.Bound(d) || q.bindings[i].device == d
  {
    UnboundOne(q.bindings, i);
    BoundIs(p, d);
    var j := DeviceAt(q.bindings, d);
    assert q.bindings[j] in q.bindings;
  }

  /** Every drain but the moving thread's own goes on. */
  lemma OthersDrain(m: Machine, e: Event)
    requires Enabled(m, e) && Frame(m, e, Next(m, e)) && (e.Release? || e.ReleaseRound?)
    ensures forall th, o, d :: 0 <= th < |m.threads| && th != e.th && Drains(m.threads[th], o, d) ==> Draining(Next(m, e), o, d)
    ensures e.Release? ==> forall o, d :: Draining(m, o, d) ==> Draining(Next(m, e), o, d)
  {
    assert e.Release? ==> forall o, d :: !Drains(m.threads[e.th], o, d);
    hide Next, Enabled;
  }

  /** A round that finds nothing ends a drain of which nothing is left. */
  lemma LastRoundLaw(m: Machine, e: Event)
    requires ReleaseLaw(m) && ListShape(m) && Enabled(m, e) && e.ReleaseRound? && Target(m, e) == Nowhere && Frame(m, e, Next(m, e))
    ensures ReleaseLaw(Next(m, e))
  {
    var n, pc := Next(m, e), m.At(e.th);
    assert n.q == m.q by { hide Verdict, FirstOf; DetachIs(m, e); }
    LastRoundFinds(m.q, pc.o, pc.d);
    OthersDrain(m, e);
    hide Next, Frame, Queue.SlotToRelease, Target;
    forall j | 0 <= j < |n.q.active| ensures Answered(n, n.q.active[j]) {
      var r := n.q.active[j];
      assert Answered(m, r);
      OtherDrainer(m, n, e.th, pc.o, pc.d, r.owner.value, r.device);
    }
    forall j | 0 <= j < |n.q.pending| ensures Awaited(n, n.q.pending[j]) {
      var r := n.q.pending[j];
      assert Awaited(m, r);
      if !m.q.Bound(r.device) {
        var o :| Draining(m, o, r.device);
        OtherDrainer(m, n, e.th, pc.o, pc.d, o, r.device);
      }
    }
  }

  lemma LastRoundFinds(q: Queue, o: Owner, d: Device)
    requires q.SlotToRelease(o, d) == Nowhere
    ensures forall j :: 0 <= j < |q.pending| ==> q.pending[j].device != d
    ensures forall j :: 0 <= j < |q.active| ==> q.active[j].device != d || q.active[j].owner != Some(o)
  {
    assert forall j :: 0 <= j < |q.pending| ==> !Matches(q.pending[j], OfDevice(d));
    assert forall j :: 0 <= j < |q.active| ==> !Matches(q.active[j], OfDeviceAndOwner(d, o));
  }

  lemma OtherDrainer(m: Machine, n: Machine, t: nat, o: Owner, d: Device, p: Owner, c: Device)
    requires t < |m.threads| && m.threads[t] == Releasing(o, d)
    requires forall th, a, b :: 0 <= th < |m.threads| && th != t && Drains(m.threads[th], a, b) ==> Draining(n, a, b)
    requires (p, c) != (o, d)
    ensures Draining(m, p, c) ==> Draining(n, p, c)
  {
  }

  // ---- every step, every run -------------------------------------------------------

  lemma StepKeepsReleaseLaw(m: Machine, e: Event)
    requires Inv(m) && StopLaw(m) && ReleaseLaw(m) && Enabled(m, e)
    ensures ReleaseLaw(Next(m, e))
  {
    StepFrame(m, e);
    if !Ends(m, e) {
      StepOnward(m, e);
      OnwardLaw(m, e);
    } else if e.Release? {
      ReleaseStepLaw(m, e);
    } else if e.ReleaseRound? {
      LastRoundLaw(m, e);
    } else {
      assert ThreadStop(m, m.threads[e.th]);
      hide Next, Enabled;
    }
  }

  lemma {:induction false} RunKeepsReleaseLaw(m: Machine, es: seq<Event>, n: Machine)
    requires Inv(m) && StopLaw(m) && ReleaseLaw(m) && Run(m, es, n)
    ensures ReleaseLaw(n)
    decreases es
  {
    if es != [] {
      StepKeepsReleaseLaw(m, es[0]);
      StepKeepsStopLaw(m, es[0]);
      Steps.StepKeeps(m, es[0]);
      RunKeepsReleaseLaw(Next(m, es[0]), es[1..], n);
    }
  }

  lemma NobodyDrains(m: Machine, d: Device)
    requires forall th :: 0 <= th < |m.threads| ==>
      var pc := m.threads[th];
      !(pc.Releasing? && pc.d == d) && !((pc.Holding? || pc.Settled? || pc.Returned?) && pc.next.ToRelease? && pc.next.d == d)
    ensures forall o :: !Draining(m, o, d)
  {
  }

  /** In every reachable machine a queued request of an unbound device belongs to a drain
      that is still under way; once no thread drains the device, nothing of it is queued,
      whatever was fetched, rolled back or submitted meanwhile. */
  lemma ReleaseIsComplete(m: Machine, d: Device)
    requires Reachable(m) && (forall b :: b in m.q.bindings ==> b.device != d)
    requires forall th :: 0 <= th < |m.threads| ==>
      var pc := m.threads[th];
      !(pc.Releasing? && pc.d == d) && !((pc.Holding? || pc.Settled? || pc.Returned?) && pc.next.ToRelease? && pc.next.d == d)
    ensures forall r :: r in m.q.pending + m.q.active ==> r.device != d
  {
    NobodyDrains(m, d);
    BoundIs(m.q, d);
    var es :| Run(Boot(), es, m);
    Conservation.BootKeeps();
    RunKeepsReleaseLaw(Boot(), es, m);
    ReachableInv(m);
    forall i | 0 <= i < |m.q.active| ensures m.q.active[i].device != d {
      assert Answered(m, m.q.active[i]);
      AnsweredIsAwaited(m, m.q.active[i]);
    }
    forall i | 0 <= i < |m.q.pending| ensures m.q.pending[i].device != d {
      assert Awaited(m, m.q.pending[i]);
    }
  }

  /** No request is left active for an owner that has lost its binding, once the drain is over. */
  lemma NothingLeftActive(m: Machine, o: Owner, d: Device)
    requires Reachable(m) && Binding(o, d) !in m.q.bindings
    requires forall th :: 0 <= th < |m.threads| ==>
      var pc := m.threads[th];
      pc != Releasing(o, d) && !((pc.Holding? || pc.Settled? || pc.Returned?) && pc.next == ToRelease(o, d))
    ensures forall r :: r in m.q.active ==> r.device != d || r.owner != Some(o)
  {
    assert !Draining(m, o, d);
    var es :| Run(Boot(), es, m);
    Conservation.BootKeeps();
    RunKeepsReleaseLaw(Boot(), es, m);
    forall i | 0 <= i < |m.q.active| ensures m.q.active[i].device != d || m.q.active[i].owner != Some(o) {
      assert Answered(m, m.q.active[i]);
    }
  }

  // ---- the drain ends --------------------------------------------------------------

  function OfDev(d: Device): Request -> nat { (r: Request) => B(r.device == d) }

  /** How many requests of a device are queued. */
  function Left(q: Queue, d: Device): nat { Total(q.pending, OfDev(d)) + Total(q.active, OfDev(d)) }

  /** A step that takes a request of the device off the queue. */
  predicate TakesFrom(m: Machine, e: Event, d: Device)
    requires Enabled(m, e)
  {
    Detaching(e) && m.q.HasSlot(Target(m, e)) && m.q.At(Target(m, e)).device == d
  }

  /** A step that admits a request of the device: it is bound then. */
  predicate Admits(m: Machine, e: Event, d: Device)
    requires Enabled(m, e)
  {
    e.Lock? && m.q.Submit(Offered(m, e.th), e.link).Success? && Offered(m, e.th).device == d
  }

  lemma AdmittedIsBound(m: Machine, e: Event, d: Device)
    requires Enabled(m, e) && Admits(m, e, d)
    ensures m.q.Bound(d) && !m.q.stopping
  {
  }

  /** A step takes one of the device's requests, admits one, or leaves their number. */
  lemma StepShare(m: Machine, e: Event, d: Device)
    requires Enabled(m, e)
    ensures Left(Next(m, e).q, d) + B(TakesFrom(m, e, d)) == Left(m.q, d) + B(Admits(m, e, d))
  {
    StepFrame(m, e);
    if Detaching(e) {
      DetachShare(m, e, d);
    } else if e.Lock? {
      LockShare(m, e, d);
    } else if e.Fetch? {
      FetchShare(m, e, d);
    } else if e.Rollback? {
      RollbackShare(m, e, d);
    } else {
      hide Next, Enabled, Left;
      assert Next(m, e).q.pending == m.q.pending && Next(m, e).q.active == m.q.active;
      SameShare(m.q, Next(m, e).q, d);
    }
  }

  lemma SameShare(q: Queue, p: Queue, d: Device)
    requires p.pending == q.pending && p.active == q.active
    ensures Left(p, d) == Left(q, d)
  {
  }

  lemma DetachShare(m: Machine, e: Event, d: Device)
    requires Enabled(m, e) && Detaching(e)
    ensures Left(Next(m, e).q, d) + B(TakesFrom(m, e, d)) == Left(m.q, d)
  {
    hide Total, Next, Target, Verdict;
    DetachIs(m, e);
    var s := Target(m, e);
    if s.Pending? {
      TotalRemove(m.q.pending, s.index, OfDev(d));
    } else if s.Active? {
      TotalRemove(m.q.active, s.index, OfDev(d));
    }
  }

  lemma LockShare(m: Machine, e: Event, d: Device)
    requires Enabled(m, e) && e.Lock?
    ensures Left(Next(m, e).q, d) == Left(m.q, d) + B(Admits(m, e, d))
  {
    hide Total, NextDetach, NextSettle, NextServe, NextRefer, Queue.Bound;
    TotalAppend(m.q.pending, Offered(m, e.th), OfDev(d));
  }

  lemma FetchShare(m: Machine, e: Event, d: Device)
    requires Enabled(m, e) && e.Fetch?
    ensures Left(Next(m, e).q, d) == Left(m.q, d)
  {
    hide Total, NextSubmit, NextDetach, NextSettle, NextRefer;
    if m.q.Fetch(m.At(e.th).o).Success? {
      var i := FirstOf(m.q.pending, OfDevice(m.q.DeviceOf(m.At(e.th).o)));
      TotalRemove(m.q.pending, i, OfDev(d));
      TotalAppend(m.q.active, m.q.pending[i].(owner := Some(m.At(e.th).o)), OfDev(d));
    }
  }

  lemma RollbackShare(m: Machine, e: Event, d: Device)
    requires Enabled(m, e) && e.Rollback?
    ensures Left(Next(m, e).q, d) == Left(m.q, d)
  {
    hide Total, NextSubmit, NextDetach, NextSettle, NextRefer;
    var i := FirstOf(m.q.active, OfId(m.At(e.th).o, m.At(e.th).r.id));
    if i < |m.q.active| {
      TotalRemove(m.q.active, i, OfDev(d));
      TotalPrepend(m.q.active[i].(owner := None), m.q.pending, OfDev(d));
    }
  }

  /** How many of the device's requests a run takes off the queue. */
  function TakenFrom(m: Machine, es: seq<Event>, d: Device): nat
    decreases es
  {
    if es == [] || !Enabled(m, es[0]) then 0
    else B(TakesFrom(m, es[0], d)) + TakenFrom(Next(m, es[0]), es[1..], d)
  }

  /** How many of the device's requests a run admits. */
  function AdmittedTo(m: Machine, es: seq<Event>, d: Device): nat
    decreases es
  {
    if es == [] || !Enabled(m, es[0]) then 0
    else B(Admits(m, es[0], d)) + AdmittedTo(Next(m, es[0]), es[1..], d)
  }

  /** Over every run, what is left of a device plus what was taken is what there was plus
      what was admitted: a release's drain gets nearer to its end with every round, and
      only a submission to the device, bound again meanwhile, takes it back. */
  lemma {:induction false} ReleaseDrains(m: Machine, es: seq<Event>, n: Machine, d: Device)
    requires Run(m, es, n)
    ensures Left(n.q, d) + TakenFrom(m, es, d) == Left(m.q, d) + AdmittedTo(m, es, d)
    decreases es
  {
    if es != [] {
      StepShare(m, es[0], d);
      ReleaseDrains(Next(m, es[0]), es[1..], n, d);
    }
  }

  /** The device has no binding before any step of the run. */
  ghost predicate StaysUnbound(m: Machine, es: seq<Event>, d: Device)
    decreases es
  {
    es != [] ==> !m.q.Bound(d) && Enabled(m, es[0]) && StaysUnbound(Next(m, es[0]), es[1..], d)
  }

  /** While the device stays unbound, nothing of it is admitted. */
  lemma {:induction false} UnboundAdmitsNone(m: Machine, es: seq<Event>, n: Machine, d: Device)
    requires Run(m, es, n) && StaysUnbound(m, es, d)
    ensures AdmittedTo(m, es, d) == 0 && Left(n.q, d) + TakenFrom(m, es, d) == Left(m.q, d)
    decreases es
  {
    ReleaseDrains(m, es, n, d);
    if es != [] {
      if Admits(m, es[0], d) { AdmittedIsBound(m, es[0], d); }
      ReleaseDrains(Next(m, es[0]), es[1..], n, d);
      UnboundAdmitsNone(Next(m, es[0]), es[1..], n, d);
    }
  }
}
