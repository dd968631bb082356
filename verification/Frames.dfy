/** What every step leaves alone: the frame of the machine's transition relation. */
module Frames {
  import opened Queues
  import opened Machines

  /** Histories only grow, and nothing allocated disappears. */
  ghost predicate Extends(m: Machine, n: Machine) {
    && m.accepted <= n.accepted && m.given <= n.given && m.delivered <= n.delivered
    && m.freedXfers <= n.freedXfers && m.freedDevs <= n.freedDevs
    && |m.xfers| <= |n.xfers| && |m.devs| <= |n.devs|
  }

  /** What transfer creation fixed stays. */
  ghost predicate SameTransfers(m: Machine, n: Machine) {
    && |m.xfers| <= |n.xfers|
    && (forall i :: 0 <= i < |m.xfers| ==>
          n.xfers[i].urb == m.xfers[i].urb && n.xfers[i].device == m.xfers[i].device && n.xfers[i].length == m.xfers[i].length)
  }

  ghost predicate SameStates(m: Machine, n: Machine) {
    && |m.xfers| <= |n.xfers|
    && (forall i :: 0 <= i < |m.xfers| ==> n.xfers[i].state == m.xfers[i].state)
  }

  /** Two machines with the same threads but for one. */
  ghost predicate MovesOnly(m: Machine, n: Machine, th: nat) {
    && th < |m.threads| == |n.threads|
    && (forall j :: 0 <= j < |m.threads| && j != th ==> n.threads[j] == m.threads[j])
  }

  /** Only Enqueue creates, only Prepare sends, and only a new transfer is created. */
  ghost predicate Origin(m: Machine, e: Event, pc: Pc) {
    && (pc.Created? ==> e.Enqueue? && pc.id == |m.xfers| + 1)
    && (pc.Linking? ==> e.Prepare? && m.At(e.th).Created? && pc.id == m.At(e.th).id)
  }

  /** Each field of the queue is written by its own locked sections only. */
  ghost predicate SameQueue(m: Machine, e: Event, n: Machine) {
    && (e.Lock? || Detaching(e) || e.Fetch? || e.Rollback? || (n.q.pending == m.q.pending && n.q.active == m.q.active))
    && (e.RegisterLock? || e.Release? || e.StopUnbind? || n.q.bindings == m.q.bindings)
    && (e.Stop? || n.q.stopping == m.q.stopping)
  }

  ghost predicate Frame(m: Machine, e: Event, n: Machine) {
    && SameQueue(m, e, n)
    && Extends(m, n)
    && SameTransfers(m, n)
    && (e.Prepare? || e.Refuse? || e.SettleHeld? || SameStates(m, n))
    && (e.Lock? || n.accepted == m.accepted)
    && (e.CopyOut? || n.delivered == m.delivered)
    && (e.Spawn? || e.WakeUp? || (MovesOnly(m, n, e.th) && Origin(m, e, n.At(e.th))))
  }

  lemma PrepareFrame(m: Machine, e: Event)
    requires Enabled(m, e) && (e.Enqueue? || e.Prepare?)
    ensures Frame(m, e, Next(m, e))
  {
    hide NextDetach, NextSettle, NextServe, NextRefer;
  }

  lemma OfferFrame(m: Machine, e: Event)
    requires Enabled(m, e) && (e.GiveUp? || e.Lock?)
    ensures Frame(m, e, Next(m, e))
  {
    hide NextDetach, NextSettle, NextServe, NextRefer;
    hide FirstOf, OwnerAt, DeviceAt;
  }

  lemma RefuseFrame(m: Machine, e: Event)
    requires Enabled(m, e) && e.Refuse?
    ensures Frame(m, e, Next(m, e))
  {
    hide NextDetach, NextSettle, NextServe, NextRefer;
    var n := Next(m, e);
    assert Extends(m, n) && SameTransfers(m, n);
    assert MovesOnly(m, n, e.th);
  }

  /** The walk for a request finds one that stands on its list, or none. */
  lemma TargetStands(m: Machine, e: Event)
    requires Enabled(m, e) && Detaching(e)
    ensures Target(m, e) == Nowhere || m.q.HasSlot(Target(m, e))
  {
    hide FirstOf;
  }

  /** A detaching step in one expression. */
  lemma DetachIs(m: Machine, e: Event)
    requires Enabled(m, e) && Detaching(e)
    ensures Target(m, e) == Nowhere || m.q.HasSlot(Target(m, e))
    ensures Next(m, e) ==
      if Target(m, e) == Nowhere then m.Goto(e.th, Missed(m, e))
      else m.Detach(e.th, Target(m, e), Verdict(m, e), Continuation(m, e))
  {
    hide Target, Verdict, Missed, Continuation, Queue.HasSlot, Machine.Goto, Machine.Detach;
    TargetStands(m, e);
  }

  lemma DetachFrame(m: Machine, e: Event)
    requires Enabled(m, e) && Detaching(e)
    ensures Frame(m, e, Next(m, e))
  {
    hide Next, Target, Verdict;
    DetachIs(m, e);
  }

  lemma SettleFrame(m: Machine, e: Event)
    requires Enabled(m, e) && (e.SettleHeld? || e.Giveback?)
    ensures Frame(m, e, Next(m, e))
  {
    hide NextSubmit, NextDetach, NextServe, NextRefer;
  }

  lemma PutTransferFrame(m: Machine, e: Event)
    requires Enabled(m, e) && e.PutTransfer?
    ensures Frame(m, e, Next(m, e))
  {
    hide NextSubmit, NextDetach, NextServe, NextRefer;
    var n := Next(m, e);
    assert Extends(m, n) && SameTransfers(m, n);
    assert MovesOnly(m, n, e.th);
  }

  lemma ServeFrame(m: Machine, e: Event)
    requires Enabled(m, e) && Serving(e) && !e.Fetch? && !e.Rollback?
    ensures Frame(m, e, Next(m, e))
  {
    hide NextSubmit, NextDetach, NextSettle, NextRefer, FirstOf, OwnerAt, DeviceAt, Queue.Ready;
  }

  lemma FetchFrame(m: Machine, e: Event)
    requires Enabled(m, e) && (e.Fetch? || e.Rollback?)
    ensures Frame(m, e, Next(m, e))
  {
    hide NextSubmit, NextDetach, NextSettle, NextRefer, FirstOf, OwnerAt, DeviceAt;
  }

  lemma PutDeviceFrame(m: Machine, e: Event)
    requires Enabled(m, e) && e.PutDevice?
    ensures Frame(m, e, Next(m, e))
  {
    hide NextSubmit, NextDetach, NextSettle, NextServe;
  }

  lemma DeviceFrame(m: Machine, e: Event)
    requires Enabled(m, e) && (e.Publish? || e.Lookup? || e.Unpublish? || e.Register?)
    ensures Frame(m, e, Next(m, e))
  {
    hide NextSubmit, NextDetach, NextSettle, NextServe;
  }

  lemma BindingFrame(m: Machine, e: Event)
    requires Enabled(m, e) && (e.RegisterLock? || e.Release? || e.Stop? || e.StopUnbind?)
    ensures Frame(m, e, Next(m, e))
  {
    hide NextSubmit, NextDetach, NextSettle, NextServe;
    hide FirstOf, OwnerAt, DeviceAt;
  }

  lemma StepFrame(m: Machine, e: Event)
    requires Enabled(m, e)
    ensures Frame(m, e, Next(m, e))
  {
    hide Frame, Next, Enabled;
    match e
    case Spawn => RousedFrame(m, e);
    case WakeUp(_) => RousedFrame(m, e);
    case Enqueue(_, _, _, _) => PrepareFrame(m, e);
    case Prepare(_) => PrepareFrame(m, e);
    case GiveUp(_) => OfferFrame(m, e);
    case Lock(_, _) => OfferFrame(m, e);
    case Refuse(_) => RefuseFrame(m, e);
    case SettleHeld(_) => SettleFrame(m, e);
    case Giveback(_) => SettleFrame(m, e);
    case PutTransfer(_) => PutTransferFrame(m, e);
    case Fetch(_, _) => FetchFrame(m, e);
    case Rollback(_) => FetchFrame(m, e);
    case PutDevice(_) => PutDeviceFrame(m, e);
    case RegisterLock(_) => BindingFrame(m, e);
    case Release(_, _) => BindingFrame(m, e);
    case Stop(_) => BindingFrame(m, e);
    case StopUnbind(_) => BindingFrame(m, e);
    case _ =>
      if Detaching(e) { DetachFrame(m, e); } else if Serving(e) { ServeFrame(m, e); } else { DeviceFrame(m, e); }
  }

  lemma RousedFrame(m: Machine, e: Event)
    requires Enabled(m, e) && (e.Spawn? || e.WakeUp?)
    ensures Frame(m, e, Next(m, e))
  {
  }

  // ---- where a step leaves its thread ---------------------------------------

  /** The steps that lead to a detached or fetched request, to sleep or through a stop. */
  predicate Lands(e: Event, pc: Pc) {
    && (pc.Copying? ==> e.Fetch?)
    && (pc.Copied? ==> e.PutTransfer?)
    && (pc.Undo? ==> e.CopyOut?)
    && (pc.Asleep? ==> e.Check?)
    && (pc.Holding? ==> Detaching(e))
    && (pc.Settled? ==> e.SettleHeld?)
    && (pc.Returned? ==> e.Giveback?)
    && (pc == Wake(ThenStop) ==> e.Stop?)
    && (pc.StopDrain? ==> e.PutTransfer?)
    && (pc.StopBindings? ==> e.StopRound? || e.PutDevice?)
    && (pc.StopPut? || pc.Stopped? ==> e.StopUnbind?)
  }

  lemma SubmitLands(m: Machine, e: Event)
    requires Enabled(m, e) && Submitting(e)
    ensures Lands(e, NextSubmit(m, e).At(e.th))
  {
    hide Queue.Submit;
  }

  lemma DetachLands(m: Machine, e: Event)
    requires Enabled(m, e) && Detaching(e)
    ensures Lands(e, NextDetach(m, e).At(e.th))
  {
    hide FirstOf, Target, Verdict;
    TargetStands(m, e);
  }

  lemma SettleLands(m: Machine, e: Event)
    requires Enabled(m, e) && Settling(e)
    ensures Lands(e, NextSettle(m, e).At(e.th))
  {
  }

  lemma ServeLands(m: Machine, e: Event)
    requires Enabled(m, e) && Serving(e)
    ensures Lands(e, NextServe(m, e).At(e.th))
  {
    hide Queue.Ready, Queue.Fetch, Queue.Rollback;
  }

  lemma ReferLands(m: Machine, e: Event)
    requires Enabled(m, e) && Referring(e)
    ensures Lands(e, NextRefer(m, e).At(e.th))
  {
    hide OwnerAt, DeviceAt, Queue.Register;
  }

  lemma StepLands(m: Machine, e: Event)
    requires Enabled(m, e) && !e.Spawn? && !e.WakeUp?
    ensures Lands(e, Next(m, e).At(e.th))
  {
    if Submitting(e) { SubmitLands(m, e); }
    else if Detaching(e) { DetachLands(m, e); }
    else if Settling(e) { SettleLands(m, e); }
    else if Serving(e) { ServeLands(m, e); }
    else { ReferLands(m, e); }
    hide Enabled, NextSubmit, NextDetach, NextSettle, NextServe, NextRefer, Lands;
  }
}
