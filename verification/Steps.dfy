/** The machine's invariant holds after every step, hence in every run. */
module Steps {
  import opened Sums
  import opened Queues
  import opened Transfers
  import opened Machines
  import opened Frames
  import opened Ledger
  import opened Conservation

  // ---- threads ---------------------------------------------------------

  lemma GenuineKept(m: Machine, n: Machine, r: Request)
    requires SameTransfers(m, n) && m.accepted <= n.accepted && Genuine(m, r)
    ensures Genuine(n, r)
  {
  }

  /** The thread that moves carries a genuine request, if any. */
  lemma MovedGenuine(m: Machine, e: Event)
    requires Shape(m) && Enabled(m, e) && !e.Spawn? && !e.WakeUp?
    ensures PcGenuine(Next(m, e), Next(m, e).At(e.th))
  {
    StepFrame(m, e);
    assert PcGenuine(m, m.threads[e.th]);
    hide Frame, PcGenuine, ListShape, BindingShape, ThreadShape;
    if Submitting(e) { MovedSubmitting(m, e); }
    else if Detaching(e) { MovedDetaching(m, e); }
    else if Settling(e) { MovedSettling(m, e); }
    else if Serving(e) { MovedServing(m, e); }
    else { MovedReferring(m, e); }
  }

  lemma MovedSubmitting(m: Machine, e: Event)
    requires Enabled(m, e) && Submitting(e) && PcGenuine(m, m.At(e.th))
    ensures PcGenuine(Next(m, e), Next(m, e).At(e.th))
  {
    hide Genuine;
  }

  lemma MovedDetaching(m: Machine, e: Event)
    requires Enabled(m, e) && Detaching(e) && ListShape(m) && Frame(m, e, Next(m, e))
    ensures PcGenuine(Next(m, e), Next(m, e).At(e.th))
  {
    hide Next, Enabled, Target, Verdict, Genuine, SameTransfers;
    DetachIs(m, e);
    if Target(m, e) != Nowhere {
      VerdictCloses(m, e);
      GenuineKept(m, Next(m, e), m.q.At(Target(m, e)));
    }
  }

  /** A detached request's transfer is going to be completed or cancelled. */
  lemma VerdictCloses(m: Machine, e: Event)
    requires Enabled(m, e) && Detaching(e) && m.q.HasSlot(Target(m, e))
    ensures !Open(Verdict(m, e))
  {
    hide Enabled, Target;
  }

  lemma MovedSettling(m: Machine, e: Event)
    requires Enabled(m, e) && Settling(e) && PcGenuine(m, m.At(e.th)) && Frame(m, e, Next(m, e))
    ensures PcGenuine(Next(m, e), Next(m, e).At(e.th))
  {
    hide Genuine;
    var pc := m.At(e.th);
    if !pc.PutCreator? {
      GenuineKept(m, Next(m, e), pc.r);
    }
  }

  lemma MovedServing(m: Machine, e: Event)
    requires Enabled(m, e) && Serving(e) && PcGenuine(m, m.At(e.th)) && ListShape(m) && Frame(m, e, Next(m, e))
    ensures PcGenuine(Next(m, e), Next(m, e).At(e.th))
  {
    hide SameTransfers, NextSubmit, NextDetach, NextSettle, NextRefer;
    var n := Next(m, e);
    if e.Fetch? {
      MovedFetching(m, e);
    } else if e.CopyOut? {
      GenuineKept(m, n, m.At(e.th).r);
    }
  }

  lemma MovedFetching(m: Machine, e: Event)
    requires Enabled(m, e) && e.Fetch? && ListShape(m) && Frame(m, e, Next(m, e))
    ensures PcGenuine(Next(m, e), Next(m, e).At(e.th))
  {
    hide SameTransfers, NextSubmit, NextDetach, NextSettle, NextRefer;
    if m.q.Fetch(m.At(e.th).o).Success? {
      GenuineKept(m, Next(m, e), m.q.pending[FirstOf(m.q.pending, OfDevice(m.q.DeviceOf(m.At(e.th).o)))]);
    }
  }

  lemma MovedReferring(m: Machine, e: Event)
    requires Enabled(m, e) && Referring(e) && Frame(m, e, Next(m, e))
    ensures PcGenuine(Next(m, e), Next(m, e).At(e.th))
  {
    hide Next, Enabled;
    StepLands(m, e);
  }

  lemma StepThreads(m: Machine, e: Event)
    requires Shape(m) && Enabled(m, e)
    ensures ThreadShape(Next(m, e))
  {
    hide Next, Enabled, ListShape, BindingShape;
    var n := Next(m, e);
    StepFrame(m, e);
    if !e.Spawn? && !e.WakeUp? { MovedGenuine(m, e); }
    forall i | 0 <= i < |n.threads| ensures PcGenuine(n, n.threads[i]) {
      if e.Spawn? || e.WakeUp? {
        RousedThread(m, e, i);
      } else if i != e.th {
        assert n.threads[i] == m.threads[i] && PcGenuine(m, m.threads[i]);
      }
    }
  }

  lemma RousedThread(m: Machine, e: Event, i: nat)
    requires ThreadShape(m) && Enabled(m, e) && (e.Spawn? || e.WakeUp?) && i < |Next(m, e).threads|
    ensures PcGenuine(Next(m, e), Next(m, e).threads[i])
  {
    if i < |m.threads| { assert PcGenuine(m, m.threads[i]); }
  }

  // ---- lists -----------------------------------------------------------

  lemma ListsKept(m: Machine, n: Machine)
    requires ListShape(m) && SameTransfers(m, n) && m.accepted <= n.accepted
    ensures forall i :: 0 <= i < |m.q.pending| ==> Genuine(n, m.q.pending[i])
    ensures forall i :: 0 <= i < |m.q.active| ==> Genuine(n, m.q.active[i])
  {
    forall i | 0 <= i < |m.q.pending| ensures Genuine(n, m.q.pending[i]) { GenuineKept(m, n, m.q.pending[i]); }
    forall i | 0 <= i < |m.q.active| ensures Genuine(n, m.q.active[i]) { GenuineKept(m, n, m.q.active[i]); }
  }

  lemma StepLists(m: Machine, e: Event)
    requires Shape(m) && Enabled(m, e)
    ensures ListShape(Next(m, e))
  {
    var n := Next(m, e);
    StepFrame(m, e);
    ListsKept(m, n);
    hide Next;
    if e.Lock? {
      assert PcGenuine(m, m.threads[e.th]);
      LockLists(m, e);
    } else if Detaching(e) {
      DetachLists(m, e);
    } else if e.Fetch? {
      FetchLists(m, e);
    } else if e.Rollback? {
      RollbackLists(m, e);
    }
  }

  lemma LockLists(m: Machine, e: Event)
    requires ListShape(m) && Enabled(m, e) && e.Lock? && PcGenuine(m, m.At(e.th))
    ensures ListShape(Next(m, e))
  {
    var n := Next(m, e);
    ListsKept(m, n);
    if m.q.Submit(Offered(m, e.th), e.link).Success? {
      assert Genuine(n, Offered(m, e.th));
    }
  }

  lemma DetachLists(m: Machine, e: Event)
    requires ListShape(m) && Enabled(m, e) && Detaching(e) && Frame(m, e, Next(m, e))
    ensures ListShape(Next(m, e))
  {
    hide Next, Enabled, Target, Verdict, Genuine;
    DetachIs(m, e);
    ListsKept(m, Next(m, e));
  }

  lemma FetchLists(m: Machine, e: Event)
    requires ListShape(m) && Enabled(m, e) && e.Fetch?
    ensures ListShape(Next(m, e))
  {
    StepFrame(m, e);
    ListsKept(m, Next(m, e));
  }

  lemma RollbackLists(m: Machine, e: Event)
    requires ListShape(m) && Enabled(m, e) && e.Rollback?
    ensures ListShape(Next(m, e))
  {
    ListsKept(m, Next(m, e));
  }

  lemma StepBindings(m: Machine, e: Event)
    requires BindingShape(m) && Enabled(m, e)
    ensures BindingShape(Next(m, e))
  {
    StepFrame(m, e);
    hide Next, Enabled;
    if e.RegisterLock? || e.Release? || e.StopUnbind? {
      WriteBindings(m, e);
    }
  }

  lemma WriteBindings(m: Machine, e: Event)
    requires BindingShape(m) && Enabled(m, e) && (e.RegisterLock? || e.Release? || e.StopUnbind?)
    ensures BindingShape(Next(m, e))
  {
    hide NextSubmit, NextDetach, NextSettle, NextServe;
  }

  // ---- transfers not yet submitted -------------------------------------

  /** Two threads never offer the same transfer. */
  lemma OfferedOnce(m: Machine, i: nat, j: nat, id: nat)
    requires Laws(m) && i < |m.threads| && j < |m.threads|
    requires PcWeight(m.threads[i], Offer(id)) > 0 && PcWeight(m.threads[j], Offer(id)) > 0
    ensures i == j
  {
    assert Law(m, Offer(id));
    if i != j {
      TotalAtLeastTwo(m.threads, if i < j then i else j, if i < j then j else i, OfPc(Offer(id)));
    }
  }

  /** A transfer that was accepted is offered by no thread. */
  lemma HeldIsNotOffered(m: Machine, i: nat, j: nat, id: nat)
    requires Laws(m) && i < |m.threads| && j < |m.threads|
    requires PcWeight(m.threads[i], Place(id)) > 0
    ensures PcWeight(m.threads[j], Offer(id)) == 0
  {
    assert Law(m, Offer(id)) && Law(m, Place(id));
    TotalAtLeast(m.threads, i, OfPc(Place(id)));
    TotalAtLeast(m.threads, j, OfPc(Offer(id)));
  }

  lemma StepFresh(m: Machine, e: Event)
    requires Inv(m) && Enabled(m, e)
    ensures Fresh(Next(m, e))
  {
    var n := Next(m, e);
    StepFrame(m, e);
    forall j | 0 <= j < |n.threads| && n.threads[j].Created? ensures n.X(n.threads[j].id).state == New {
      if e.Spawn? || e.WakeUp? {
        RousedCreated(m, e, j);
      } else if j == e.th {
        EnqueuedIsNew(m, e);
      } else {
        assert PcGenuine(m, m.threads[j]);
        if e.Prepare? || e.Refuse? || e.SettleHeld? { OthersCreated(m, e, j); }
      }
    }
  }

  lemma RousedCreated(m: Machine, e: Event, j: nat)
    requires Fresh(m) && Enabled(m, e) && (e.Spawn? || e.WakeUp?)
    requires j < |Next(m, e).threads| && Next(m, e).threads[j].Created?
    ensures Next(m, e).X(Next(m, e).threads[j].id).state == New
  {
  }

  lemma EnqueuedIsNew(m: Machine, e: Event)
    requires Enabled(m, e) && e.Enqueue?
    ensures Next(m, e).X(|m.xfers| + 1).state == New
  {
  }

  /** Writing one transfer's state leaves the transfer another thread created NEW. */
  lemma OthersCreated(m: Machine, e: Event, j: nat)
    requires Inv(m) && Enabled(m, e) && (e.Prepare? || e.Refuse? || e.SettleHeld?)
    requires j < |m.threads| && j != e.th && m.threads[j].Created?
    ensures Next(m, e).X(m.threads[j].id).state == New
  {
    hide Total, Law, NextDetach, NextServe, NextRefer;
    var id := m.threads[j].id;
    match e
    case SettleHeld(th) => if m.At(th).r.id == id { HeldIsNotOffered(m, th, j, id); }
    case Prepare(th) => if m.At(th).id == id { OfferedOnce(m, th, j, id); }
    case Refuse(th) => if m.At(th).id == id { OfferedOnce(m, th, j, id); }
  }

  // ---- laws ------------------------------------------------------------

  lemma OneLaw(m: Machine, k: Measure)
    requires Laws(m)
    ensures Law(m, k)
  {
  }

  lemma StepLaw(m: Machine, e: Event, k: Measure)
    requires Inv(m) && Enabled(m, e)
    ensures Law(Next(m, e), k)
  {
    hide Total, Next, Law, Laws, Shape, Fresh, Enabled, Held;
    OneLaw(m, k);
    match e
    case Spawn => SpawnLaw(m, k);
    case Enqueue(_, _, _, _) => EnqueueLaw(m, e, k);
    case GiveUp(_) => GiveUpLaw(m, e, k);
    case Prepare(_) => PrepareLaw(m, e, k);
    case Lock(_, _) => AcceptLaw(m, e, k);
    case Refuse(_) => RefuseLaw(m, e, k);
    case WakeUp(_) => WakeUpLaw(m, e, k);
    case SettleHeld(_) => SettleLaw(m, e, k);
    case Giveback(_) => GivebackLaw(m, e, k);
    case PutTransfer(_) => PutTransferLaw(m, e, k);
    case Fetch(_, _) => FetchLaw(m, e, k);
    case Rollback(_) => RollbackLaw(m, e, k);
    case Publish(_) => PublishLaw(m, e, k);
    case Lookup(_, _) => ReferLaw(m, e, k);
    case Unpublish(_) => UnpublishLaw(m, e, k);
    case PutDevice(_) => PutDeviceLaw(m, e, k);
    case Register(_, _) => ReferLaw(m, e, k);
    case RegisterLock(_) => BindLaw(m, e, k);
    case Release(_, _) => ReleaseEventLaw(m, e, k);
    case StopUnbind(_) => StopUnbindLaw(m, e, k);
    case Dequeue(_, _) => DetachEventLaw(m, e, k);
    case Complete(_, _, _, _) => DetachEventLaw(m, e, k);
    case ReleaseRound(_) => DetachEventLaw(m, e, k);
    case StopRound(_) => DetachEventLaw(m, e, k);
    case CopyOut(_, _) => RecordLaw(m, e, k);
    case Stop(_) => RecordLaw(m, e, k);
    case _ => MoveLaw(m, e, k);
  }

  lemma WakeUpLaw(m: Machine, e: Event, k: Measure)
    requires Law(m, k) && Enabled(m, e) && e.WakeUp?
    ensures Law(Next(m, e), k)
  {
    hide Total, Law;
    RousedLaw(m, k);
    GotoLaw(m.(threads := WakeAll(m.threads)), e.th, Woke(m.At(e.th).after), k);
  }

  lemma PutTransferLaw(m: Machine, e: Event, k: Measure)
    requires Laws(m) && Enabled(m, e) && e.PutTransfer?
    ensures Law(Next(m, e), k)
  {
    hide Total, Law;
    var (id, pc) := TransferToPut(m.At(e.th)).value;
    assert Law(m, k) && Law(m, XferRefs(id));
    PutXferLaw(m, e.th, id, pc, k);
  }

  lemma PutDeviceLaw(m: Machine, e: Event, k: Measure)
    requires Law(m, k) && Enabled(m, e) && e.PutDevice?
    ensures Law(Next(m, e), k)
  {
    hide Total, Law;
    var (d, pc) := DeviceToPut(m.At(e.th)).value;
    PutDevLaw(m, e.th, d, pc, k);
  }

  lemma ReferLaw(m: Machine, e: Event, k: Measure)
    requires Law(m, k) && Enabled(m, e) && (e.Lookup? || e.Register?)
    ensures Law(Next(m, e), k)
  {
    hide Total, Law;
    match e
    case Lookup(th, d) => GetDevLaw(m, th, d, Caller(d), k);
    case Register(th, o) => GetDevLaw(m, th, m.At(th).d, Registering(o, m.At(th).d), k);
  }

  lemma ReleaseEventLaw(m: Machine, e: Event, k: Measure)
    requires Law(m, k) && Enabled(m, e) && e.Release?
    ensures Law(Next(m, e), k)
  {
    hide Total, Law;
    UnbindLaw(m, e.th, OwnerAt(m.q.bindings, e.o), Next(m, e).At(e.th), k);
  }

  lemma StopUnbindLaw(m: Machine, e: Event, k: Measure)
    requires Law(m, k) && Enabled(m, e) && e.StopUnbind?
    ensures Law(Next(m, e), k)
  {
    hide Total, Law, NextSubmit, NextDetach, NextSettle, NextServe;
    if m.q.bindings != [] { UnbindLaw(m, e.th, 0, Next(m, e).At(e.th), k); } else { GotoLaw(m, e.th, Stopped, k); }
  }

  lemma DetachEventLaw(m: Machine, e: Event, k: Measure)
    requires Law(m, k) && Enabled(m, e) && Detaching(e)
    ensures Law(Next(m, e), k)
  {
    hide Total, Law, Next, Enabled, Target, Verdict, PcWeight, ResumeWeight;
    var s := Target(m, e);
    DetachIs(m, e);
    DetachWeights(m, e, k);
    if s == Nowhere {
      GotoLaw(m, e.th, Missed(m, e), k);
    } else {
      DetachLaw(m, e.th, s, Verdict(m, e), Continuation(m, e), k);
    }
  }

  /** A round that takes a request, or none, keeps the references its thread holds. */
  lemma DetachWeights(m: Machine, e: Event, k: Measure)
    requires Enabled(m, e) && Detaching(e)
    ensures e.th < |m.threads|
    ensures PcWeight(m.threads[e.th], k) == ResumeWeight(Continuation(m, e), k) == PcWeight(Missed(m, e), k)
  {
  }

  lemma GiveUpLaw(m: Machine, e: Event, k: Measure)
    requires Law(m, k) && Enabled(m, e) && e.GiveUp?
    ensures Law(Next(m, e), k)
  {
    hide Total;
    PcsGoto(m.threads, e.th, PutCreator(m.At(e.th).id), k);
  }

  /** Steps that move a thread and nothing the ledger counts. */
  lemma MoveLaw(m: Machine, e: Event, k: Measure)
    requires Law(m, k) && Enabled(m, e)
    requires e.FetchStart? || e.Check? || e.Interrupt?
    ensures Law(Next(m, e), k)
  {
    hide Total, Law;
    GotoLaw(m, e.th, Next(m, e).At(e.th), k);
  }

  /** The ledger counts neither deliveries nor the stopping flag. */
  lemma UncountedLaw(m: Machine, delivered: seq<Request>, stopping: bool, k: Measure)
    requires Law(m, k)
    ensures Law(m.(delivered := delivered, q := m.q.(stopping := stopping)), k)
  {
    hide Total, PcWeight, ReqWeight;
  }

  lemma RecordLaw(m: Machine, e: Event, k: Measure)
    requires Law(m, k) && Enabled(m, e) && (e.Stop? || e.CopyOut?)
    ensures Law(Next(m, e), k)
  {
    hide Total, Law, NextSubmit, NextDetach, NextSettle;
    var n := Next(m, e);
    UncountedLaw(m, n.delivered, n.q.stopping, k);
    GotoLaw(m.(delivered := n.delivered, q := m.q.(stopping := n.q.stopping)), e.th, n.At(e.th), k);
  }

  /** Every step keeps the invariant. */
  lemma StepKeeps(m: Machine, e: Event)
    requires Inv(m) && Enabled(m, e)
    ensures Inv(Next(m, e))
  {
    forall k ensures Law(Next(m, e), k) { StepLaw(m, e, k); }
    StepThreads(m, e);
    StepLists(m, e);
    StepBindings(m, e);
    StepFresh(m, e);
  }

  /** Every run keeps the invariant. */
  lemma {:induction false} RunKeeps(m: Machine, es: seq<Event>, n: Machine)
    requires Inv(m) && Run(m, es, n)
    ensures Inv(n)
    decreases es
  {
    if es != [] {
      StepKeeps(m, es[0]);
      RunKeeps(Next(m, es[0]), es[1..], n);
    }
  }
}
