/** Every step of every thread keeps the laws of the ledger. */
module Conservation {
  import opened Wrappers
  import opened Sums
  import opened Queues
  import opened Transfers
  import opened Machines
  import opened Ledger

  lemma BootKeeps()
    ensures Inv(Boot())
  {
    forall k ensures Law(Boot(), k) {}
  }

  /** Moving a thread without touching what it holds. */
  lemma GotoLaw(m: Machine, th: nat, pc: Pc, k: Measure)
    requires Law(m, k) && th < |m.threads|
    requires PcWeight(pc, k) == PcWeight(m.threads[th], k)
    ensures Law(m.Goto(th, pc), k)
  {
    hide Total;
    PcsGoto(m.threads, th, pc, k);
  }

  lemma RousedLaw(m: Machine, k: Measure)
    requires Law(m, k)
    ensures Law(m.(threads := WakeAll(m.threads)), k)
  {
    TotalCongruent(WakeAll(m.threads), m.threads, OfPc(k));
  }

  lemma DetachLaw(m: Machine, th: nat, s: Slot, verdict: XferState, next: Resume, k: Measure)
    requires Law(m, k) && th < |m.threads| && m.q.HasSlot(s)
    requires PcWeight(m.threads[th], k) == ResumeWeight(next, k)
    ensures Law(m.Detach(th, s, verdict, next), k)
  {
    hide Total;
    PcsGoto(m.threads, th, Holding(m.q.At(s), verdict, next), k);
    if s.Pending? {
      ReqsWithout(m.q.pending, s.index, k);
    } else {
      ReqsWithout(m.q.active, s.index, k);
    }
  }

  lemma PutDevLaw(m: Machine, th: nat, d: Device, pc: Pc, k: Measure)
    requires Law(m, k) && th < |m.threads|
    requires PcWeight(m.threads[th], k) == PcWeight(pc, k) + B(k == DevRefs(d))
    ensures Law(m.PutDev(d).Goto(th, pc), k)
  {
    hide Total;
    PcsGoto(m.threads, th, pc, k);
    if k == DevRefs(d) {
      TotalAppend(m.freedDevs, d, Is(d));
    } else if k.DevRefs? {
      TotalAppend(m.freedDevs, d, Is(k.d));
    }
  }

  lemma PutXferLaw(m: Machine, th: nat, id: nat, pc: Pc, k: Measure)
    requires Law(m, k) && Law(m, XferRefs(id)) && th < |m.threads|
    requires PcWeight(m.threads[th], XferRefs(id)) > 0
    requires PcWeight(m.threads[th], k) == PcWeight(pc, k) + B(k == XferRefs(id))
    ensures Law(m.PutXfer(id).Goto(th, pc), k)
  {
    hide Total;
    PcsGoto(m.threads, th, pc, XferRefs(id));
    assert m.Known(id) && m.X(id).refs > 0;
    hide Law;
    if k.DevRefs? {
      PutXferDevLaw(m, th, id, pc, k);
    } else {
      PutXferOtherLaw(m, th, id, pc, k);
    }
  }

  lemma PutXferOtherLaw(m: Machine, th: nat, id: nat, pc: Pc, k: Measure)
    requires !k.DevRefs? && Law(m, k) && th < |m.threads|
    requires m.Known(id) && m.X(id).refs > 0
    requires PcWeight(m.threads[th], k) == PcWeight(pc, k) + B(k == XferRefs(id))
    ensures Law(m.PutXfer(id).Goto(th, pc), k)
  {
    hide Total, PcWeight;
    PcsGoto(m.threads, th, pc, k);
    if k.XferRefs? { TotalAppend(m.freedXfers, id, Is(k.id)); }
  }

  lemma PutXferDevLaw(m: Machine, th: nat, id: nat, pc: Pc, k: Measure)
    requires k.DevRefs? && Law(m, k) && th < |m.threads|
    requires m.Known(id) && m.X(id).refs > 0
    requires PcWeight(m.threads[th], k) == PcWeight(pc, k)
    ensures Law(m.PutXfer(id).Goto(th, pc), k)
  {
    hide Total;
    var x := m.X(id);
    PcsGoto(m.threads, th, pc, k);
    LiveUpdate(m.xfers, id - 1, x.(refs := x.refs - 1), k.d);
    TotalAppend(m.freedDevs, x.device, Is(k.d));
  }

  lemma EnqueueLaw(m: Machine, e: Event, k: Measure)
    requires Laws(m) && e.Enqueue? && Enabled(m, e)
    ensures Law(Next(m, e), k)
  {
    hide Total, NextDetach, NextSettle, NextServe, NextRefer;
    var Enqueue(th, u, d, length) := e;
    var id := |m.xfers| + 1;
    assert Law(m, k);
    PcsGoto(m.threads, th, Created(u, id), k);
    match k
    case DevRefs(c) => TotalAppend(m.xfers, Xfer(u, d, length, New, 1), OfXfer(c));
    case Use(v) => if v == u { NotInFlight(m, u); }
    case _ =>
  }

  lemma NotInFlight(m: Machine, u: Urb)
    requires !m.InFlight(u)
    ensures Held(m, Use(u)) == 0
  {
    if Reqs(m.q.pending, Use(u)) > 0 { TotalPositive(m.q.pending, OfReq(Use(u))); }
    if Reqs(m.q.active, Use(u)) > 0 { TotalPositive(m.q.active, OfReq(Use(u))); }
    if Pcs(m.threads, Use(u)) > 0 { TotalPositive(m.threads, OfPc(Use(u))); }
  }

  lemma PrepareLaw(m: Machine, e: Event, k: Measure)
    requires Inv(m) && e.Prepare? && Enabled(m, e)
    ensures Law(Next(m, e), k)
  {
    hide Total, NextDetach, NextSettle, NextServe, NextRefer;
    var id := m.At(e.th).id;
    assert Law(m, k) && Law(m, XferRefs(id));
    PcsGoto(m.threads, e.th, Idle, XferRefs(id));
    assert m.Known(id) && m.X(id).state == New && m.X(id).refs > 0;
    hide Law;
    PreparedLaw(m, e.th, m.At(e.th).urb, id, k);
  }

  lemma PreparedLaw(m: Machine, th: nat, u: Urb, id: nat, k: Measure)
    requires Law(m, k) && th < |m.threads| && m.threads[th] == Created(u, id)
    requires m.Known(id) && m.X(id).state == New && m.X(id).refs > 0
    ensures Law(m.SetX(id, m.X(id).(state := Queued)).GetXfer(id).Goto(th, Linking(u, id)), k)
  {
    hide Total;
    var y := m.X(id).(state := Queued, refs := m.X(id).refs + 1);
    PcsGoto(m.threads, th, Linking(u, id), k);
    assert m.SetX(id, m.X(id).(state := Queued)).GetXfer(id).xfers == m.xfers[id - 1 := y];
    if k.DevRefs? { LiveUpdate(m.xfers, id - 1, y, k.d); }
  }

  lemma AcceptLaw(m: Machine, e: Event, k: Measure)
    requires Inv(m) && e.Lock? && Enabled(m, e)
    ensures Law(Next(m, e), k)
  {
    assert Law(m, k);
    hide Total, Law, NextDetach, NextSettle, NextServe, NextRefer;
    var Linking(u, id) := m.At(e.th);
    if m.q.Submit(Offered(m, e.th), e.link).Success? {
      AcceptedLaw(m, e.th, u, Offered(m, e.th), k);
    } else {
      GotoLaw(m, e.th, Refused(u, id), k);
    }
  }

  lemma AcceptedLaw(m: Machine, th: nat, u: Urb, r: Request, k: Measure)
    requires Law(m, k) && th < |m.threads| && m.threads[th] == Linking(u, r.id) && r.urb == u
    ensures Law(m.(q := m.q.(pending := m.q.pending + [r]), linked := m.linked + {u}, accepted := m.accepted + [r.id])
                .Goto(th, Wake(ThenPutTransfer(r.id))), k)
  {
    hide Total;
    PcsGoto(m.threads, th, Wake(ThenPutTransfer(r.id)), k);
    ReqsAppend(m.q.pending, r, k);
    if k.Place? || k.Offer? { TotalAppend(m.accepted, r.id, Is(k.id)); }
  }

  lemma RefuseLaw(m: Machine, e: Event, k: Measure)
    requires Inv(m) && e.Refuse? && Enabled(m, e)
    ensures Law(Next(m, e), k)
  {
    hide Total, NextDetach, NextSettle, NextServe, NextRefer;
    var id := m.At(e.th).id;
    assert Law(m, k) && Law(m, XferRefs(id)) && Law(m, Stage(id));
    PcsGoto(m.threads, e.th, Idle, XferRefs(id));
    PcsGoto(m.threads, e.th, Idle, Stage(id));
    assert m.Known(id) && m.X(id).state == Queued && m.X(id).refs >= 2;
    hide Law;
    RefusedLaw(m, e.th, m.At(e.th).urb, id, k);
  }

  lemma RefusedLaw(m: Machine, th: nat, u: Urb, id: nat, k: Measure)
    requires Law(m, k) && th < |m.threads| && m.threads[th] == Refused(u, id)
    requires m.Known(id) && m.X(id).state == Queued && m.X(id).refs >= 2
    ensures Law(m.Settle(id, Cancelled).PutXfer(id).Goto(th, PutCreator(id)), k)
  {
    hide Total;
    var y := m.X(id).(state := Cancelled, refs := m.X(id).refs - 1);
    PcsGoto(m.threads, th, PutCreator(id), k);
    assert m.Settle(id, Cancelled).PutXfer(id) == m.(xfers := m.xfers[id - 1 := y]);
    if k.DevRefs? { LiveUpdate(m.xfers, id - 1, y, k.d); }
  }

  lemma SettleLaw(m: Machine, e: Event, k: Measure)
    requires Inv(m) && e.SettleHeld? && Enabled(m, e)
    ensures Law(Next(m, e), k)
  {
    hide Total, NextSubmit, NextDetach, NextServe, NextRefer;
    var th := e.th;
    var Holding(r, verdict, next) := m.At(th);
    assert Law(m, k) && Law(m, Stage(r.id));
    PcsGoto(m.threads, th, Settled(r, next), k);
    PcsGoto(m.threads, th, Settled(r, next), Stage(r.id));
    if k.DevRefs? { LiveUpdate(m.xfers, r.id - 1, m.X(r.id).(state := verdict), k.d); }
  }

  lemma GivebackLaw(m: Machine, e: Event, k: Measure)
    requires Laws(m) && e.Giveback? && Enabled(m, e)
    ensures Law(Next(m, e), k)
  {
    hide Total, NextSubmit, NextDetach, NextServe, NextRefer;
    var th := e.th;
    var Settled(r, next) := m.At(th);
    assert Law(m, k);
    PcsGoto(m.threads, th, Returned(r, next), k);
    if k.Place? { TotalAppend(m.given, r.id, Is(k.id)); }
  }

  lemma FetchLaw(m: Machine, e: Event, k: Measure)
    requires Inv(m) && e.Fetch? && Enabled(m, e)
    ensures Law(Next(m, e), k)
  {
    hide Total, NextSubmit, NextDetach, NextSettle, NextRefer;
    var th, o := e.th, m.At(e.th).o;
    assert Law(m, k);
    match m.q.Fetch(o)
    case Success((r, q)) =>
      var i := FirstOf(m.q.pending, OfDevice(m.q.DeviceOf(o)));
      TakenIsHeld(m, i);
      TakeLaw(m, th, o, i, k);
    case Failure(error) =>
      GotoLaw(m, th, if error == EAGAIN && !e.nonblock then Waiting(o, false) else Idle, k);
  }

  lemma TakeLaw(m: Machine, th: nat, o: Owner, i: nat, k: Measure)
    requires Law(m, k) && th < |m.threads| && i < |m.q.pending|
    requires m.X(m.q.pending[i].id).refs > 0
    requires PcWeight(m.threads[th], k) == 0
    ensures
      var r := m.q.pending[i].(owner := Some(o));
      var q := m.q.(pending := Without(m.q.pending, i), active := m.q.active + [r]);
      Law(m.(q := q).GetXfer(r.id).Goto(th, Copying(o, r)), k)
  {
    hide Total;
    var r := m.q.pending[i].(owner := Some(o));
    PcsGoto(m.threads, th, Copying(o, r), k);
    ReqsWithout(m.q.pending, i, k);
    ReqsAppend(m.q.active, r, k);
    if k.DevRefs? { LiveUpdate(m.xfers, r.id - 1, m.X(r.id).(refs := m.X(r.id).refs + 1), k.d); }
  }

  lemma TakenIsHeld(m: Machine, i: nat)
    requires Laws(m) && i < |m.q.pending|
    ensures m.X(m.q.pending[i].id).refs > 0
  {
    var k := XferRefs(m.q.pending[i].id);
    assert Law(m, k);
    TotalAtLeast(m.q.pending, i, OfReq(k));
  }

  lemma RollbackLaw(m: Machine, e: Event, k: Measure)
    requires Laws(m) && e.Rollback? && Enabled(m, e)
    ensures Law(Next(m, e), k)
  {
    assert Law(m, k);
    hide Total, Laws, Law, FirstOf, NextSubmit, NextDetach, NextSettle, NextRefer;
    var Undo(o, r) := m.At(e.th);
    var i := FirstOf(m.q.active, OfId(o, r.id));
    if i == |m.q.active| {
      GotoLaw(m, e.th, Idle, k);
    } else {
      RolledBackLaw(m, e.th, i, k);
    }
  }

  lemma RolledBackLaw(m: Machine, th: nat, i: nat, k: Measure)
    requires Law(m, k) && th < |m.threads| && m.threads[th].Undo? && i < |m.q.active|
    ensures
      var q := m.q.(active := Without(m.q.active, i), pending := [m.q.active[i].(owner := None)] + m.q.pending);
      Law(m.(q := q).Goto(th, Wake(ThenReturn)), k)
  {
    hide Total;
    PcsGoto(m.threads, th, Wake(ThenReturn), k);
    ReqsWithout(m.q.active, i, k);
    ReqsPrepend(m.q.pending, m.q.active[i].(owner := None), k);
  }

  lemma PublishLaw(m: Machine, e: Event, k: Measure)
    requires Laws(m) && e.Publish? && Enabled(m, e)
    ensures Law(Next(m, e), k)
  {
    hide Total, NextSubmit, NextDetach, NextSettle, NextServe;
    assert Law(m, k);
    PcsGoto(m.threads, e.th, Caller(|m.devs|), k);
  }

  lemma GetDevLaw(m: Machine, th: nat, d: Device, pc: Pc, k: Measure)
    requires Law(m, k) && th < |m.threads|
    requires m.D(d).registered || PcWeight(m.threads[th], DevRefs(d)) > 0
    requires PcWeight(pc, k) == PcWeight(m.threads[th], k) + B(k == DevRefs(d))
    ensures Law(m.GetDev(d).Goto(th, pc), k)
  {
    hide Total;
    PcsGoto(m.threads, th, pc, k);
  }

  lemma UnpublishLaw(m: Machine, e: Event, k: Measure)
    requires Laws(m) && e.Unpublish? && Enabled(m, e)
    ensures Law(Next(m, e), k)
  {
    hide Total, NextSubmit, NextDetach, NextSettle, NextServe;
    assert Law(m, k);
    PcsGoto(m.threads, e.th, Unpublished(m.At(e.th).d), k);
  }

  lemma BindLaw(m: Machine, e: Event, k: Measure)
    requires Laws(m) && e.RegisterLock? && Enabled(m, e)
    ensures Law(Next(m, e), k)
  {
    assert Law(m, k);
    hide Total, Laws, Law, OwnerAt, DeviceAt, NextSubmit, NextDetach, NextSettle, NextServe;
    var Registering(o, d) := m.At(e.th);
    if m.q.Register(o, d).Success? {
      BoundLaw(m, e.th, o, d, k);
    } else {
      GotoLaw(m, e.th, RegisterFailed(d), k);
    }
  }

  lemma BoundLaw(m: Machine, th: nat, o: Owner, d: Device, k: Measure)
    requires Law(m, k) && th < |m.threads| && m.threads[th] == Registering(o, d)
    ensures Law(m.(q := m.q.(bindings := m.q.bindings + [Binding(o, d)])).Goto(th, Wake(ThenCaller(d))), k)
  {
    hide Total;
    PcsGoto(m.threads, th, Wake(ThenCaller(d)), k);
    if k.DevRefs? { TotalAppend(m.q.bindings, Binding(o, d), OfBinding(k.d)); }
  }

  lemma UnbindLaw(m: Machine, th: nat, i: nat, pc: Pc, k: Measure)
    requires Law(m, k) && th < |m.threads| && i < |m.q.bindings|
    requires PcWeight(pc, k) == PcWeight(m.threads[th], k) + B(k == DevRefs(m.q.bindings[i].device))
    ensures Law(m.(q := m.q.(bindings := Without(m.q.bindings, i))).Goto(th, pc), k)
  {
    hide Total;
    PcsGoto(m.threads, th, pc, k);
    if k.DevRefs? { TotalRemove(m.q.bindings, i, OfBinding(k.d)); }
  }

  lemma SpawnLaw(m: Machine, k: Measure)
    requires Law(m, k)
    ensures Law(Next(m, Spawn), k)
  {
    hide Total;
    TotalAppend(m.threads, Idle, OfPc(k));
  }
}
