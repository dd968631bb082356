/** Which end a transfer gets: the step that takes its request off the lists decides, and no other. */
module Endings {
  import opened Wrappers
  import Sums
  import opened Queues
  import opened Transfers
  import opened Machines
  import opened Frames
  import opened Ledger
  import opened Steps
  import opened Guarantees
  import opened Sections

  /** A transfer has this end, or some thread is about to give it. */
  ghost predicate Fated(m: Machine, id: nat, end: XferState) {
    || m.X(id).state == end
    || exists th :: 0 <= th < |m.threads| && m.threads[th].Holding? && m.threads[th].r.id == id && m.threads[th].verdict == end
  }

  /** A thread with a detached request moves only to write its transfer's end. */
  lemma HolderMoves(m: Machine, e: Event, th: nat)
    requires Enabled(m, e) && th < |m.threads| && m.threads[th].Holding?
    ensures th < |Next(m, e).threads|
    ensures Next(m, e).threads[th] == m.threads[th] || e == SettleHeld(th)
  {
    hide Next, Enabled;
    StepFrame(m, e);
    if e.Spawn? || e.WakeUp? {
      HolderRoused(m, e, th);
    } else if e.th == th {
      HolderSettles(m, e);
    }
  }

  lemma HolderRoused(m: Machine, e: Event, th: nat)
    requires Enabled(m, e) && (e.Spawn? || e.WakeUp?) && th < |m.threads| && m.threads[th].Holding?
    ensures th < |Next(m, e).threads| && Next(m, e).threads[th] == m.threads[th]
  {
    hide NextSubmit, NextDetach, NextSettle, NextServe, NextRefer;
  }

  lemma HolderSettles(m: Machine, e: Event)
    requires Enabled(m, e) && !e.Spawn? && !e.WakeUp? && m.At(e.th).Holding?
    ensures e.SettleHeld?
  {
  }

  lemma HolderWrites(m: Machine, th: nat)
    requires Inv(m) && th < |m.threads| && m.threads[th].Holding?
    ensures Next(m, SettleHeld(th)).X(m.threads[th].r.id).state == m.threads[th].verdict
  {
    var k := Stage(m.threads[th].r.id);
    assert Law(m, k) && PcGenuine(m, m.threads[th]);
    StagedWeighs(m, th);
    hide NextSubmit, NextDetach, NextServe, NextRefer, Laws, Shape;
  }

  lemma StagedWeighs(m: Machine, th: nat)
    requires th < |m.threads| && m.threads[th].Holding?
    ensures Pcs(m.threads, Stage(m.threads[th].r.id)) > 0
  {
    Sums.TotalAtLeast(m.threads, th, OfPc(Stage(m.threads[th].r.id)));
  }

  lemma StepFated(m: Machine, e: Event, id: nat, end: XferState)
    requires Inv(m) && Enabled(m, e) && Fated(m, id, end) && !Open(end)
    ensures Fated(Next(m, e), id, end)
  {
    if m.X(id).state == end {
      StepForward(m, e, id);
    } else {
      var th :| 0 <= th < |m.threads| && m.threads[th].Holding? && m.threads[th].r.id == id && m.threads[th].verdict == end;
      HolderMoves(m, e, th);
      if e == SettleHeld(th) { HolderWrites(m, th); }
      hide Next, Enabled;
    }
  }

  lemma {:induction false} RunFated(m: Machine, es: seq<Event>, n: Machine, id: nat, end: XferState)
    requires Inv(m) && Run(m, es, n) && Fated(m, id, end) && !Open(end)
    ensures Fated(n, id, end)
    decreases es
  {
    if es != [] {
      StepFated(m, es[0], id, end);
      StepKeeps(m, es[0]);
      RunFated(Next(m, es[0]), es[1..], n, id, end);
    }
  }

  // ---- what takes a request off ----------------------------------------------------------

  ghost predicate OnLists(q: Queue, id: nat) { exists r :: (r in q.pending || r in q.active) && r.id == id }

  lemma WithoutKeeps(rs: seq<Request>, i: nat, r: Request)
    requires i < |rs| && r in rs && r != rs[i]
    ensures r in Without(rs, i)
  {
    var j :| 0 <= j < |rs| && rs[j] == r;
    assert Without(rs, i)[if j < i then j else j - 1] == r;
  }

  lemma FetchKeeps(q: Queue, o: Owner, id: nat)
    requires OnLists(q, id) && q.Fetch(o).Success?
    ensures OnLists(q.Fetch(o).value.1, id)
  {
    var i := FirstOf(q.pending, OfDevice(q.DeviceOf(o)));
    var r :| (r in q.pending || r in q.active) && r.id == id;
    var n := q.Fetch(o).value.1;
    if r == q.pending[i] {
      assert n.active[|q.active|].id == id;
    } else if r in q.pending {
      WithoutKeeps(q.pending, i, r);
    }
  }

  lemma RollbackKeeps(q: Queue, o: Owner, back: nat, id: nat)
    requires OnLists(q, id) && q.Rollback(o, back).Success?
    ensures OnLists(q.Rollback(o, back).value, id)
  {
    var i := FirstOf(q.active, OfId(o, back));
    var r :| (r in q.pending || r in q.active) && r.id == id;
    var n := q.Rollback(o, back).value;
    if r == q.active[i] {
      assert n.pending[0].id == id;
    } else if r in q.active {
      WithoutKeeps(q.active, i, r);
    } else {
      var j :| 0 <= j < |q.pending| && q.pending[j] == r;
      assert n.pending[j + 1] == r;
    }
  }

  lemma DetachKeeps(q: Queue, s: Slot, id: nat)
    requires OnLists(q, id) && q.HasSlot(s) && q.At(s).id != id
    ensures OnLists(q.Detach(s), id)
  {
    var r :| (r in q.pending || r in q.active) && r.id == id;
    if s.Pending? {
      if r in q.pending { WithoutKeeps(q.pending, s.index, r); }
    } else {
      if r in q.active { WithoutKeeps(q.active, s.index, r); }
    }
  }

  /** Only cancel, complete, release and stop take a request off the lists. */
  lemma TakenByDetach(m: Machine, e: Event, id: nat)
    requires Enabled(m, e) && OnLists(m.q, id) && !OnLists(Next(m, e).q, id)
    ensures Detaching(e) && m.q.HasSlot(Target(m, e)) && m.q.At(Target(m, e)).id == id
    ensures Next(m, e) == m.Detach(e.th, Target(m, e), Verdict(m, e), Continuation(m, e))
  {
    StepFrame(m, e);
    if Detaching(e) {
      DetachOff(m, e, id);
    } else if e.Lock? || e.Fetch? || e.Rollback? {
      ServingKeeps(m, e, id);
    }
    hide Next, Enabled, Target, Verdict, Continuation;
  }

  lemma DetachOff(m: Machine, e: Event, id: nat)
    requires Enabled(m, e) && Detaching(e) && OnLists(m.q, id) && !OnLists(Next(m, e).q, id)
    ensures m.q.HasSlot(Target(m, e)) && m.q.At(Target(m, e)).id == id
    ensures Next(m, e) == m.Detach(e.th, Target(m, e), Verdict(m, e), Continuation(m, e))
  {
    hide Next, Enabled, Target, Verdict, Continuation, OnLists, Queue.Detach;
    DetachIs(m, e);
    if Target(m, e) != Nowhere && m.q.At(Target(m, e)).id != id { DetachKeeps(m.q, Target(m, e), id); }
  }

  lemma ServingKeeps(m: Machine, e: Event, id: nat)
    requires Enabled(m, e) && (e.Lock? || e.Fetch? || e.Rollback?) && OnLists(m.q, id)
    ensures OnLists(Next(m, e).q, id)
  {
    hide Queue.Submit, Queue.Fetch, Queue.Rollback, OnLists, NextDetach, NextSettle, NextRefer;
    match e
    case Lock(th, link) => if m.q.Submit(Offered(m, th), link).Success? { SubmitKeeps(m.q, Offered(m, th), link, id); }
    case Fetch(th, _) => if m.q.Fetch(m.At(th).o).Success? { FetchKeeps(m.q, m.At(th).o, id); }
    case Rollback(th) => if m.q.Rollback(m.At(th).o, m.At(th).r.id).Success? { RollbackKeeps(m.q, m.At(th).o, m.At(th).r.id, id); }
  }

  lemma SubmitKeeps(q: Queue, r: Request, link: Option<Errno>, id: nat)
    requires OnLists(q, id) && q.Submit(r, link).Success?
    ensures OnLists(q.Submit(r, link).value, id)
  {
  }

  /** Over every run the step that takes a transfer's request off the lists decides its end, whatever runs
      afterwards: a completion that is no longer than was asked for completes it; a longer completion, and
      every cancel, release and stop, cancels it. A thread may still be about to write it. */
  lemma TakenDecides(m: Machine, e: Event, es: seq<Event>, n: Machine, id: nat)
    requires Reachable(m) && Enabled(m, e) && Run(Next(m, e), es, n)
    requires exists r :: (r in m.q.pending || r in m.q.active) && r.id == id
    requires forall r :: r in Next(m, e).q.pending || r in Next(m, e).q.active ==> r.id != id
    ensures e.Complete? || e.Dequeue? || e.ReleaseRound? || e.StopRound?
    ensures var end := if e.Complete? && e.actual <= m.X(id).length then Completed else Cancelled;
      || n.X(id).state == end
      || exists th :: 0 <= th < |n.threads| && n.threads[th].Holding? && n.threads[th].r.id == id && n.threads[th].verdict == end
  {
    hide Next, Enabled, Inv, Reachable, Run;
    var end := if e.Complete? && e.actual <= m.X(id).length then Completed else Cancelled;
    ReachableInv(m);
    StepKeeps(m, e);
    assert OnLists(m.q, id) && !OnLists(Next(m, e).q, id);
    hide OnLists;
    TakenByDetach(m, e, id);
    TakenFates(m, e, id);
    RunFated(Next(m, e), es, n, id, end);
  }

  lemma TakenFates(m: Machine, e: Event, id: nat)
    requires Reachable(m) && Enabled(m, e) && Detaching(e) && m.q.HasSlot(Target(m, e)) && m.q.At(Target(m, e)).id == id
    requires Next(m, e) == m.Detach(e.th, Target(m, e), Verdict(m, e), Continuation(m, e))
    ensures Fated(Next(m, e), id, if e.Complete? && e.actual <= m.X(id).length then Completed else Cancelled)
  {
    QueuedCoupling(m);
    hide Target, Continuation, Next, Reachable, Enabled;
    var s := Target(m, e);
    assert m.q.At(s) in m.q.pending + m.q.active;
    assert e.th < |m.threads|;
    assert Next(m, e).threads[e.th].Holding?;
  }

  /** A completion by its owner takes an active request off the lists, and so does a cancel of a queued URB. */
  lemma NamedIsTaken(m: Machine, e: Event, r: Request)
    requires Reachable(m) && Enabled(m, e)
    requires
      || (e.Complete? && r in m.q.active && r.owner == Some(e.o) && r.id == e.id)
      || (e.Dequeue? && (r in m.q.pending || r in m.q.active) && r.urb == e.urb)
    ensures m.q.HasSlot(Target(m, e)) && m.q.At(Target(m, e)) == r
    ensures forall x :: x in Next(m, e).q.pending || x in Next(m, e).q.active ==> x.id != r.id
  {
    if e.Complete? { CompleteTakes(m.q, e.o, e.id); } else { CancelTakes(m.q, e.urb); }
    TheOnlyOne(m, e, r);
    hide Next, Enabled, Reachable, Target, Verdict, Continuation;
    DetachIs(m, e);
    OneSlot(m, Target(m, e));
  }

  /** Where a slot stands in both lists together. */
  function SlotAt(q: Queue, s: Slot): (k: nat)
    requires q.HasSlot(s)
    ensures k < |q.pending + q.active| && (q.pending + q.active)[k] == q.At(s)
  {
    if s.Pending? then s.index else |q.pending| + s.index
  }

  /** Ids and URBs are on the lists once. */
  lemma OnceEach(m: Machine)
    requires Reachable(m)
    ensures var all := m.q.pending + m.q.active;
      forall i, j :: 0 <= i < j < |all| ==> all[i].id != all[j].id && all[i].urb != all[j].urb
  {
    QueuedCoupling(m);
    var all := m.q.pending + m.q.active;
    hide Reachable;
    forall i, j | 0 <= i < j < |all| ensures all[i].urb != all[j].urb {
      var k := Use(all[i].urb);
      UrbInFlightOnce(m, all[i].urb);
      Sums.TotalConcat(m.q.pending, m.q.active, OfReq(k));
      if all[i].urb == all[j].urb { Sums.TotalAtLeastTwo(all, i, j, OfReq(k)); }
    }
  }

  lemma TheOnlyOne(m: Machine, e: Event, r: Request)
    requires Reachable(m) && Enabled(m, e) && (e.Complete? || e.Dequeue?) && m.q.HasSlot(Target(m, e))
    requires r in m.q.pending || r in m.q.active
    requires if e.Complete? then m.q.At(Target(m, e)).id == r.id else m.q.At(Target(m, e)).urb == r.urb
    ensures m.q.At(Target(m, e)) == r
  {
    OnceEach(m);
    hide Reachable, Enabled, Target;
    var all, k := m.q.pending + m.q.active, SlotAt(m.q, Target(m, e));
    assert r in all;
    var i :| 0 <= i < |all| && all[i] == r;
    assert i == k;
  }

  lemma OneSlot(m: Machine, s: Slot)
    requires Reachable(m) && m.q.HasSlot(s)
    ensures forall x :: x in m.q.Detach(s).pending || x in m.q.Detach(s).active ==> x.id != m.q.At(s).id
  {
    OnceEach(m);
    hide Reachable;
    var all, k, n := m.q.pending + m.q.active, SlotAt(m.q, s), m.q.Detach(s);
    assert n.pending + n.active == Without(all, k);
    forall x | x in n.pending || x in n.active ensures x.id != m.q.At(s).id {
      assert x in n.pending + n.active;
      var i :| 0 <= i < |Without(all, k)| && Without(all, k)[i] == x;
      assert x == all[if i < k then i else i + 1];
    }
  }
}
