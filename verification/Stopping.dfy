/** virtusb_backend_stop under concurrency: it ends, and its end is final. */
module Stopping {
  import opened Wrappers
  import opened Queues
  import opened Machines
  import opened Frames
  import opened Ledger
  import opened Guarantees
  import opened Sums

  function Load(m: Machine): nat { |m.q.pending| + |m.q.active| }

  /** A step that takes a request off the queue. */
  predicate Takes(m: Machine, e: Event)
    requires Enabled(m, e)
  {
    Detaching(e) && Target(m, e) != Nowhere
  }

  /** Once stopping, a step detaches one request or moves none in or out. */
  lemma StepStopping(m: Machine, e: Event)
    requires Enabled(m, e) && m.q.stopping
    ensures Next(m, e).q.stopping
    ensures Load(Next(m, e)) == Load(m) - if Takes(m, e) then 1 else 0
    ensures |Next(m, e).q.bindings| <= |m.q.bindings|
  {
    StepFrame(m, e);
    if Detaching(e) {
      DetachLoad(m, e);
    } else {
      QueueLoad(m, e);
    }
  }

  lemma DetachLoad(m: Machine, e: Event)
    requires Enabled(m, e) && Detaching(e)
    ensures Next(m, e).q.stopping == m.q.stopping && Next(m, e).q.bindings == m.q.bindings
    ensures Load(Next(m, e)) == Load(m) - if Takes(m, e) then 1 else 0
  {
    hide Next, Target, Verdict;
    DetachIs(m, e);
  }

  lemma QueueLoad(m: Machine, e: Event)
    requires Enabled(m, e) && m.q.stopping && !Detaching(e) && Frame(m, e, Next(m, e))
    ensures Next(m, e).q.stopping && Load(Next(m, e)) == Load(m) && |Next(m, e).q.bindings| <= |m.q.bindings|
  {
    if e.Lock? || e.Fetch? || e.Rollback? || e.RegisterLock? || e.Release? || e.StopUnbind? || e.Stop? {
    } else {
      hide Next, Enabled;
    }
  }

  /** How many requests a run takes off the queue. */
  function Taken(m: Machine, es: seq<Event>): nat
    decreases es
  {
    if es == [] || !Enabled(m, es[0]) then 0
    else (if Takes(m, es[0]) then 1 else 0) + Taken(Next(m, es[0]), es[1..])
  }

  /** From the moment `stopping` is set, however the threads interleave, what
      is left plus what was taken is what there was: every round of the drain
      brings it nearer to empty, and nothing brings it back. */
  lemma {:induction false} StopDrains(m: Machine, es: seq<Event>, n: Machine)
    requires m.q.stopping && Run(m, es, n)
    ensures n.q.stopping
    ensures |n.q.pending| + |n.q.active| + Taken(m, es) == |m.q.pending| + |m.q.active|
    ensures |n.q.bindings| <= |m.q.bindings|
    decreases es
  {
    if es != [] {
      StepStopping(m, es[0]);
      StopDrains(Next(m, es[0]), es[1..], n);
    }
  }

  // ---- what a stopping thread has established ---------------------------

  function NextOf(pc: Pc): Option<Resume> {
    match pc
    case Holding(_, _, next) => Some(next)
    case Settled(_, next) => Some(next)
    case Returned(_, next) => Some(next)
    case _ => None
  }

  predicate PastDrain(pc: Pc) { pc == StopBindings || pc.StopPut? || pc == Stopped }

  /** The thread runs virtusb_backend_stop and has set the flag. */
  predicate Committed(pc: Pc) {
    pc == Wake(ThenStop) || pc == StopDrain || NextOf(pc) == Some(ToStop) || PastDrain(pc)
  }

  ghost predicate ThreadStop(m: Machine, pc: Pc) {
    && (Committed(pc) ==> m.q.stopping)
    && (PastDrain(pc) ==> Load(m) == 0)
    && (pc == Stopped ==> m.q.bindings == [])
  }

  ghost predicate StopLaw(m: Machine) {
    forall th :: 0 <= th < |m.threads| ==> ThreadStop(m, m.threads[th])
  }

  lemma StepKeepsStopLaw(m: Machine, e: Event)
    requires StopLaw(m) && Enabled(m, e)
    ensures StopLaw(Next(m, e))
  {
    var n := Next(m, e);
    StepFrame(m, e);
    if m.q.stopping { StepStopping(m, e); }
    forall th | 0 <= th < |n.threads| ensures ThreadStop(n, n.threads[th]) {
      if e.Spawn? || e.WakeUp? {
        RousedStop(m, e, th);
      } else if th == e.th {
        MovedStop(m, e);
      } else {
        hide Next, Enabled;
        assert n.threads[th] == m.threads[th] && ThreadStop(m, m.threads[th]);
      }
    }
  }

  lemma RousedStop(m: Machine, e: Event, th: nat)
    requires StopLaw(m) && Enabled(m, e) && (e.Spawn? || e.WakeUp?) && th < |Next(m, e).threads|
    ensures ThreadStop(Next(m, e), Next(m, e).threads[th])
  {
    if th < |m.threads| { assert ThreadStop(m, m.threads[th]); }
    if e.WakeUp? { assert ThreadStop(m, m.threads[e.th]); }
  }

  lemma MovedStop(m: Machine, e: Event)
    requires StopLaw(m) && Enabled(m, e) && !e.Spawn? && !e.WakeUp? && Frame(m, e, Next(m, e))
    requires m.q.stopping ==> Next(m, e).q.stopping && Load(Next(m, e)) <= Load(m) && |Next(m, e).q.bindings| <= |m.q.bindings|
    ensures ThreadStop(Next(m, e), Next(m, e).At(e.th))
  {
    assert ThreadStop(m, m.threads[e.th]);
    hide StopLaw, Frame, ThreadStop;
    if Submitting(e) || Serving(e) { MovedElsewhere(m, e); }
    else if Detaching(e) { MovedDetach(m, e); }
    else if Settling(e) { MovedSettle(m, e); }
    else { MovedRefer(m, e); }
  }

  lemma MovedElsewhere(m: Machine, e: Event)
    requires Enabled(m, e) && (Submitting(e) || Serving(e))
    ensures ThreadStop(Next(m, e), Next(m, e).At(e.th))
  {
    StepLands(m, e);
    hide Next, Enabled;
    assert !Committed(Next(m, e).At(e.th));
    hide Load, Committed;
  }

  lemma MovedDetach(m: Machine, e: Event)
    requires Enabled(m, e) && Detaching(e) && ThreadStop(m, m.At(e.th))
    ensures ThreadStop(Next(m, e), Next(m, e).At(e.th))
  {
    StepLands(m, e);
    DetachLoad(m, e);
    if e.StopRound? {
      StopRoundDrains(m, e);
      hide Next, Load, Queue.SlotToStop;
    } else {
      MovedCaller(m, e);
      hide Next, Enabled, Load;
    }
  }

  lemma StopRoundDrains(m: Machine, e: Event)
    requires Enabled(m, e) && e.StopRound?
    ensures var pc := Next(m, e).At(e.th);
      if Target(m, e) == Nowhere then pc == StopBindings && Load(m) == 0 else pc.Holding?
  {
    hide Verdict;
  }

  /** A cancel, a completion or a round of release leads into no stop. */
  lemma MovedCaller(m: Machine, e: Event)
    requires Enabled(m, e) && Detaching(e) && !e.StopRound?
    ensures !Committed(Next(m, e).At(e.th))
  {
    hide Next, Target, Verdict;
    DetachIs(m, e);
  }

  lemma MovedSettle(m: Machine, e: Event)
    requires Enabled(m, e) && Settling(e) && ThreadStop(m, m.At(e.th)) && SameQueue(m, e, Next(m, e))
    ensures ThreadStop(Next(m, e), Next(m, e).At(e.th))
  {
    SettledOn(m, e);
    hide Next, Enabled;
  }

  /** Settling leads into a stop only from within one, and not past its drain. */
  lemma SettledOn(m: Machine, e: Event)
    requires Enabled(m, e) && Settling(e)
    ensures Committed(Next(m, e).At(e.th)) ==> Committed(m.At(e.th))
    ensures !PastDrain(Next(m, e).At(e.th))
  {
  }

  lemma MovedRefer(m: Machine, e: Event)
    requires Enabled(m, e) && Referring(e) && ThreadStop(m, m.At(e.th)) && SameQueue(m, e, Next(m, e))
    ensures ThreadStop(Next(m, e), Next(m, e).At(e.th))
  {
    StepLands(m, e);
    if e.StopUnbind? || e.PutDevice? || e.Stop? {
      MovedStopping(m, e);
    } else {
      hide Next, Enabled;
      assert !Committed(Next(m, e).At(e.th));
      hide Load, Committed;
    }
  }

  lemma MovedStopping(m: Machine, e: Event)
    requires Enabled(m, e) && (e.StopUnbind? || e.PutDevice? || e.Stop?) && ThreadStop(m, m.At(e.th))
    requires SameQueue(m, e, Next(m, e))
    ensures ThreadStop(Next(m, e), Next(m, e).At(e.th))
  {
    if e.Stop? {
      hide Load, NextSubmit, NextDetach, NextSettle, NextServe;
    } else if e.PutDevice? {
      MovedPut(m, e);
    } else {
      MovedUnbind(m, e);
    }
  }

  lemma MovedUnbind(m: Machine, e: Event)
    requires Enabled(m, e) && e.StopUnbind? && ThreadStop(m, m.At(e.th)) && SameQueue(m, e, Next(m, e))
    ensures ThreadStop(Next(m, e), Next(m, e).At(e.th))
  {
    hide NextSubmit, NextDetach, NextSettle, NextServe;
  }

  lemma MovedPut(m: Machine, e: Event)
    requires Enabled(m, e) && e.PutDevice? && ThreadStop(m, m.At(e.th)) && SameQueue(m, e, Next(m, e))
    ensures ThreadStop(Next(m, e), Next(m, e).At(e.th))
  {
    hide NextSubmit, NextDetach, NextSettle, NextServe;
  }

  lemma {:induction false} RunKeepsStopLaw(m: Machine, es: seq<Event>, n: Machine)
    requires StopLaw(m) && Run(m, es, n)
    ensures StopLaw(n)
    decreases es
  {
    if es != [] {
      StepKeepsStopLaw(m, es[0]);
      RunKeepsStopLaw(Next(m, es[0]), es[1..], n);
    }
  }

  /** When virtusb_backend_stop returns, bindings, pending and active are empty,
      and they stay empty whatever runs afterwards. */
  lemma StopIsFinal(m: Machine, th: nat, es: seq<Event>, n: Machine)
    requires Reachable(m) && th < |m.threads| && m.threads[th] == Stopped && Run(m, es, n)
    ensures m.q.pending == [] && m.q.active == [] && m.q.bindings == []
    ensures n.q.pending == [] && n.q.active == [] && n.q.bindings == []
  {
    var boot :| Run(Boot(), boot, m);
    RunKeepsStopLaw(Boot(), boot, m);
    assert ThreadStop(m, m.threads[th]);
    StopDrains(m, es, n);
  }

  /** Nobody takes a stop back. */
  lemma StoppedStops(m: Machine, th: nat)
    requires Reachable(m) && th < |m.threads| && m.threads[th] == Stopped
    ensures m.q.stopping
  {
    var boot :| Run(Boot(), boot, m);
    RunKeepsStopLaw(Boot(), boot, m);
    assert ThreadStop(m, m.threads[th]);
  }

  /** When a stop has returned and no thread has a detached request in hand, everything
      that was ever accepted has been given back, exactly once. */
  lemma StoppedGaveAll(m: Machine, th: nat, id: nat)
    requires Reachable(m) && th < |m.threads| && m.threads[th] == Stopped
    requires forall t :: 0 <= t < |m.threads| ==> !m.threads[t].Holding? && !m.threads[t].Settled?
    ensures Count(m.given, id) == Count(m.accepted, id) <= 1
  {
    assert Run(m, [], m);
    StopIsFinal(m, th, [], m);
    ExactlyOnce(m, id);
    if InHand(m, id) > 0 { InSomeHand(m, id); }
  }

  lemma InSomeHand(m: Machine, id: nat)
    requires InHand(m, id) > 0
    ensures exists t :: 0 <= t < |m.threads| && (m.threads[t].Holding? || m.threads[t].Settled?)
  {
    TotalPositive(m.threads, OfPc(Place(id)));
  }
}
