/** No lost wake-up: a fetch never sleeps through the condition it waits for. */
module Wakeups {
  import opened Queues
  import opened Machines
  import opened Frames
  import opened Ledger
  import opened Steps
  import opened Guarantees
  import opened Sections
  import Conservation

  /** Fewer pending requests and the same bindings make no waiter ready. */
  lemma FewerReady(q: Queue, i: nat, o: Owner)
    requires i < |q.pending| && !q.Ready(o)
    ensures !q.(pending := Without(q.pending, i)).Ready(o)
  {
  }

  lemma UnboundReady(q: Queue, i: nat, o: Owner)
    requires i < |q.bindings| && !q.Ready(o)
    requires forall a, b :: 0 <= a < b < |q.bindings| ==> q.bindings[a].owner != q.bindings[b].owner
    ensures !q.(bindings := Without(q.bindings, i)).Ready(o)
  {
    var bs := Without(q.bindings, i);
    var j := OwnerAt(bs, o);
    if j < |bs| {
      var k := if j < i then j else j + 1;
      assert q.bindings[k] == bs[j];
      assert OwnerAt(q.bindings, o) == k;
    }
  }

  /** A step that makes a waiter ready leaves its thread before a wake-up. */
  lemma ReadyTurns(m: Machine, e: Event, o: Owner)
    requires BindingShape(m) && Enabled(m, e)
    ensures Next(m, e).q.Ready(o) ==>
      m.q.Ready(o) || (!e.WakeUp? && !e.Spawn? && Next(m, e).At(e.th).Wake?)
  {
    StepFrame(m, e);
    if m.q.Ready(o) {
    } else if Detaching(e) {
      DetachNotReady(m, e, o);
    } else if e.Lock? || e.RegisterLock? || e.Stop? || e.Rollback? {
      WakerWakes(m, e);
    } else if e.Fetch? {
      FetchNotReady(m, e, o);
    } else if e.Release? || e.StopUnbind? {
      ReleaseNotReady(m, e, o);
    }
  }

  lemma DetachNotReady(m: Machine, e: Event, o: Owner)
    requires Enabled(m, e) && Detaching(e) && !m.q.Ready(o)
    ensures !Next(m, e).q.Ready(o)
  {
    var s := Target(m, e);
    hide FirstOf, Next, Enabled, Target, Verdict;
    DetachIs(m, e);
    if s.Pending? { FewerReady(m.q, s.index, o); }
  }

  /** Submit, register, rollback and stop wake the waiters after they unlock. */
  lemma WakerWakes(m: Machine, e: Event)
    requires Enabled(m, e) && (e.Lock? || e.RegisterLock? || e.Stop? || e.Rollback?)
    ensures Next(m, e).q == m.q || Next(m, e).At(e.th).Wake?
  {
    hide FirstOf, OwnerAt, DeviceAt;
  }

  lemma FetchNotReady(m: Machine, e: Event, o: Owner)
    requires Enabled(m, e) && e.Fetch? && !m.q.Ready(o)
    ensures !Next(m, e).q.Ready(o)
  {
    var owner := m.At(e.th).o;
    if m.q.Fetch(owner).Success? { FewerReady(m.q, FirstOf(m.q.pending, OfDevice(m.q.DeviceOf(owner))), o); }
  }

  lemma ReleaseNotReady(m: Machine, e: Event, o: Owner)
    requires BindingShape(m) && Enabled(m, e) && (e.Release? || e.StopUnbind?) && !m.q.Ready(o)
    ensures !Next(m, e).q.Ready(o)
  {
    hide FirstOf;
    if e.Release? {
      UnboundReady(m.q, OwnerAt(m.q.bindings, e.o), o);
    } else if m.q.bindings != [] {
      UnboundReady(m.q, 0, o);
    }
  }

  ghost predicate WakeOwed(m: Machine) { exists th :: 0 <= th < |m.threads| && m.threads[th].Wake? }

  /** Whoever sleeps although its condition holds is about to be woken. */
  ghost predicate WakeLaw(m: Machine) {
    forall th :: 0 <= th < |m.threads| && m.threads[th].Asleep? && m.q.Ready(m.threads[th].o) ==> WakeOwed(m)
  }

  lemma StepKeepsWakeLaw(m: Machine, e: Event)
    requires BindingShape(m) && WakeLaw(m) && Enabled(m, e)
    ensures WakeLaw(Next(m, e))
  {
    var n := Next(m, e);
    StepFrame(m, e);
    forall th | 0 <= th < |n.threads| && n.threads[th].Asleep? && n.q.Ready(n.threads[th].o) ensures WakeOwed(n) {
      var o := n.threads[th].o;
      if e.WakeUp? || e.Spawn? {
        RousedSleeps(m, e, th);
      } else if !m.q.Ready(o) {
        ReadyTurns(m, e, o);
        assert n.threads[e.th].Wake?;
      } else {
        if th == e.th { SleepsUnready(m, e); }
        StillOwed(m, e, th);
      }
    }
  }

  /** A wake-up leaves nobody asleep. */
  lemma RousedSleeps(m: Machine, e: Event, th: nat)
    requires WakeLaw(m) && Enabled(m, e) && (e.WakeUp? || e.Spawn?)
    requires th < |Next(m, e).threads| && Next(m, e).threads[th].Asleep? && Next(m, e).q.Ready(Next(m, e).threads[th].o)
    ensures WakeOwed(Next(m, e))
  {
    hide Queue.Ready;
    if e.Spawn? {
      assert m.threads[th].Asleep?;
      var t :| 0 <= t < |m.threads| && m.threads[t].Wake?;
      assert Next(m, e).threads[t].Wake?;
    }
  }

  /** A thread goes to sleep only on reading a false condition. */
  lemma SleepsUnready(m: Machine, e: Event)
    requires Enabled(m, e) && !e.WakeUp? && !e.Spawn? && Next(m, e).At(e.th).Asleep?
    ensures e.Check? && !m.q.Ready(Next(m, e).At(e.th).o)
  {
    StepLands(m, e);
    assert e.Check?;
    hide Queue.Ready;
  }

  lemma StillOwed(m: Machine, e: Event, th: nat)
    requires WakeLaw(m) && Enabled(m, e) && !e.WakeUp? && !e.Spawn? && MovesOnly(m, Next(m, e), e.th)
    requires th < |m.threads| && th != e.th && m.threads[th].Asleep? && m.q.Ready(m.threads[th].o)
    ensures WakeOwed(Next(m, e))
  {
    hide Next, Queue.Ready;
    var t :| 0 <= t < |m.threads| && m.threads[t].Wake?;
    assert t != e.th;
    assert Next(m, e).threads[t] == m.threads[t];
  }

  lemma {:induction false} RunKeepsWakeLaw(m: Machine, es: seq<Event>, n: Machine)
    requires Inv(m) && WakeLaw(m) && Run(m, es, n)
    ensures WakeLaw(n)
    decreases es
  {
    if es != [] {
      StepKeepsWakeLaw(m, es[0]);
      StepKeeps(m, es[0]);
      RunKeepsWakeLaw(Next(m, es[0]), es[1..], n);
    }
  }

  /** In every reachable state, if an owner sleeps in fetch while a request is pending for the device it
      is bound to, or the backend stops, some thread has unlocked and not yet called wake_up. */
  lemma NoLostWakeup(m: Machine, th: nat, o: Owner)
    requires Reachable(m) && th < |m.threads| && m.threads[th] == Asleep(o)
    requires m.q.stopping || exists b, r :: b in m.q.bindings && b.owner == o && r in m.q.pending && r.device == b.device
    ensures exists t :: 0 <= t < |m.threads| && m.threads[t].Wake?
  {
    var es :| Run(Boot(), es, m);
    Conservation.BootKeeps();
    RunKeepsWakeLaw(Boot(), es, m);
    ReachableInv(m);
    ReadyExact(m.q, o);
  }

  /** A step after which a fetch of this owner would not wait, although it would have before, leaves its own
      thread owing a wake-up. */
  lemma ReadyOwesWake(m: Machine, e: Event, o: Owner)
    requires Reachable(m) && Enabled(m, e)
    requires !(m.q.stopping || exists b, r :: b in m.q.bindings && b.owner == o && r in m.q.pending && r.device == b.device)
    requires var q := Next(m, e).q;
      q.stopping || exists b, r :: b in q.bindings && b.owner == o && r in q.pending && r.device == b.device
    ensures !e.WakeUp? && !e.Spawn? && Next(m, e).At(e.th).Wake?
  {
    hide Next, Enabled, Reachable, Queue.Ready;
    ReachableInv(m);
    StepKeeps(m, e);
    ReadyExact(m.q, o);
    ReadyExact(Next(m, e).q, o);
    ReadyTurns(m, e, o);
  }

  // ---- an owner whose binding is gone --------------------------------------

  predicate SleepsFor(pc: Pc, o: Owner) { (pc.Asleep? || pc.Waiting?) && pc.o == o }

  /** What ends a sleep: a signal, or reading a wait predicate that holds. */
  predicate EndsSleep(m: Machine, e: Event, th: nat, o: Owner) {
    e == Interrupt(th) || (e == Check(th) && m.q.Ready(o))
  }

  /** Exactly that ends it; no wake-up does, and no step of another thread. */
  lemma SleepsOnExactly(m: Machine, e: Event, th: nat, o: Owner)
    requires th < |m.threads| && SleepsFor(m.threads[th], o) && Enabled(m, e)
    ensures SleepsFor(Next(m, e).At(th), o) <==> !EndsSleep(m, e, th, o)
  {
    hide Next, Enabled, SleepsFor, Queue.Ready;
    if e.Spawn? || e.WakeUp? {
      SleepersRoused(m, e, th, o);
    } else if e.th == th {
      SleeperMoves(m, e, o);
    } else {
      StepFrame(m, e);
    }
  }

  /** A wake-up puts a sleeper before its wait predicate and no further. */
  lemma SleepersRoused(m: Machine, e: Event, th: nat, o: Owner)
    requires Enabled(m, e) && (e.Spawn? || e.WakeUp?) && th < |m.threads| && SleepsFor(m.threads[th], o)
    ensures SleepsFor(Next(m, e).At(th), o)
  {
    hide NextSubmit, NextDetach, NextSettle, NextServe, NextRefer;
  }

  /** What a sleeping thread can do itself. */
  lemma SleeperMoves(m: Machine, e: Event, o: Owner)
    requires Enabled(m, e) && !e.Spawn? && !e.WakeUp? && e.th < |m.threads| && SleepsFor(m.threads[e.th], o)
    ensures e == Check(e.th) || e == Interrupt(e.th)
    ensures SleepsFor(Next(m, e).At(e.th), o) <==> !EndsSleep(m, e, e.th, o)
  {
    hide Queue.Ready, NextSubmit, NextDetach, NextSettle, NextRefer;
  }

  /** The thread sleeps in every state of the run. */
  ghost predicate SleepsThrough(m: Machine, es: seq<Event>, th: nat, o: Owner)
    decreases es
  {
    SleepsFor(m.At(th), o) && (es != [] ==> Enabled(m, es[0]) && SleepsThrough(Next(m, es[0]), es[1..], th, o))
  }

  /** No step of the run ends its sleep. */
  ghost predicate Undisturbed(m: Machine, es: seq<Event>, th: nat, o: Owner)
    decreases es
  {
    es != [] ==> Enabled(m, es[0]) && !EndsSleep(m, es[0], th, o) && Undisturbed(Next(m, es[0]), es[1..], th, o)
  }

  /** A fetch sleeps through a run exactly if its thread is not interrupted and never reads a
      wait predicate that holds: neither a wake-up nor a new binding alone ends it. */
  lemma {:induction false} SleepExact(m: Machine, es: seq<Event>, n: Machine, th: nat, o: Owner)
    requires th < |m.threads| && SleepsFor(m.threads[th], o) && Run(m, es, n)
    ensures SleepsThrough(m, es, th, o) <==> Undisturbed(m, es, th, o)
    decreases es
  {
    if es != [] {
      SleepsOnExactly(m, es[0], th, o);
      StepFrame(m, es[0]);
      hide Next, Enabled, SleepsFor, EndsSleep;
      if SleepsFor(Next(m, es[0]).At(th), o) {
        SleepersStand(m, es[0], th);
        SleepExact(Next(m, es[0]), es[1..], n, th, o);
      }
    }
  }

  lemma SleepersStand(m: Machine, e: Event, th: nat)
    requires Enabled(m, e) && th < |m.threads|
    ensures th < |Next(m, e).threads|
  {
    StepFrame(m, e);
    if e.Spawn? || e.WakeUp? {
      hide NextSubmit, NextDetach, NextSettle, NextServe, NextRefer;
    } else {
      hide Next, Enabled;
    }
  }

  /** Reading the wait predicate does not end a fetch whose owner has lost its binding:
      the thread waits for the next wake-up. */
  lemma UnboundSleepsOn(m: Machine, th: nat, o: Owner, woken: bool)
    requires th < |m.threads| && m.threads[th] == Waiting(o, woken) && !m.q.stopping && !m.q.Owned(o)
    ensures !m.q.Ready(o)
    ensures Next(m, Check(th)) == m.Goto(th, if woken then Waiting(o, false) else Asleep(o))
  {
  }

  /** The owner has no binding, and nobody stops the backend, before any step of the run. */
  ghost predicate Unbound(m: Machine, es: seq<Event>, o: Owner)
    decreases es
  {
    es != [] ==>
      !m.q.stopping && !m.q.Owned(o) && Enabled(m, es[0]) && Unbound(Next(m, es[0]), es[1..], o)
  }

  /** Releasing an owner does not end its fetch: while it has no binding and nobody stops the
      backend, its thread stays on the wait queue through every run and every wake-up, unless
      it is interrupted. */
  lemma {:induction false} ReleasedOwnerSleeps(m: Machine, es: seq<Event>, n: Machine, th: nat, o: Owner)
    requires th < |m.threads| && SleepsFor(m.threads[th], o)
    requires Run(m, es, n) && Unbound(m, es, o) && Interrupt(th) !in es
    ensures SleepsThrough(m, es, th, o) && SleepsFor(n.At(th), o)
    decreases es
  {
    if es != [] {
      SleepsOnExactly(m, es[0], th, o);
      SleepersStand(m, es[0], th);
      if es[0] == Check(th) { UnboundSleepsOn(m, th, o, m.threads[th].woken); }
      hide Next, Enabled, Queue.Ready, Queue.Owned, SleepsFor;
      assert forall e :: e in es[1..] ==> e in es;
      ReleasedOwnerSleeps(Next(m, es[0]), es[1..], n, th, o);
    }
  }

  // ---- it happens: a run to a sleeping fetch whose owner has no binding -----------------

  function Listening(): Machine {
    Boot().(threads := [Wake(ThenCaller(0)), Idle, Idle], q := Queue([Binding(1, 0)], [], [], false), devs := [Dev(true, 3)])
  }

  function Sleeping(): Machine {
    Listening().(threads := Listening().threads[1 := Asleep(1)])
  }

  function Deserted(): Machine {
    Sleeping().(threads := Sleeping().threads[2 := Releasing(1, 0)], q := Queue([], [], [], false))
  }

  lemma Listens()
    ensures Reachable(Listening())
  {
    assert Run(Boot(), [], Boot());
    var m := Boot().(threads := [Idle, Idle, Idle]);
    ReachNext(Boot(), Spawn, Boot().(threads := [Idle]));
    ReachNext(Boot().(threads := [Idle]), Spawn, Boot().(threads := [Idle, Idle]));
    ReachNext(Boot().(threads := [Idle, Idle]), Spawn, m);
    Binds(m);
  }

  lemma Binds(m: Machine)
    requires m == Boot().(threads := [Idle, Idle, Idle]) && Reachable(m)
    ensures Reachable(Listening())
  {
    var m1 := m.(devs := [Dev(true, 2)], threads := m.threads[0 := Caller(0)]);
    ReachNext(m, Publish(0), m1);
    Locks(m1);
  }

  lemma Locks(m: Machine)
    requires m == Boot().(threads := [Caller(0), Idle, Idle], devs := [Dev(true, 2)]) && Reachable(m)
    ensures Reachable(Listening())
  {
    var m1 := m.(devs := [Dev(true, 3)], threads := m.threads[0 := Registering(1, 0)]);
    ReachNext(m, Register(0, 1), m1);
    assert [] + [Binding(1, 0)] == [Binding(1, 0)];
    ReachNext(m1, RegisterLock(0), Listening());
  }

  lemma FallsAsleep()
    requires Reachable(Listening())
    ensures Reachable(Sleeping())
  {
    var m := Listening();
    var m1 := m.(threads := m.threads[1 := Fetching(1)]);
    ReachNext(m, FetchStart(1, 1), m1);
    var m2 := m1.(threads := m1.threads[1 := Waiting(1, false)]);
    ReachNext(m1, Fetch(1, false), m2);
    ReadsFalse(m2);
  }

  lemma ReadsFalse(m: Machine)
    requires m == Listening().(threads := Listening().threads[1 := Waiting(1, false)]) && Reachable(m)
    ensures Reachable(Sleeping())
  {
    ReachNext(m, Check(1), Sleeping());
  }

  /** A reachable machine in which a fetch sleeps for an owner that has no binding. */
  lemma DesertedSleeper()
    ensures exists m, th: nat, o :: Reachable(m) && th < |m.threads| && m.threads[th] == Asleep(o) && !m.q.Owned(o) && !m.q.stopping
  {
    Listens();
    FallsAsleep();
    ReachNext(Sleeping(), Release(2, 1), Deserted());
    var m := Deserted();
    assert m.threads[1] == Asleep(1) && !m.q.Owned(1);
  }
}
