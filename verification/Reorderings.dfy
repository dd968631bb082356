/** The exact condition under which a fetch keeps every device's order. */
module Reorderings {
  import opened Wrappers
  import opened Queues
  import opened Machines
  import opened Frames
  import opened Steps
  import opened Delivery

  // ---- runs, end to end ----------------------------------------------------

  lemma {:induction false} RunConcat(m: Machine, es: seq<Event>, n: Machine, fs: seq<Event>, p: Machine)
    requires DisciplinedRun(m, es, n) && DisciplinedRun(n, fs, p)
    ensures DisciplinedRun(m, es + fs, p)
    decreases es
  {
    if es == [] {
      assert es + fs == fs;
    } else {
      assert (es + fs)[1..] == es[1..] + fs;
      RunConcat(Next(m, es[0]), es[1..], n, fs, p);
    }
  }

  lemma RunThen(m: Machine, es: seq<Event>, n: Machine, e: Event)
    requires DisciplinedRun(m, es, n) && Enabled(n, e) && Safe(n, e)
    ensures DisciplinedRun(m, es + [e], Next(n, e))
  {
    assert [e][1..] == [];
    assert DisciplinedRun(Next(n, e), [], Next(n, e));
    assert DisciplinedRun(n, [e], Next(n, e));
    RunConcat(m, es, n, [e], Next(n, e));
  }

  // ---- a fetch that is not safe ----------------------------------------------

  /** The request a thread is about to deliver. */
  predicate Carries(pc: Pc, r: Request) { (pc.Copying? || pc.Copied?) && pc.r == r }

  /** A thread that carries a request delivers it, if its copy succeeds. */
  lemma CarryOut(m: Machine, th: nat, r: Request) returns (es: seq<Event>, n: Machine)
    requires th < |m.threads| && Carries(m.threads[th], r)
    ensures DisciplinedRun(m, es, n)
    ensures n.q == m.q && n.threads == m.threads[th := Idle] && n.delivered == m.delivered + [r]
  {
    es, n := [], m;
    if m.threads[th].Copying? {
      RunThen(m, es, n, PutTransfer(th));
      es, n := es + [PutTransfer(th)], Next(n, PutTransfer(th));
    }
    RunThen(m, es, n, CopyOut(th, true));
    es, n := es + [CopyOut(th, true)], Next(n, CopyOut(th, true));
  }

  /** A fetch and what it returns. */
  ghost predicate Fetches(m: Machine, e: Event, y: Request) {
    Enabled(m, e) && FetchSucceeds(m, e) && y == m.q.Fetch(m.At(e.th).o).value.0
  }

  lemma FetchTakes(m: Machine, e: Event, y: Request)
    requires Fetches(m, e, y)
    ensures e.th < |m.threads| && Undecided(m.threads[e.th]) == None
    ensures var n := Next(m, e);
      && n.q == m.q.Fetch(m.At(e.th).o).value.1 && n.delivered == m.delivered
      && n.threads == m.threads[e.th := Copying(m.At(e.th).o, y)]
  {
    hide FirstOf, OwnerAt;
  }

  /** What a thread owes is older than what is fetched for the same device. */
  lemma OwedIsOlder(m: Machine, e: Event, t: nat, r: Request, y: Request)
    requires Fifo(m) && Fetches(m, e, y)
    requires t < |m.threads| && Owed(m.q, m.threads[t]) == Some(r) && r.device == y.device
    ensures t != e.th && r.serial < y.serial
  {
    FetchTakes(m, e, y);
    assert OwedFits(m, Owed(m.q, m.threads[t]));
    var i := FirstOf(m.q.pending, OfDevice(m.q.DeviceOf(m.At(e.th).o)));
    assert Before(r, m.q.pending[i]);
  }

  lemma OutOfOrder(rs: seq<Request>, y: Request, r: Request)
    requires r.device == y.device && r.serial < y.serial
    ensures !Ordered(rs + [y] + [r])
  {
    var all := rs + [y] + [r];
    assert all[|rs|] == y && all[|rs| + 1] == r;
    assert !Before(all[|rs|], all[|rs| + 1]);
  }

  /** The older request is on its way: it arrives after the younger one. */
  lemma CarriedReorders(m: Machine, e: Event, t: nat, r: Request, y: Request) returns (es: seq<Event>, n: Machine)
    requires Fifo(m) && Fetches(m, e, y)
    requires t < |m.threads| && Owed(m.q, m.threads[t]) == Some(r) && r.device == y.device && Carries(m.threads[t], r)
    ensures DisciplinedRun(Next(m, e), es, n) && !Ordered(n.delivered)
  {
    FetchTakes(m, e, y);
    OwedIsOlder(m, e, t, r, y);
    hide Next, Enabled, Fifo, Ordered, DisciplinedRun;
    var es1, n1 := CarryOut(Next(m, e), e.th, y);
    var es2, n2 := CarryOut(n1, t, r);
    RunConcat(Next(m, e), es1, n1, es2, n2);
    OutOfOrder(m.delivered, y, r);
    es, n := es1 + es2, n2;
  }

  /** Rolling the older request back after the fetch. */
  lemma PutBackOlder(m: Machine, e: Event, t: nat, r: Request, y: Request) returns (n: Machine)
    requires InOrder(m) && Fetches(m, e, y) && t != e.th
    requires t < |m.threads| && Owed(m.q, m.threads[t]) == Some(r) && r.device == y.device && m.threads[t].Undo?
    ensures Enabled(Next(m, e), Rollback(t)) && n == Next(Next(m, e), Rollback(t))
    ensures n.threads == Next(m, e).threads[t := Wake(ThenReturn)] && n.delivered == m.delivered
    ensures n.q.bindings == m.q.bindings && n.q.pending != []
    ensures n.q.pending[0].device == r.device && n.q.pending[0].serial == r.serial
  {
    var p, i := m.threads[t].o, FirstOf(m.q.active, OfId(m.threads[t].o, r.id));
    FetchTakes(m, e, y);
    RolledBackIsSame(m, t, i);
    var n0 := Next(m, e);
    assert n0.q.active == m.q.active + [y] && n0.q.bindings == m.q.bindings;
    FirstOfIs(n0.q.active, OfId(p, r.id), i);
    hide InOrder, FirstOf;
    n := Next(n0, Rollback(t));
  }

  /** No thread but these two owes a request of the device. */
  ghost predicate NoneOwed(m: Machine, d: Device, a: nat, b: nat) {
    forall s :: 0 <= s < |m.threads| && s != a && s != b && Owed(m.q, m.threads[s]).Some? ==>
      Owed(m.q, m.threads[s]).value.device != d
  }

  lemma ClearStep(m: Machine, e: Event, d: Device, a: nat, b: nat)
    requires Sole(m) && NoneOwed(m, d, a, b) && Enabled(m, e) && !e.Spawn? && !e.WakeUp? && (e.th == a || e.th == b)
    ensures NoneOwed(Next(m, e), d, a, b)
  {
    var n := Next(m, e);
    StepFrame(m, e);
    forall s | 0 <= s < |m.threads| && s != a && s != b
      ensures Owed(n.q, n.threads[s]) == None || Owed(n.q, n.threads[s]) == Owed(m.q, m.threads[s])
    {
      OthersOwe(m, e, s);
    }
    hide Next, Enabled, Sole;
  }

  lemma PutBackClear(m: Machine, e: Event, t: nat, r: Request, y: Request)
    requires InOrder(m) && Fetches(m, e, y) && t != e.th
    requires t < |m.threads| && Owed(m.q, m.threads[t]) == Some(r) && r.device == y.device
    requires Enabled(Next(m, e), Rollback(t))
    ensures NoneOwed(Next(Next(m, e), Rollback(t)), r.device, e.th, t)
  {
    assert NoneOwed(m, r.device, e.th, t) by {
      forall s | 0 <= s < |m.threads| && s != t && Owed(m.q, m.threads[s]).Some? ensures Owed(m.q, m.threads[s]).value.device != r.device {
        assert OwedApart(Owed(m.q, m.threads[s]), Owed(m.q, m.threads[t]));
      }
    }
    SoleStep(m, e);
    hide Fifo, Next, Enabled;
    ClearStep(m, e, r.device, e.th, t);
    ClearStep(Next(m, e), Rollback(t), r.device, e.th, t);
  }

  /** An idle thread whose owner's device no thread owes anything may fetch and deliver
      the first of its pending requests. */
  lemma FetchFirst(m: Machine, a: nat, o: Owner) returns (es: seq<Event>, n: Machine)
    requires a < |m.threads| && m.threads[a] == Idle && m.q.Owned(o)
    requires m.q.pending != [] && m.q.pending[0].device == m.q.DeviceOf(o) && NoneOwed(m, m.q.DeviceOf(o), a, a)
    ensures DisciplinedRun(m, es, n) && n.delivered == m.delivered + [m.q.pending[0].(owner := Some(o))]
  {
    var y := m.q.pending[0].(owner := Some(o));
    var start, fetch := FetchStart(a, o), Fetch(a, false);
    var n1 := Next(m, start);
    assert n1.q == m.q && n1.threads == m.threads[a := Fetching(o)] && n1.delivered == m.delivered;
    FirstOfIs(n1.q.pending, OfDevice(m.q.DeviceOf(o)), 0);
    assert Fetches(n1, fetch, y);
    assert Safe(n1, fetch);
    FetchTakes(n1, fetch, y);
    assert DisciplinedRun(m, [], m);
    hide Next, NoneOwed, Queue.Fetch, FetchSucceeds, DisciplinedRun;
    assert Safe(m, start);
    RunThen(m, [], m, start);
    RunThen(m, [] + [start], n1, fetch);
    var es2, n2 := CarryOut(Next(n1, fetch), a, y);
    RunConcat(m, [] + [start] + [fetch], Next(n1, fetch), es2, n2);
    es, n := [] + [start] + [fetch] + es2, n2;
  }

  /** The older request comes back in front of the list, and the thread that
      delivered the younger one fetches it next. */
  lemma UndoneReorders(m: Machine, e: Event, t: nat, r: Request, y: Request) returns (es: seq<Event>, n: Machine)
    requires InOrder(m) && Fetches(m, e, y)
    requires t < |m.threads| && Owed(m.q, m.threads[t]) == Some(r) && r.device == y.device && m.threads[t].Undo?
    ensures DisciplinedRun(Next(m, e), es, n) && !Ordered(n.delivered)
  {
    var a, o, undo := e.th, m.At(e.th).o, Rollback(t);
    OwedIsOlder(m, e, t, r, y);
    FetchTakes(m, e, y);
    assert m.q.Owned(o) && m.q.DeviceOf(o) == y.device by { hide Next, InOrder; }
    var n1 := PutBackOlder(m, e, t, r, y);
    PutBackClear(m, e, t, r, y);
    var n0 := Next(m, e);
    assert DisciplinedRun(n0, [], n0);
    hide Next, Enabled, InOrder, Ordered, DisciplinedRun, Queue.Fetch, FetchSucceeds, NoneOwed;
    RunThen(n0, [], n0, undo);
    var es2, n2 := CarryOut(n1, a, y);
    DeliveredClear(n1, n2, y.device, a, t);
    var es3, n3 := FetchFirst(n2, a, o);
    RunConcat(n0, [] + [undo], n1, es2, n2);
    RunConcat(n0, [] + [undo] + es2, n2, es3, n3);
    OutOfOrder(m.delivered, y, n2.q.pending[0].(owner := Some(o)));
    es, n := [] + [undo] + es2 + es3, n3;
  }

  lemma DeliveredClear(m: Machine, n: Machine, d: Device, a: nat, t: nat)
    requires NoneOwed(m, d, a, t) && a < |m.threads| && t < |m.threads| && a != t
    requires n.q == m.q && n.threads == m.threads[a := Idle] && m.threads[t] == Wake(ThenReturn)
    ensures NoneOwed(n, d, a, a)
  {
  }

  /** A fetch while a request of its device is owed leads to a delivery out of order,
      though every later step keeps the discipline. */
  lemma UndecidedReorders(m: Machine, e: Event) returns (es: seq<Event>, n: Machine)
    requires InOrder(m) && Enabled(m, e) && !Safe(m, e)
    ensures DisciplinedRun(Next(m, e), es, n) && !Ordered(n.delivered)
  {
    var y := m.q.Fetch(m.At(e.th).o).value.0;
    var t :| 0 <= t < |m.threads| && Owed(m.q, m.threads[t]).Some? && Owed(m.q, m.threads[t]).value.device == y.device;
    var r := Owed(m.q, m.threads[t]).value;
    hide Next, Enabled, InOrder, DisciplinedRun, Queue.Fetch, Queue.Rollback;
    if m.threads[t].Undo? {
      es, n := UndoneReorders(m, e, t, r, y);
    } else {
      es, n := CarriedReorders(m, e, t, r, y);
    }
  }

  /** The discipline is exact. In every machine that a disciplined run reaches, a step
      is safe if and only if all disciplined runs that continue from it deliver every
      device's requests in order. */
  lemma SafeIsExact(es0: seq<Event>, m: Machine, e: Event)
    requires DisciplinedRun(Boot(), es0, m) && Enabled(m, e)
    ensures Safe(m, e) <==> forall es, n :: DisciplinedRun(Next(m, e), es, n) ==> Ordered(n.delivered)
  {
    BootInOrder();
    RunInOrder(Boot(), es0, m);
    if Safe(m, e) {
      StepFifo(m, e);
      SoleStep(m, e);
      StepKeeps(m, e);
      forall es, n | DisciplinedRun(Next(m, e), es, n) ensures Ordered(n.delivered) {
        RunInOrder(Next(m, e), es, n);
      }
    } else {
      var es, n := UndecidedReorders(m, e);
    }
  }
}
