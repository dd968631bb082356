/** Each device's requests reach its backend in the order submit accepted them. */
module Delivery {
  import opened Wrappers
  import opened Sums
  import opened Queues
  import opened Machines
  import opened Frames
  import opened Ledger
  import opened Steps
  import opened Guarantees
  import Conservation

  /** The request a thread has fetched and not yet copied out or rolled back. */
  function Undecided(pc: Pc): Option<Request> {
    match pc
    case Copying(_, r) => Some(r)
    case Copied(_, r) => Some(r)
    case Undo(_, r) => Some(r)
    case _ => None
  }

  /** The request a thread may still deliver or put back: one it is copying out, or
      one whose copy failed and whose rollback would find it. */
  function Owed(q: Queue, pc: Pc): Option<Request> {
    if pc.Undo? && q.Rollback(pc.o, pc.r.id).Failure? then None else Undecided(pc)
  }

  /** The discipline: no request of a device is fetched while an earlier one of that
      device may still be delivered or put back. */
  ghost predicate Safe(m: Machine, e: Event)
    requires Enabled(m, e)
  {
    e.Fetch? && m.q.Fetch(m.At(e.th).o).Success? ==>
      forall th :: 0 <= th < |m.threads| && Owed(m.q, m.threads[th]).Some? ==>
        Owed(m.q, m.threads[th]).value.device != m.q.Fetch(m.At(e.th).o).value.0.device
  }

  ghost predicate DisciplinedRun(m: Machine, es: seq<Event>, n: Machine)
    decreases es
  {
    if es == [] then n == m
    else Enabled(m, es[0]) && Safe(m, es[0]) && DisciplinedRun(Next(m, es[0]), es[1..], n)
  }

  predicate Before(r: Request, s: Request) { r.device == s.device ==> r.serial < s.serial }

  ghost predicate Ordered(rs: seq<Request>) {
    forall i, j :: 0 <= i < j < |rs| ==> Before(rs[i], rs[j])
  }

  ghost predicate AllBefore(rs: seq<Request>, ss: seq<Request>) {
    forall i, j :: 0 <= i < |rs| && 0 <= j < |ss| ==> Before(rs[i], ss[j])
  }

  /** What is delivered comes before what is owed, and that before what is pending;
      of each device at most one request is owed. */
  ghost predicate Fifo(m: Machine) {
    && Ordered(m.q.pending)
    && Ordered(m.delivered)
    && AllBefore(m.delivered, m.q.pending)
    && (forall i :: 0 <= i < |m.delivered| ==> Genuine(m, m.delivered[i]))
    && (forall th :: 0 <= th < |m.threads| ==> OwedFits(m, Owed(m.q, m.threads[th])))
    && (forall a, b :: 0 <= a < |m.threads| && 0 <= b < |m.threads| && a != b ==> OwedApart(Owed(m.q, m.threads[a]), Owed(m.q, m.threads[b])))
  }

  ghost predicate OwedFits(m: Machine, r: Option<Request>) {
    r.Some? ==>
      && (forall i :: 0 <= i < |m.delivered| ==> Before(m.delivered[i], r.value))
      && (forall j :: 0 <= j < |m.q.pending| ==> Before(r.value, m.q.pending[j]))
  }

  predicate OwedApart(r: Option<Request>, s: Option<Request>) {
    r.Some? && s.Some? ==> r.value.device != s.value.device
  }

  // ---- fetched requests are nowhere else ---------------------------------

  /** A request is fetched by one thread at a time, and is not pending meanwhile. */
  ghost predicate Sole(m: Machine) {
    && (forall th, j :: 0 <= th < |m.threads| && 0 <= j < |m.q.pending| ==> NotId(Undecided(m.threads[th]), m.q.pending[j].id))
    && (forall a, b :: 0 <= a < b < |m.threads| && Undecided(m.threads[b]).Some? ==>
          NotId(Undecided(m.threads[a]), Undecided(m.threads[b]).value.id))
  }

  predicate NotId(r: Option<Request>, id: nat) { r.Some? ==> r.value.id != id }

  /** A transfer with a place on a list has no other. */
  lemma PlacedOnce(m: Machine, i: nat, id: nat)
    requires Laws(m) && i < |m.q.pending| && id == m.q.pending[i].id
    ensures Reqs(m.q.active, Place(id)) == 0 && Reqs(Without(m.q.pending, i), Place(id)) == 0
  {
    assert Law(m, Place(id)) && Law(m, Offer(id));
    ReqsWithout(m.q.pending, i, Place(id));
  }

  lemma NotAmong(rs: seq<Request>, id: nat, j: nat)
    requires Reqs(rs, Place(id)) == 0 && j < |rs|
    ensures rs[j].id != id
  {
    TotalAtLeast(rs, j, OfReq(Place(id)));
    assert ReqWeight(rs[j], Place(id)) == 0;
  }

  /** No request stands on the pending list twice, or on both lists. */
  lemma PendingOnce(m: Machine, i: nat)
    requires Laws(m) && i < |m.q.pending|
    ensures forall j :: 0 <= j < |m.q.pending| && j != i ==> m.q.pending[j].id != m.q.pending[i].id
    ensures forall j :: 0 <= j < |m.q.active| ==> m.q.active[j].id != m.q.pending[i].id
  {
    var id, rest := m.q.pending[i].id, Without(m.q.pending, i);
    PlacedOnce(m, i, id);
    hide Laws, Reqs;
    forall j | 0 <= j < |m.q.active| ensures m.q.active[j].id != id { NotAmong(m.q.active, id, j); }
    forall j | 0 <= j < |m.q.pending| && j != i ensures m.q.pending[j].id != id {
      var k := if j < i then j else j - 1;
      assert rest[k] == m.q.pending[j];
      NotAmong(rest, id, k);
    }
  }

  /** A transfer that is being offered has not been fetched. */
  lemma OfferedIsNotFetched(m: Machine, th: nat, t: nat)
    requires Laws(m) && ThreadShape(m) && th < |m.threads| && t < |m.threads| && m.threads[th].Linking?
    ensures NotId(Undecided(m.threads[t]), m.threads[th].id)
  {
    assert PcGenuine(m, m.threads[t]);
    if Undecided(m.threads[t]).Some? && Undecided(m.threads[t]).value.id == m.threads[th].id {
      var r := Undecided(m.threads[t]).value;
      assert Law(m, Offer(r.id));
      TotalAtLeast(m.threads, th, OfPc(Offer(r.id)));
      Counted(m.accepted, r.serial);
    }
  }

  /** What a detaching step leaves on the lists was there before. */
  lemma DetachTakes(m: Machine, e: Event)
    requires Enabled(m, e) && Detaching(e)
    ensures forall j :: 0 <= j < |Next(m, e).q.pending| ==> Next(m, e).q.pending[j] in m.q.pending
    ensures forall j :: 0 <= j < |Next(m, e).q.active| ==> Next(m, e).q.active[j] in m.q.active
  {
    var s := Target(m, e);
    hide Next, Enabled, Target, Verdict;
    DetachIs(m, e);
    if s != Nowhere {
      DetachLeaves(m.q, s);
      hide Queue.Detach;
    }
  }

  lemma DetachLeaves(q: Queue, s: Slot)
    requires q.HasSlot(s)
    ensures forall j :: 0 <= j < |q.Detach(s).pending| ==> q.Detach(s).pending[j] in q.pending
    ensures forall j :: 0 <= j < |q.Detach(s).active| ==> q.Detach(s).active[j] in q.active
  {
  }

  /** Where pending requests come from. */
  lemma PendingOrigin(m: Machine, e: Event)
    requires Enabled(m, e) && Frame(m, e, Next(m, e)) && !e.Lock? && !e.Rollback?
    ensures forall j :: 0 <= j < |Next(m, e).q.pending| ==> Next(m, e).q.pending[j] in m.q.pending
  {
    if Detaching(e) {
      DetachTakes(m, e);
    } else if e.Fetch? {
      hide OwnerAt, DeviceAt, Frame;
    } else {
      hide Next, Enabled;
    }
  }

  lemma SoleStep(m: Machine, e: Event)
    requires Inv(m) && Sole(m) && Enabled(m, e)
    ensures Sole(Next(m, e))
  {
    StepFrame(m, e);
    if e.Spawn? || e.WakeUp? {
      RousedSole(m, e);
    } else if e.Lock? {
      LockSole(m, e);
    } else if e.Fetch? && m.q.Fetch(m.At(e.th).o).Success? {
      FetchSole(m, e);
    } else if e.Rollback? && m.q.Rollback(m.At(e.th).o, m.At(e.th).r.id).Success? {
      RollbackSole(m, e);
    } else {
      MovedUndecided(m, e);
      if e.Rollback? { FailedRollback(m, e); } else { PendingOrigin(m, e); }
      hide Next, Enabled;
      QuietSole(m, Next(m, e), e.th);
    }
  }

  lemma FailedRollback(m: Machine, e: Event)
    requires Enabled(m, e) && e.Rollback? && m.q.Rollback(m.At(e.th).o, m.At(e.th).r.id).Failure?
    ensures Next(m, e).q == m.q
  {
  }

  /** A thread that does not fetch keeps what it has fetched, or drops it. */
  lemma MovedUndecided(m: Machine, e: Event)
    requires Enabled(m, e) && !e.Spawn? && !e.WakeUp? && (e.Fetch? ==> m.q.Fetch(m.At(e.th).o).Failure?)
    ensures Undecided(Next(m, e).At(e.th)) == None || Undecided(Next(m, e).At(e.th)) == Undecided(m.At(e.th))
  {
    hide FirstOf, OwnerAt, DeviceAt;
    if !e.Fetch? && !e.PutTransfer? && !e.CopyOut? { NotUndecided(m, e); hide Next; }
  }

  lemma QuietSole(m: Machine, n: Machine, th: nat)
    requires Sole(m) && MovesOnly(m, n, th)
    requires Undecided(n.threads[th]) == None || Undecided(n.threads[th]) == Undecided(m.threads[th])
    requires forall j :: 0 <= j < |n.q.pending| ==> n.q.pending[j] in m.q.pending
    ensures Sole(n)
  {
  }

  lemma RousedSole(m: Machine, e: Event)
    requires Sole(m) && Enabled(m, e) && (e.Spawn? || e.WakeUp?)
    ensures Sole(Next(m, e))
  {
    RousedUndecided(m, e);
    assert Next(m, e).q == m.q;
    hide Next, Enabled, Undecided;
  }

  /** Waking threads up changes nothing that they have fetched. */
  lemma RousedUndecided(m: Machine, e: Event)
    requires Enabled(m, e) && (e.Spawn? || e.WakeUp?)
    ensures |Next(m, e).threads| >= |m.threads|
    ensures forall t :: 0 <= t < |m.threads| ==> Owed(m.q, Next(m, e).threads[t]) == Owed(m.q, m.threads[t])
    ensures forall t :: 0 <= t < |m.threads| ==> Undecided(Next(m, e).threads[t]) == Undecided(m.threads[t])
    ensures forall t :: |m.threads| <= t < |Next(m, e).threads| ==> Undecided(Next(m, e).threads[t]) == None
  {
  }

  lemma LockSole(m: Machine, e: Event)
    requires Inv(m) && Sole(m) && Enabled(m, e) && e.Lock? && MovesOnly(m, Next(m, e), e.th)
    ensures Sole(Next(m, e))
  {
    NotUndecided(m, e);
    forall t | 0 <= t < |m.threads| ensures NotId(Undecided(m.threads[t]), m.At(e.th).id) { OfferedIsNotFetched(m, e.th, t); }
    hide Inv, Undecided;
  }

  lemma FetchSole(m: Machine, e: Event)
    requires Inv(m) && Sole(m) && Enabled(m, e) && e.Fetch? && m.q.Fetch(m.At(e.th).o).Success?
    ensures Sole(Next(m, e))
  {
    var i := FirstOf(m.q.pending, OfDevice(m.q.DeviceOf(m.At(e.th).o)));
    PendingOnce(m, i);
    hide Inv;
    var n := Next(m, e);
    assert Undecided(n.threads[e.th]).value.id == m.q.pending[i].id;
    assert forall t :: 0 <= t < |m.threads| ==> NotId(Undecided(m.threads[t]), m.q.pending[i].id);
  }

  lemma RollbackSole(m: Machine, e: Event)
    requires Sole(m) && Enabled(m, e) && e.Rollback? && m.q.Rollback(m.At(e.th).o, m.At(e.th).r.id).Success?
    ensures Sole(Next(m, e))
  {
    hide FirstOf;
    var n := Next(m, e);
    assert n.q.pending[0].id == m.At(e.th).r.id by { RollbackFinds(m.q, m.At(e.th).o, m.At(e.th).r.id); }
    assert Undecided(m.threads[e.th]).value.id == m.At(e.th).r.id;
  }

  lemma RollbackFinds(q: Queue, o: Owner, id: nat)
    requires q.Rollback(o, id).Success?
    ensures q.Rollback(o, id).value.pending[1..] == q.pending && q.Rollback(o, id).value.pending[0].id == id
  {
  }

  // ---- what is owed only shrinks -------------------------------------------

  /** A rollback that would fail goes on failing while nothing new becomes active under its id. */
  lemma StillFails(q: Queue, p: Queue, o: Owner, id: nat)
    requires q.Rollback(o, id).Failure?
    requires forall i :: 0 <= i < |p.active| ==> p.active[i] in q.active || p.active[i].id != id
    ensures p.Rollback(o, id).Failure?
  {
  }

  predicate FetchSucceeds(m: Machine, e: Event)
    requires Enabled(m, e)
  {
    e.Fetch? && m.q.Fetch(m.At(e.th).o).Success?
  }

  /** Where active requests come from. */
  lemma ActiveOrigin(m: Machine, e: Event)
    requires Enabled(m, e) && Frame(m, e, Next(m, e)) && !FetchSucceeds(m, e)
    ensures forall j :: 0 <= j < |Next(m, e).q.active| ==> Next(m, e).q.active[j] in m.q.active
  {
    if Detaching(e) {
      DetachTakes(m, e);
      hide Next, Enabled, Frame;
    } else if e.Lock? || e.Rollback? || e.Fetch? {
      hide FirstOf, OwnerAt, DeviceAt, Frame;
    } else {
      hide Next, Enabled;
    }
  }

  /** What a thread that does not move owes, it owed before. */
  lemma OthersOwe(m: Machine, e: Event, t: nat)
    requires Sole(m) && Enabled(m, e) && Frame(m, e, Next(m, e)) && !e.Spawn? && !e.WakeUp?
    requires t < |m.threads| && t != e.th
    ensures var n := Next(m, e); Owed(n.q, n.threads[t]) == None || Owed(n.q, n.threads[t]) == Owed(m.q, m.threads[t])
  {
    var n, pc := Next(m, e), m.threads[t];
    assert n.threads[t] == pc;
    if pc.Undo? && m.q.Rollback(pc.o, pc.r.id).Failure? {
      if FetchSucceeds(m, e) { FetchedActive(m, e, t); } else { ActiveOrigin(m, e); }
      hide Next, Enabled, Frame, Queue.Rollback;
      StillFails(m.q, n.q, pc.o, pc.r.id);
    }
  }

  lemma FetchedActive(m: Machine, e: Event, t: nat)
    requires Sole(m) && Enabled(m, e) && FetchSucceeds(m, e)
    requires t < |m.threads| && Undecided(m.threads[t]).Some?
    ensures var rs := Next(m, e).q.active;
      forall j :: 0 <= j < |rs| ==> rs[j] in m.q.active || rs[j].id != Undecided(m.threads[t]).value.id
  {
    var i := FirstOf(m.q.pending, OfDevice(m.q.DeviceOf(m.At(e.th).o)));
    assert NotId(Undecided(m.threads[t]), m.q.pending[i].id);
    hide Sole, FirstOf, OwnerAt;
  }

  lemma MoverOwes(m: Machine, e: Event)
    requires Enabled(m, e) && !e.Spawn? && !e.WakeUp? && !FetchSucceeds(m, e)
    ensures var n := Next(m, e); Owed(n.q, n.At(e.th)) == None || Owed(n.q, n.At(e.th)) == Owed(m.q, m.At(e.th))
  {
    MovedUndecided(m, e);
    if e.Rollback? { NotUndecided(m, e); }
    hide FirstOf, OwnerAt, DeviceAt, Queue.Rollback;
  }

  /** A step other than a fetch gives no thread anything new to deliver or put back. */
  lemma OwedShrinks(m: Machine, e: Event)
    requires Sole(m) && Enabled(m, e) && Frame(m, e, Next(m, e)) && !e.Spawn? && !e.WakeUp? && !FetchSucceeds(m, e)
    ensures OwesLess(m, Next(m, e))
  {
    var n := Next(m, e);
    MoverOwes(m, e);
    forall t | 0 <= t < |m.threads| ensures Owed(n.q, n.threads[t]) == None || Owed(n.q, n.threads[t]) == Owed(m.q, m.threads[t]) {
      if t != e.th { OthersOwe(m, e, t); }
    }
  }

  ghost predicate OwesLess(m: Machine, n: Machine) {
    && |n.threads| == |m.threads|
    && (forall t :: 0 <= t < |m.threads| ==>
          Owed(n.q, n.threads[t]) == None || Owed(n.q, n.threads[t]) == Owed(m.q, m.threads[t]))
  }

  lemma NotUndecided(m: Machine, e: Event)
    requires Enabled(m, e) && !e.Spawn? && !e.WakeUp? && !e.Fetch? && !e.PutTransfer? && !e.CopyOut?
    ensures Undecided(Next(m, e).At(e.th)) == None
  {
    StepLands(m, e);
    hide Next, Enabled;
  }

  // ---- the order of each device's requests -----------------------------------

  lemma DeliveredKept(m: Machine, n: Machine)
    requires SameTransfers(m, n) && m.accepted <= n.accepted
    requires forall i :: 0 <= i < |m.delivered| ==> Genuine(m, m.delivered[i])
    ensures forall i :: 0 <= i < |m.delivered| ==> Genuine(n, m.delivered[i])
  {
    forall i | 0 <= i < |m.delivered| ensures Genuine(n, m.delivered[i]) { GenuineKept(m, n, m.delivered[i]); }
  }

  lemma ShrinkFifo(m: Machine, n: Machine)
    requires Fifo(m) && OwesLess(m, n) && SameTransfers(m, n) && m.accepted <= n.accepted
    requires n.delivered == m.delivered
    requires n.q.pending == m.q.pending || exists i :: 0 <= i < |m.q.pending| && n.q.pending == Without(m.q.pending, i)
    ensures Fifo(n)
  {
    DeliveredKept(m, n);
    hide Genuine, Owed, SameTransfers;
    forall t | 0 <= t < |n.threads| ensures OwedFits(n, Owed(n.q, n.threads[t])) {
      assert OwedFits(m, Owed(m.q, m.threads[t]));
    }
  }

  lemma DetachFifo(m: Machine, e: Event)
    requires Enabled(m, e) && Fifo(m) && OwesLess(m, Next(m, e)) && Detaching(e) && Frame(m, e, Next(m, e))
    ensures Fifo(Next(m, e))
  {
    hide Next, Enabled, Target, Verdict, Fifo, OwesLess;
    DetachIs(m, e);
    ShrinkFifo(m, Next(m, e));
  }

  lemma LockFifo(m: Machine, e: Event)
    requires Enabled(m, e) && Shape(m) && Fifo(m) && OwesLess(m, Next(m, e)) && e.Lock? && Frame(m, e, Next(m, e))
    ensures Fifo(Next(m, e))
  {
    if m.q.Submit(Offered(m, e.th), e.link).Success? {
      AcceptFifo(m, Next(m, e), Offered(m, e.th));
    } else {
      ShrinkFifo(m, Next(m, e));
    }
  }

  lemma AcceptFifo(m: Machine, n: Machine, r: Request)
    requires Shape(m) && Fifo(m) && OwesLess(m, n) && SameTransfers(m, n) && m.accepted <= n.accepted
    requires n.delivered == m.delivered && n.q.pending == m.q.pending + [r] && r.serial == |m.accepted|
    ensures Fifo(n)
  {
    DeliveredKept(m, n);
    forall t | 0 <= t < |n.threads| ensures OwedFits(n, Owed(n.q, n.threads[t])) {
      assert OwedFits(m, Owed(m.q, m.threads[t])) && PcGenuine(m, m.threads[t]);
    }
  }

  lemma FetchFifo(m: Machine, e: Event)
    requires Fifo(m) && Sole(m) && Enabled(m, e) && FetchSucceeds(m, e) && Safe(m, e) && Frame(m, e, Next(m, e))
    ensures Fifo(Next(m, e))
  {
    var n, d := Next(m, e), m.q.DeviceOf(m.At(e.th).o);
    forall t | 0 <= t < |m.threads| && t != e.th
      ensures Owed(n.q, n.threads[t]) == None || Owed(n.q, n.threads[t]) == Owed(m.q, m.threads[t])
    {
      OthersOwe(m, e, t);
    }
    TakeFifo(m, n, e.th, FirstOf(m.q.pending, OfDevice(d)), m.q.Fetch(m.At(e.th).o).value.0);
  }

  lemma TakeFifo(m: Machine, n: Machine, th: nat, i: nat, r: Request)
    requires Fifo(m) && MovesOnly(m, n, th) && SameTransfers(m, n) && m.accepted <= n.accepted
    requires n.delivered == m.delivered && i < |m.q.pending| && n.q.pending == Without(m.q.pending, i)
    requires r.device == m.q.pending[i].device && r.serial == m.q.pending[i].serial
    requires FirstOf(m.q.pending, OfDevice(r.device)) == i
    requires Owed(n.q, n.threads[th]) == Some(r)
    requires forall t :: 0 <= t < |m.threads| && t != th ==>
      Owed(n.q, n.threads[t]) == None || Owed(n.q, n.threads[t]) == Owed(m.q, m.threads[t])
    requires forall t :: 0 <= t < |m.threads| && Owed(m.q, m.threads[t]).Some? ==> Owed(m.q, m.threads[t]).value.device != r.device
    ensures Fifo(n)
  {
    DeliveredKept(m, n);
    hide Genuine, Owed, SameTransfers;
    forall j | 0 <= j < |n.q.pending| && n.q.pending[j].device == r.device ensures r.serial < n.q.pending[j].serial {
      assert j >= i;
      assert Before(m.q.pending[i], m.q.pending[j + 1]);
    }
    hide FirstOf;
    forall t | 0 <= t < |n.threads| ensures OwedFits(n, Owed(n.q, n.threads[t])) {
      assert OwedFits(m, Owed(m.q, m.threads[t]));
    }
  }

  lemma RollbackFifo(m: Machine, e: Event)
    requires Enabled(m, e) && Inv(m) && Fifo(m) && OwesLess(m, Next(m, e)) && e.Rollback? && Frame(m, e, Next(m, e))
    requires m.q.Rollback(m.At(e.th).o, m.At(e.th).r.id).Success?
    ensures Fifo(Next(m, e))
  {
    var n, r := Next(m, e), m.At(e.th).r;
    RolledBackIsSame(m, e.th, FirstOf(m.q.active, OfId(m.At(e.th).o, r.id)));
    NotUndecided(m, e);
    assert n.q.pending[1..] == m.q.pending;
    hide Inv, Fifo, OwesLess;
    PutBackFifo(m, n, e.th, r);
  }

  lemma PutBackFifo(m: Machine, n: Machine, th: nat, r: Request)
    requires Fifo(m) && OwesLess(m, n) && SameTransfers(m, n) && m.accepted <= n.accepted
    requires n.delivered == m.delivered && n.q.pending != [] && n.q.pending[1..] == m.q.pending
    requires n.q.pending[0].device == r.device && n.q.pending[0].serial == r.serial
    requires th < |m.threads| && Owed(m.q, m.threads[th]) == Some(r) && Owed(n.q, n.threads[th]) == None
    ensures Fifo(n)
  {
    DeliveredKept(m, n);
    hide Genuine, Owed, SameTransfers;
    assert OwedFits(m, Owed(m.q, m.threads[th]));
    assert n.q.pending == [n.q.pending[0]] + m.q.pending;
    forall j | 0 <= j < |m.q.pending| ensures Before(n.q.pending[0], m.q.pending[j]) { assert Before(r, m.q.pending[j]); }
    forall j | 0 <= j < |m.delivered| ensures Before(m.delivered[j], n.q.pending[0]) { assert Before(m.delivered[j], r); }
    forall t | 0 <= t < |n.threads| ensures OwedFits(n, Owed(n.q, n.threads[t])) {
      assert OwedFits(m, Owed(m.q, m.threads[t]));
      assert t != th ==> OwedApart(Owed(m.q, m.threads[t]), Owed(m.q, m.threads[th]));
    }
  }

  /** The active request a rollback finds is the one the thread fetched. */
  lemma RolledBackIsSame(m: Machine, th: nat, i: nat)
    requires Inv(m) && m.At(th).Undo? && i < |m.q.active| && m.q.active[i].id == m.At(th).r.id
    ensures m.q.active[i].serial == m.At(th).r.serial && m.q.active[i].device == m.At(th).r.device
  {
    hide Total;
    var r := m.At(th).r;
    assert PcGenuine(m, m.threads[th]) && Genuine(m, m.q.active[i]);
    assert Law(m, Offer(r.id));
    CountOnce(m.accepted, r.serial, m.q.active[i].serial);
  }

  lemma CopyOutFifo(m: Machine, e: Event)
    requires Enabled(m, e) && Shape(m) && Fifo(m) && OwesLess(m, Next(m, e)) && e.CopyOut? && Frame(m, e, Next(m, e))
    ensures Fifo(Next(m, e))
  {
    if e.ok {
      assert PcGenuine(m, m.threads[e.th]);
      DeliverFifo(m, Next(m, e), e.th, m.At(e.th).r);
    } else {
      ShrinkFifo(m, Next(m, e));
    }
  }

  lemma DeliverFifo(m: Machine, n: Machine, th: nat, r: Request)
    requires Fifo(m) && OwesLess(m, n) && SameTransfers(m, n) && m.accepted <= n.accepted
    requires n.q.pending == m.q.pending && n.delivered == m.delivered + [r] && Genuine(m, r)
    requires th < |m.threads| && Owed(m.q, m.threads[th]) == Some(r) && Owed(n.q, n.threads[th]) == None
    ensures Fifo(n)
  {
    DeliveredKept(m, n);
    GenuineKept(m, n, r);
    hide Genuine, Owed, SameTransfers;
    assert OwedFits(m, Owed(m.q, m.threads[th]));
    forall t | 0 <= t < |n.threads| ensures OwedFits(n, Owed(n.q, n.threads[t])) {
      assert OwedFits(m, Owed(m.q, m.threads[t]));
      assert t != th ==> OwedApart(Owed(m.q, m.threads[t]), Owed(m.q, m.threads[th]));
    }
  }

  lemma RousedFifo(m: Machine, e: Event)
    requires Fifo(m) && Enabled(m, e) && (e.Spawn? || e.WakeUp?)
    ensures Fifo(Next(m, e))
  {
    var n := Next(m, e);
    RousedUndecided(m, e);
    assert n.q == m.q && n.delivered == m.delivered && n.accepted == m.accepted && n.xfers == m.xfers;
    hide Next, Enabled, Undecided, Genuine, Queue.Rollback;
    forall t | 0 <= t < |n.threads| ensures OwedFits(n, Owed(n.q, n.threads[t])) {
      if t < |m.threads| { assert OwedFits(m, Owed(m.q, m.threads[t])); }
    }
  }

  lemma StepFifo(m: Machine, e: Event)
    requires Inv(m) && Sole(m) && Fifo(m) && Enabled(m, e) && Safe(m, e)
    ensures Fifo(Next(m, e))
  {
    StepFrame(m, e);
    if e.Spawn? || e.WakeUp? {
      RousedFifo(m, e);
    } else if FetchSucceeds(m, e) {
      FetchFifo(m, e);
    } else {
      OwedShrinks(m, e);
      if Detaching(e) {
        DetachFifo(m, e);
      } else if e.Lock? {
        LockFifo(m, e);
      } else if e.CopyOut? {
        CopyOutFifo(m, e);
      } else if e.Rollback? && m.q.Rollback(m.At(e.th).o, m.At(e.th).r.id).Success? {
        RollbackFifo(m, e);
      } else {
        QuietPending(m, e);
        hide Next, Enabled, Fifo, OwesLess;
        ShrinkFifo(m, Next(m, e));
      }
    }
  }

  lemma QuietPending(m: Machine, e: Event)
    requires Enabled(m, e) && Frame(m, e, Next(m, e)) && !Detaching(e) && !e.Lock? && !FetchSucceeds(m, e)
    requires e.Rollback? ==> m.q.Rollback(m.At(e.th).o, m.At(e.th).r.id).Failure?
    ensures Next(m, e).q.pending == m.q.pending
  {
    hide FirstOf, OwnerAt, DeviceAt;
    if !e.Fetch? && !e.Rollback? { hide Next, Enabled; }
  }

  /** What every disciplined run keeps. */
  ghost predicate InOrder(m: Machine) { Inv(m) && Sole(m) && Fifo(m) }

  lemma {:induction false} RunInOrder(m: Machine, es: seq<Event>, n: Machine)
    requires InOrder(m) && DisciplinedRun(m, es, n)
    ensures InOrder(n)
    decreases es
  {
    if es != [] {
      StepFifo(m, es[0]);
      SoleStep(m, es[0]);
      StepKeeps(m, es[0]);
      RunInOrder(Next(m, es[0]), es[1..], n);
    }
  }

  lemma BootInOrder()
    ensures InOrder(Boot())
  {
    Conservation.BootKeeps();
  }

  /** Per-device FIFO over whole runs: if callers keep the discipline, the
      serial numbers copied out for each device strictly increase, across
      cancellations, completions, rollbacks and new bindings, and each names
      the request accepted at that position. */
  lemma DeliveredInOrder(es: seq<Event>, m: Machine)
    requires DisciplinedRun(Boot(), es, m)
    ensures forall i, j :: 0 <= i < j < |m.delivered| && m.delivered[i].device == m.delivered[j].device ==>
      m.delivered[i].serial < m.delivered[j].serial
    ensures forall i :: 0 <= i < |m.delivered| ==>
      m.delivered[i].serial < |m.accepted| && m.accepted[m.delivered[i].serial] == m.delivered[i].id
  {
    BootInOrder();
    RunInOrder(Boot(), es, m);
    forall i, j | 0 <= i < j < |m.delivered| && m.delivered[i].device == m.delivered[j].device
      ensures m.delivered[i].serial < m.delivered[j].serial
    {
      assert Before(m.delivered[i], m.delivered[j]);
    }
  }
}
