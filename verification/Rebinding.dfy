/** Per device and not per owner: a run in which each owner minds its own requests,
    and whose deliveries are out of order. */
module Rebinding {
  import opened Wrappers
  import opened Queues
  import opened Transfers
  import opened Machines
  import opened Delivery

  /** The weaker discipline: no owner fetches while it has itself a request that it has
      neither delivered nor rolled back. */
  ghost predicate OwnerSafe(m: Machine, e: Event)
    requires Enabled(m, e)
  {
    FetchSucceeds(m, e) ==>
      forall th :: 0 <= th < |m.threads| && Undecided(m.threads[th]).Some? ==>
        Undecided(m.threads[th]).value.owner != Some(m.At(e.th).o)
  }

  ghost predicate OwnerRun(m: Machine, es: seq<Event>, n: Machine)
    decreases es
  {
    if es == [] then n == m
    else Enabled(m, es[0]) && OwnerSafe(m, es[0]) && OwnerRun(Next(m, es[0]), es[1..], n)
  }

  ghost predicate OwnerReachable(m: Machine) { exists es :: OwnerRun(Boot(), es, m) }

  lemma {:induction false} OwnerRunThen(m: Machine, es: seq<Event>, n: Machine, e: Event)
    requires OwnerRun(m, es, n) && Enabled(n, e) && OwnerSafe(n, e)
    ensures OwnerRun(m, es + [e], Next(n, e))
    decreases es
  {
    if es == [] {
      assert es + [e] == [e] && [e][1..] == [];
    } else {
      assert (es + [e])[1..] == es[1..] + [e];
      OwnerRunThen(Next(m, es[0]), es[1..], n, e);
    }
  }

  lemma OwnerStep(m: Machine, e: Event, n: Machine)
    requires OwnerReachable(m) && Enabled(m, e) && OwnerSafe(m, e) && n == Next(m, e)
    ensures OwnerReachable(n)
  {
    var es :| OwnerRun(Boot(), es, m);
    OwnerRunThen(Boot(), es, m, e);
  }

  /** A caller of a device binds it where nothing is bound. */
  lemma OwnerBinds(m: Machine, th: nat, o: Owner, d: Device)
    requires OwnerReachable(m) && th < |m.threads| && m.threads[th] == Caller(d) && d < |m.devs|
    requires m.q.bindings == [] && !m.q.stopping
    ensures OwnerReachable(m.(q := m.q.(bindings := [Binding(o, d)]),
                              devs := m.devs[d := m.devs[d].(refs := m.devs[d].refs + 1)],
                              threads := m.threads[th := Wake(ThenCaller(d))]))
  {
    var m1 := m.(devs := m.devs[d := m.devs[d].(refs := m.devs[d].refs + 1)], threads := m.threads[th := Registering(o, d)]);
    OwnerStep(m, Register(th, o), m1);
    assert m.q.bindings + [Binding(o, d)] == [Binding(o, d)];
    assert m.q.Register(o, d) == Success(m.q.(bindings := [Binding(o, d)]));
    hide Queue.Register;
    OwnerStep(m1, RegisterLock(th), m1.(q := m.q.(bindings := [Binding(o, d)]), threads := m1.threads[th := Wake(ThenCaller(d))]));
    assert m1.threads[th := Wake(ThenCaller(d))] == m.threads[th := Wake(ThenCaller(d))];
  }

  /** An idle thread submits a request of no bytes. */
  lemma OwnerSubmits(m: Machine, th: nat, u: Urb, d: Device)
    requires OwnerReachable(m) && th < |m.threads| && m.threads[th] == Idle && d < |m.devs| && m.devs[d].registered
    requires !m.InFlight(u) && m.q.Bound(d) && !m.q.stopping
    ensures var id := |m.xfers| + 1;
      OwnerReachable(m.(
        q := m.q.(pending := m.q.pending + [Request(u, id, d, None, |m.accepted|)]),
        linked := m.linked + {u}, accepted := m.accepted + [id], xfers := m.xfers + [Xfer(u, d, 0, Queued, 2)],
        devs := m.devs[d := Dev(true, m.devs[d].refs + 1)], threads := m.threads[th := Wake(ThenPutTransfer(id))]))
  {
    var id := |m.xfers| + 1;
    var m1 := m.(devs := m.devs[d := Dev(true, m.devs[d].refs + 1)], xfers := m.xfers + [Xfer(u, d, 0, New, 1)],
                 threads := m.threads[th := Created(u, id)]);
    OwnerStep(m, Enqueue(th, u, d, 0), m1);
    OwnerQueues(m1, th, u, d, m.xfers);
    assert m1.threads[th := Wake(ThenPutTransfer(id))] == m.threads[th := Wake(ThenPutTransfer(id))];
  }

  lemma OwnerQueues(m: Machine, th: nat, u: Urb, d: Device, xs: seq<Xfer>)
    requires OwnerReachable(m) && th < |m.threads| && m.threads[th] == Created(u, |xs| + 1)
    requires m.xfers == xs + [Xfer(u, d, 0, New, 1)] && m.q.Bound(d) && !m.q.stopping
    ensures
      OwnerReachable(m.(
        q := m.q.(pending := m.q.pending + [Request(u, |xs| + 1, d, None, |m.accepted|)]),
        linked := m.linked + {u}, accepted := m.accepted + [|xs| + 1], xfers := xs + [Xfer(u, d, 0, Queued, 2)],
        threads := m.threads[th := Wake(ThenPutTransfer(|xs| + 1))]))
  {
    hide DeviceAt;
    var id := |xs| + 1;
    var m2 := m.(xfers := xs + [Xfer(u, d, 0, Queued, 2)], threads := m.threads[th := Linking(u, id)]);
    OwnerStep(m, Prepare(th), m2);
    OwnerStep(m2, Lock(th, None), m2.(
      q := m.q.(pending := m.q.pending + [Request(u, id, d, None, |m.accepted|)]), linked := m.linked + {u},
      accepted := m.accepted + [id], threads := m2.threads[th := Wake(ThenPutTransfer(id))]));
    assert m2.threads[th := Wake(ThenPutTransfer(id))] == m.threads[th := Wake(ThenPutTransfer(id))];
  }

  /** An idle thread fetches for the one bound owner, which has nothing undecided. */
  lemma OwnerFetches(m: Machine, th: nat, o: Owner, d: Device)
    requires OwnerReachable(m) && th < |m.threads| && m.threads[th] == Idle && m.q.bindings == [Binding(o, d)]
    requires m.q.pending != [] && m.q.pending[0].device == d && m.Known(m.q.pending[0].id)
    requires forall t :: 0 <= t < |m.threads| && Undecided(m.threads[t]).Some? ==> Undecided(m.threads[t]).value.owner != Some(o)
    ensures var r := m.q.pending[0].(owner := Some(o));
      OwnerReachable(m.(q := m.q.(pending := m.q.pending[1..], active := m.q.active + [r]),
                        xfers := m.xfers[r.id - 1 := m.X(r.id).(refs := m.X(r.id).refs + 1)],
                        threads := m.threads[th := Copying(o, r)]))
  {
    var r := m.q.pending[0].(owner := Some(o));
    var q := m.q.(pending := m.q.pending[1..], active := m.q.active + [r]);
    FirstOfIs(m.q.pending, OfDevice(d), 0);
    assert m.q.Fetch(o) == Success((r, q)) by { assert Without(m.q.pending, 0) == m.q.pending[1..]; }
    hide Queue.Fetch;
    var m1 := m.(threads := m.threads[th := Fetching(o)]);
    OwnerStep(m, FetchStart(th, o), m1);
    assert m1.threads[th := Copying(o, r)] == m.threads[th := Copying(o, r)];
    OwnerStep(m1, Fetch(th, false), m1.(q := q, xfers := m.xfers[r.id - 1 := m.X(r.id).(refs := m.X(r.id).refs + 1)],
                                        threads := m1.threads[th := Copying(o, r)]));
  }

  // The run: owner 1 fetches the older of two requests and fails to copy it out, another
  // of its threads unregisters it, and it rolls back only after owner 2 has bound the device
  // and delivered the younger one. Threads: 0 binds, 1 and 2 submit, 3 serves owner 1,
  // 4 unregisters it, 5 serves owner 2.

  function Older(owner: Option<Owner>): Request { Request(0, 1, 0, owner, 0) }

  function Younger(owner: Option<Owner>): Request { Request(1, 2, 0, owner, 1) }

  function Started(): Machine {
    Boot().(threads := [Idle, Idle, Idle, Idle, Idle, Idle])
  }

  function OneBound(): Machine {
    Started().(q := Queue([Binding(1, 0)], [], [], false), devs := [Dev(true, 3)],
               threads := Started().threads[0 := Wake(ThenCaller(0))])
  }

  function OneServed(): Machine {
    OneBound().(threads := [Caller(0), Idle, Idle, Idle, Idle, Idle])
  }

  function OneQueued(): Machine {
    OneServed().(q := Queue([Binding(1, 0)], [Older(None)], [], false), linked := {0}, accepted := [1],
                 xfers := [Xfer(0, 0, 0, Queued, 2)], devs := [Dev(true, 4)],
                 threads := OneServed().threads[1 := Wake(ThenPutTransfer(1))])
  }

  function BothQueued(): Machine {
    OneQueued().(q := Queue([Binding(1, 0)], [Older(None), Younger(None)], [], false), linked := {0, 1}, accepted := [1, 2],
                 xfers := [Xfer(0, 0, 0, Queued, 2), Xfer(1, 0, 0, Queued, 2)], devs := [Dev(true, 5)],
                 threads := OneQueued().threads[2 := Wake(ThenPutTransfer(2))])
  }

  function OlderFetched(): Machine {
    BothQueued().(q := Queue([Binding(1, 0)], [Younger(None)], [Older(Some(1))], false),
                  xfers := [Xfer(0, 0, 0, Queued, 3), Xfer(1, 0, 0, Queued, 2)],
                  threads := BothQueued().threads[3 := Copying(1, Older(Some(1)))])
  }

  function OlderFailed(): Machine {
    OlderFetched().(xfers := BothQueued().xfers, threads := OlderFetched().threads[3 := Undo(1, Older(Some(1)))])
  }

  function TwoBound(): Machine {
    OlderFailed().(q := Queue([Binding(2, 0)], [Younger(None)], [Older(Some(1))], false), devs := [Dev(true, 6)],
                   threads := OlderFailed().threads[4 := Releasing(1, 0)][0 := Wake(ThenCaller(0))])
  }

  function YoungerFetched(): Machine {
    TwoBound().(q := Queue([Binding(2, 0)], [], [Older(Some(1)), Younger(Some(2))], false),
                xfers := [Xfer(0, 0, 0, Queued, 2), Xfer(1, 0, 0, Queued, 3)],
                threads := TwoBound().threads[5 := Copying(2, Younger(Some(2)))])
  }

  function YoungerDelivered(): Machine {
    YoungerFetched().(xfers := BothQueued().xfers, threads := TwoBound().threads[5 := Idle], delivered := [Younger(Some(2))])
  }

  function OlderBack(): Machine {
    YoungerDelivered().(q := Queue([Binding(2, 0)], [Older(None)], [Younger(Some(2))], false),
                        threads := YoungerDelivered().threads[3 := Wake(ThenReturn)])
  }

  function OlderAgain(): Machine {
    OlderBack().(q := Queue([Binding(2, 0)], [], [Younger(Some(2)), Older(Some(2))], false),
                 xfers := [Xfer(0, 0, 0, Queued, 3), Xfer(1, 0, 0, Queued, 2)],
                 threads := OlderBack().threads[5 := Copying(2, Older(Some(2)))])
  }

  function BothDelivered(): Machine {
    OlderAgain().(xfers := BothQueued().xfers, threads := OlderBack().threads[5 := Idle],
                  delivered := [Younger(Some(2)), Older(Some(2))])
  }

  lemma Start()
    ensures OwnerReachable(Started())
  {
    assert OwnerRun(Boot(), [], Boot());
    OwnerStep(Boot(), Spawn, Boot().(threads := [Idle]));
    OwnerStep(Boot().(threads := [Idle]), Spawn, Boot().(threads := [Idle, Idle]));
    OwnerStep(Boot().(threads := [Idle, Idle]), Spawn, Boot().(threads := [Idle, Idle, Idle]));
    OwnerStep(Boot().(threads := [Idle, Idle, Idle]), Spawn, Boot().(threads := [Idle, Idle, Idle, Idle]));
    OwnerStep(Boot().(threads := [Idle, Idle, Idle, Idle]), Spawn, Boot().(threads := [Idle, Idle, Idle, Idle, Idle]));
    OwnerStep(Boot().(threads := [Idle, Idle, Idle, Idle, Idle]), Spawn, Started());
  }

  lemma BindOne()
    requires OwnerReachable(Started())
    ensures OwnerReachable(OneBound())
  {
    var m, n := Started(), OneBound();
    var m1 := m.(devs := [Dev(true, 2)], threads := m.threads[0 := Caller(0)]);
    OwnerStep(m, Publish(0), m1);
    assert m1.threads[0 := Wake(ThenCaller(0))] == n.threads && m1.devs[0 := Dev(true, 3)] == n.devs;
    OwnerBinds(m1, 0, 1, 0);
  }

  lemma WakeOne()
    requires OwnerReachable(OneBound())
    ensures OwnerReachable(OneServed())
  {
    assert WakeAll(OneBound().threads)[0 := Caller(0)] == OneServed().threads;
    OwnerStep(OneBound(), WakeUp(0), OneServed());
  }

  lemma SubmitOlder()
    requires OwnerReachable(OneServed())
    ensures OwnerReachable(OneQueued())
  {
    var m, n := OneServed(), OneQueued();
    assert m.q.pending + [Older(None)] == n.q.pending && m.xfers + [Xfer(0, 0, 0, Queued, 2)] == n.xfers;
    assert m.accepted + [1] == n.accepted && m.linked + {0} == n.linked && m.devs[0 := Dev(true, 4)] == n.devs;
    OwnerSubmits(m, 1, 0, 0);
  }

  lemma SubmitYounger()
    requires OwnerReachable(OneQueued())
    ensures OwnerReachable(BothQueued())
  {
    var m, n := OneQueued(), BothQueued();
    assert m.q.pending + [Younger(None)] == n.q.pending && m.xfers + [Xfer(1, 0, 0, Queued, 2)] == n.xfers;
    assert m.accepted + [2] == n.accepted && m.linked + {1} == n.linked && m.devs[0 := Dev(true, 5)] == n.devs;
    OwnerSubmits(m, 2, 1, 0);
  }

  lemma FetchOlder()
    requires OwnerReachable(BothQueued())
    ensures OwnerReachable(OlderFetched())
  {
    var m, n := BothQueued(), OlderFetched();
    assert m.q.pending[1..] == n.q.pending && m.q.active + [Older(Some(1))] == n.q.active;
    assert m.xfers[0 := Xfer(0, 0, 0, Queued, 3)] == n.xfers;
    OwnerFetches(m, 3, 1, 0);
  }

  lemma FailOlder()
    requires OwnerReachable(OlderFetched())
    ensures OwnerReachable(OlderFailed())
  {
    var m := OlderFetched();
    var m1 := m.(xfers := BothQueued().xfers, threads := m.threads[3 := Copied(1, Older(Some(1)))]);
    OwnerStep(m, PutTransfer(3), m1);
    OwnerStep(m1, CopyOut(3, false), OlderFailed());
  }

  lemma Rebind()
    requires OwnerReachable(OlderFailed())
    ensures OwnerReachable(TwoBound())
  {
    var m, n := OlderFailed(), TwoBound();
    var m1 := m.(q := m.q.(bindings := []), threads := m.threads[4 := Releasing(1, 0)]);
    OwnerStep(m, Release(4, 1), m1);
    assert m1.devs[0 := Dev(true, 6)] == n.devs;
    OwnerBinds(m1, 0, 2, 0);
  }

  lemma FetchYounger()
    requires OwnerReachable(TwoBound())
    ensures OwnerReachable(YoungerFetched())
  {
    var m, n := TwoBound(), YoungerFetched();
    assert m.q.pending[1..] == n.q.pending && m.q.active + [Younger(Some(2))] == n.q.active;
    assert m.xfers[1 := Xfer(1, 0, 0, Queued, 3)] == n.xfers;
    OwnerFetches(m, 5, 2, 0);
  }

  lemma DeliverYounger()
    requires OwnerReachable(YoungerFetched())
    ensures OwnerReachable(YoungerDelivered())
  {
    var m := YoungerFetched();
    var m1 := m.(xfers := BothQueued().xfers, threads := m.threads[5 := Copied(2, Younger(Some(2)))]);
    OwnerStep(m, PutTransfer(5), m1);
    OwnerStep(m1, CopyOut(5, true), YoungerDelivered());
  }

  lemma UndoOlder()
    requires OwnerReachable(YoungerDelivered())
    ensures OwnerReachable(OlderBack())
  {
    OwnerStep(YoungerDelivered(), Rollback(3), OlderBack());
  }

  lemma FetchOlderAgain()
    requires OwnerReachable(OlderBack())
    ensures OwnerReachable(OlderAgain())
  {
    var m, n := OlderBack(), OlderAgain();
    assert m.q.pending[1..] == n.q.pending && m.q.active + [Older(Some(2))] == n.q.active;
    assert m.xfers[0 := Xfer(0, 0, 0, Queued, 3)] == n.xfers;
    OwnerFetches(m, 5, 2, 0);
  }

  lemma DeliverOlder()
    requires OwnerReachable(OlderAgain())
    ensures OwnerReachable(BothDelivered())
  {
    var m := OlderAgain();
    var m1 := m.(xfers := BothQueued().xfers, threads := m.threads[5 := Copied(2, Older(Some(2)))]);
    OwnerStep(m, PutTransfer(5), m1);
    OwnerStep(m1, CopyOut(5, true), BothDelivered());
  }

  /** Why it is a discipline per device and not per owner: a run in which every owner
      rolls back before its own next fetch, and whose deliveries are out of order. */
  lemma RebindingReorders()
    ensures exists m :: OwnerReachable(m) && !Ordered(m.delivered)
  {
    Start(); BindOne(); WakeOne(); SubmitOlder(); SubmitYounger(); FetchOlder(); FailOlder(); Rebind();
    FetchYounger(); DeliverYounger(); UndoOlder(); FetchOlderAgain(); DeliverOlder();
    var m := BothDelivered();
    assert !Before(m.delivered[0], m.delivered[1]);
  }
}
