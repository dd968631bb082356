/** It happens: a run in which a URB is submitted, fetched, delivered, completed and given back,
    and its transfer released. Thread 1 submits, thread 2 serves owner 1, which is bound to device 0. */
module Lifecycle {
  import opened Wrappers
  import opened Queues
  import opened Transfers
  import opened Machines
  import opened Guarantees
  import opened Sections
  import opened Wakeups

  function TheRequest(): Request { Request(7, 1, 0, Some(1), 0) }

  /** The machine with these transfers, device references and positions of the two threads. */
  function With(m: Machine, xfers: seq<Xfer>, refs: int, one: Pc, two: Pc): Machine {
    m.(xfers := xfers, devs := [Dev(true, refs)], threads := [Wake(ThenCaller(0)), one, two])
  }

  function Submitted(): Machine {
    With(Listening(), [Xfer(7, 0, 8, XferState.Queued, 1)], 4, Idle, Idle)
    .(q := Queue([Binding(1, 0)], [TheRequest().(owner := None)], [], false), linked := {7}, accepted := [1])
  }

  function Copies(): Machine {
    With(Submitted(), [Xfer(7, 0, 8, XferState.Queued, 2)], 4, Idle, Copying(1, TheRequest()))
    .(q := Queue([Binding(1, 0)], [], [TheRequest()], false))
  }

  function Served(): Machine {
    Submitted().(q := Queue([Binding(1, 0)], [], [TheRequest()], false), delivered := [TheRequest()])
  }

  function Done(): Machine {
    With(Served(), [Xfer(7, 0, 8, Completed, 1)], 4, Idle, Settled(TheRequest(), ToCaller))
    .(q := Queue([Binding(1, 0)], [], [], false), linked := {})
  }

  function Over(): Machine {
    With(Listening(), [Xfer(7, 0, 8, Completed, 0)], 3, Idle, Idle)
    .(accepted := [1], delivered := [TheRequest()], given := [1], freedXfers := [1])
  }

  lemma Submits()
    ensures Reachable(Submitted())
  {
    hide Reachable, NextDetach, NextSettle, NextServe, NextRefer;
    Listens();
    var m := Listening();
    var a := With(m, [Xfer(7, 0, 8, New, 1)], 4, Created(7, 1), Idle);
    assert m.threads == [Wake(ThenCaller(0)), Idle, Idle];
    ReachNext(m, Enqueue(1, 7, 0, 8), a);
    Prepares(a);
  }

  lemma Prepares(m: Machine)
    requires Reachable(m) && m == With(Listening(), [Xfer(7, 0, 8, New, 1)], 4, Created(7, 1), Idle)
    ensures Reachable(Submitted())
  {
    hide Reachable, NextDetach, NextSettle, NextServe, NextRefer;
    var b := With(Listening(), [Xfer(7, 0, 8, XferState.Queued, 2)], 4, Linking(7, 1), Idle);
    ReachNext(m, Prepare(1), b);
    Accepts(b);
  }

  lemma Accepts(m: Machine)
    requires Reachable(m) && m == With(Listening(), [Xfer(7, 0, 8, XferState.Queued, 2)], 4, Linking(7, 1), Idle)
    ensures Reachable(Submitted())
  {
    hide Reachable, NextDetach, NextSettle, NextServe, NextRefer;
    var a := With(Submitted(), m.xfers, 4, Wake(ThenPutTransfer(1)), Idle);
    ReachNext(m, Lock(1, None), a);
    Wakes(a);
  }

  lemma Wakes(m: Machine)
    requires Reachable(m) && m == With(Submitted(), [Xfer(7, 0, 8, XferState.Queued, 2)], 4, Wake(ThenPutTransfer(1)), Idle)
    ensures Reachable(Submitted())
  {
    hide Reachable, NextSubmit, NextDetach, NextServe, NextRefer;
    var s := Submitted();
    var b := With(s, m.xfers, 4, PutCreator(1), Idle);
    ReachNext(m, WakeUp(1), b);
    ReachNext(b, PutTransfer(1), s);
  }

  lemma Serves()
    requires Reachable(Submitted())
    ensures Reachable(Copies())
  {
    hide Reachable, NextSubmit, NextDetach, NextSettle, NextRefer;
    var s := Submitted();
    var a := With(s, s.xfers, 4, Idle, Fetching(1));
    ReachNext(s, FetchStart(2, 1), a);
    Moves(a);
  }

  lemma Moves(m: Machine)
    requires Reachable(m) && m == With(Submitted(), [Xfer(7, 0, 8, XferState.Queued, 1)], 4, Idle, Fetching(1))
    ensures Reachable(Copies())
  {
    hide Reachable, Queue.Fetch, NextSubmit, NextDetach, NextSettle, NextRefer;
    FetchMoves(m.q, 1, 0, 0);
    assert m.q.pending[..0] + m.q.pending[1..] == [] && m.q.active + [TheRequest()] == [TheRequest()];
    ReachNext(m, Fetch(2, false), Copies());
  }

  lemma Delivers(m: Machine)
    requires Reachable(m) && m == Copies()
    ensures Reachable(Served())
  {
    hide Reachable, NextSubmit, NextDetach, NextRefer;
    var f := Served();
    var a := With(m, f.xfers, 4, Idle, Copied(1, TheRequest()));
    ReachNext(m, PutTransfer(2), a);
    ReachNext(a, CopyOut(2, true), f);
  }

  lemma Completes(m: Machine)
    requires Reachable(m) && m == Served()
    ensures Reachable(Done())
  {
    hide Reachable, NextSubmit, NextServe, NextRefer;
    var a := m.(q := Queue([Binding(1, 0)], [], [], false), linked := {},
                threads := [Wake(ThenCaller(0)), Idle, Holding(TheRequest(), Completed, ToCaller)]);
    ReachNext(m, Complete(2, 1, 1, 8), a);
    ReachNext(a, SettleHeld(2), Done());
  }

  lemma GivesBack(m: Machine)
    requires Reachable(m) && m == Done()
    ensures Reachable(Over())
  {
    hide Reachable, NextSubmit, NextDetach, NextServe, NextRefer;
    var a := m.(given := [1], threads := [Wake(ThenCaller(0)), Idle, Returned(TheRequest(), ToCaller)]);
    ReachNext(m, Giveback(2), a);
    ReachNext(a, PutTransfer(2), Over());
  }

  /** A reachable machine whose one accepted transfer was delivered, completed, given back and released, with
      nothing left on the lists or at the endpoint. */
  lemma WholeLife()
    ensures exists m ::
      && Reachable(m) && m.accepted == [1] && m.given == [1] && m.freedXfers == [1] && m.delivered == [Request(7, 1, 0, Some(1), 0)]
      && m.xfers == [Xfer(7, 0, 8, Completed, 0)] && m.q == Queue([Binding(1, 0)], [], [], false) && m.linked == {}
  {
    hide Reachable;
    Submits();
    Serves();
    Delivers(Copies());
    Completes(Served());
    GivesBack(Done());
    assert Over().freedXfers == [1];
  }
}
