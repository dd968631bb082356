/** The transfer backend under concurrency. A machine holds the locked state,
    the transfers and devices with their reference counts, and one program
    counter per thread. Each locked section, each unlocked reference-count
    change and each wake-up is one step; any thread may take the next step.
    The completion handler that runs inside a giveback is an ordinary other
    thread here: it may submit at every point of the drain. */
module Machines {
  import opened Wrappers
  import opened Queues
  import opened Transfers

  /** A transfer: what create fixes, its state and its reference count. */
  datatype Xfer = Xfer(urb: Urb, device: Device, length: nat, state: XferState, refs: int)

  datatype Dev = Dev(registered: bool, refs: int)

  /** What a thread does once it no longer holds a detached request. */
  datatype Resume = ToCaller | ToRelease(o: Owner, d: Device) | ToStop

  /** What a thread does once it has woken the waiters. */
  datatype After = ThenPutTransfer(id: nat) | ThenCaller(d: Device) | ThenReturn | ThenStop

  /** Where a thread stands, with the references it holds. */
  datatype Pc =
    | Idle
    | Wake(after: After)                              // unlocked, wake_up owed
      // urb_enqueue and submit
    | Created(urb: Urb, id: nat)                      // the creator's reference
    | Linking(urb: Urb, id: nat)                      // and the request's; the lock comes next
    | Refused(urb: Urb, id: nat)                      // the locked section failed
    | PutCreator(id: nat)
      // a detached request: cancel, complete, release_owner, stop
    | Holding(r: Request, verdict: XferState, next: Resume)
    | Settled(r: Request, next: Resume)               // transfer state written
    | Returned(r: Request, next: Resume)              // URB given back
      // fetch
    | Fetching(o: Owner)
    | Waiting(o: Owner, woken: bool)                  // on the wait queue, predicate not yet read
    | Asleep(o: Owner)
    | Copying(o: Owner, r: Request)                   // a temporary transfer reference
    | Copied(o: Owner, r: Request)                    // copy_to_user comes next
    | Undo(o: Owner, r: Request)                      // copy_to_user failed
      // device references
    | Caller(d: Device)                               // creator or lookup
    | Unpublished(d: Device)                          // and the registry's
    | Registering(o: Owner, d: Device)                // and the new binding's
    | RegisterFailed(d: Device)
      // release_owner
    | Releasing(o: Owner, d: Device)                  // the detached binding's
    | Released(d: Device)
      // stop
    | StopDrain | StopBindings | StopPut(d: Device) | Stopped

  function Resumed(next: Resume): Pc {
    match next
    case ToCaller => Idle
    case ToRelease(o, d) => Releasing(o, d)
    case ToStop => StopDrain
  }

  function Woke(after: After): Pc {
    match after
    case ThenPutTransfer(id) => PutCreator(id)
    case ThenCaller(d) => Caller(d)
    case ThenReturn => Idle
    case ThenStop => StopDrain
  }

  /** wake_up_interruptible_all: every waiter reads its predicate again. */
  function Roused(pc: Pc): Pc {
    if pc.Asleep? || pc.Waiting? then Waiting(pc.o, true) else pc
  }

  function WakeAll(ps: seq<Pc>): (qs: seq<Pc>)
    ensures |qs| == |ps|
    ensures forall i :: 0 <= i < |ps| ==> qs[i] == Roused(ps[i])
  {
    seq(|ps|, i requires 0 <= i < |ps| => Roused(ps[i]))
  }

  datatype Machine = Machine(
    q: Queue,
    linked: set<Urb>,         // URBs on an endpoint list of the USB core
    xfers: seq<Xfer>,         // transfer `id` is xfers[id - 1]
    devs: seq<Dev>,
    threads: seq<Pc>,
    accepted: seq<nat>,       // transfers in the order submit accepted them
    given: seq<nat>,          // transfers whose URB was given back
    freedXfers: seq<nat>,     // release callbacks that ran
    freedDevs: seq<nat>,
    delivered: seq<Request>)  // requests copied out to their backend
  {
    predicate Known(id: nat) { 1 <= id <= |xfers| }

    function X(id: nat): Xfer {
      if Known(id) then xfers[id - 1] else Xfer(0, 0, 0, New, 0)
    }

    function D(d: Device): Dev {
      if d < |devs| then devs[d] else Dev(false, 0)
    }

    function At(th: nat): Pc {
      if th < |threads| then threads[th] else Stopped
    }

    function Goto(th: nat, pc: Pc): Machine {
      if th < |threads| then this.(threads := threads[th := pc]) else this
    }

    function SetX(id: nat, x: Xfer): Machine {
      if Known(id) then this.(xfers := xfers[id - 1 := x]) else this
    }

    function SetD(d: Device, x: Dev): Machine {
      if d < |devs| then this.(devs := devs[d := x]) else this
    }

    function GetXfer(id: nat): Machine { SetX(id, X(id).(refs := X(id).refs + 1)) }

    function GetDev(d: Device): Machine { SetD(d, D(d).(refs := D(d).refs + 1)) }

    /** virtusb_object_put. */
    function PutDev(d: Device): Machine {
      var m := SetD(d, D(d).(refs := D(d).refs - 1));
      if D(d).refs == 1 then m.(freedDevs := freedDevs + [d]) else m
    }

    /** virtusb_transfer_put; the last reference also drops the device. */
    function PutXfer(id: nat): Machine {
      var m := SetX(id, X(id).(refs := X(id).refs - 1));
      if X(id).refs == 1 then m.(freedXfers := freedXfers + [id]).PutDev(X(id).device) else m
    }

    function Settle(id: nat, s: XferState): Machine {
      if Open(X(id).state) then SetX(id, X(id).(state := s)) else this
    }

    /** Take a request off its list and its URB off the endpoint. */
    function Detach(th: nat, s: Slot, verdict: XferState, next: Resume): Machine
      requires q.HasSlot(s)
    {
      this.(q := q.Detach(s), linked := linked - {q.At(s).urb})
      .Goto(th, Holding(q.At(s), verdict, next))
    }

    /** The URB is between urb_enqueue and its giveback or its refusal. */
    predicate InFlight(u: Urb) {
      || (exists i :: 0 <= i < |q.pending| && q.pending[i].urb == u)
      || (exists i :: 0 <= i < |q.active| && q.active[i].urb == u)
      || (exists th :: 0 <= th < |threads| && Uses(threads[th], u))
    }
  }

  predicate Uses(pc: Pc, u: Urb) {
    match pc
    case Created(v, _) => v == u
    case Linking(v, _) => v == u
    case Refused(v, _) => v == u
    case Holding(r, _, _) => r.urb == u
    case Settled(r, _) => r.urb == u
    case _ => false
  }

  /** The transfer reference the thread drops next, and where it goes then. */
  function TransferToPut(pc: Pc): Option<(nat, Pc)> {
    match pc
    case PutCreator(id) => Some((id, Idle))
    case Returned(r, next) => Some((r.id, Resumed(next)))
    case Copying(o, r) => Some((r.id, Copied(o, r)))
    case _ => None
  }

  function DeviceToPut(pc: Pc): Option<(Device, Pc)> {
    match pc
    case Caller(d) => Some((d, Idle))
    case Unpublished(d) => Some((d, Caller(d)))
    case RegisterFailed(d) => Some((d, Caller(d)))
    case Released(d) => Some((d, Wake(ThenReturn)))
    case StopPut(d) => Some((d, StopBindings))
    case _ => None
  }

  datatype Event =
    | Spawn
    | Enqueue(th: nat, urb: Urb, d: Device, length: nat)
    | GiveUp(th: nat)                   // allocation failed or the payload is too long
    | Prepare(th: nat)
    | Lock(th: nat, link: Option<Errno>)
    | Refuse(th: nat)
    | WakeUp(th: nat)
    | Dequeue(th: nat, urb: Urb)
    | Complete(th: nat, o: Owner, id: nat, actual: nat)
    | SettleHeld(th: nat)
    | Giveback(th: nat)
    | PutTransfer(th: nat)
    | FetchStart(th: nat, o: Owner)
    | Fetch(th: nat, nonblock: bool)
    | Check(th: nat)
    | Interrupt(th: nat)
    | CopyOut(th: nat, ok: bool)
    | Rollback(th: nat)
    | Publish(th: nat)
    | Lookup(th: nat, d: Device)
    | Unpublish(th: nat)
    | PutDevice(th: nat)
    | Register(th: nat, o: Owner)
    | RegisterLock(th: nat)
    | Release(th: nat, o: Owner)
    | ReleaseRound(th: nat)
    | Stop(th: nat)
    | StopRound(th: nat)
    | StopUnbind(th: nat)

  predicate Enabled(m: Machine, e: Event) {
    match e
    case Spawn => true
    case Enqueue(th, u, d, _) => m.At(th) == Idle && m.D(d).registered && !m.InFlight(u)
    case GiveUp(th) => m.At(th).Created?
    case Prepare(th) => m.At(th).Created? && m.X(m.At(th).id).length <= DATA_MAX
    case Lock(th, _) => m.At(th).Linking?
    case Refuse(th) => m.At(th).Refused?
    case WakeUp(th) => m.At(th).Wake?
    case Dequeue(th, u) => m.At(th) == Idle && u in m.linked
    case Complete(th, _, _, _) => m.At(th) == Idle
    case SettleHeld(th) => m.At(th).Holding?
    case Giveback(th) => m.At(th).Settled?
    case PutTransfer(th) => TransferToPut(m.At(th)).Some?
    case FetchStart(th, _) => m.At(th) == Idle
    case Fetch(th, _) => m.At(th).Fetching?
    case Check(th) => m.At(th).Waiting?
    case Interrupt(th) => m.At(th).Waiting? || m.At(th).Asleep?
    case CopyOut(th, _) => m.At(th).Copied?
    case Rollback(th) => m.At(th).Undo?
    case Publish(th) => m.At(th) == Idle
    case Lookup(th, d) => m.At(th) == Idle && m.D(d).registered
    case Unpublish(th) => m.At(th).Caller? && m.D(m.At(th).d).registered
    case PutDevice(th) => DeviceToPut(m.At(th)).Some?
    case Register(th, _) => m.At(th).Caller?
    case RegisterLock(th) => m.At(th).Registering?
    case Release(th, o) => m.At(th) == Idle && m.q.Owned(o)
    case ReleaseRound(th) => m.At(th).Releasing?
    case Stop(th) => m.At(th) == Idle
    case StopRound(th) => m.At(th) == StopDrain
    case StopUnbind(th) => m.At(th) == StopBindings
  }

  /** The request a Lock step offers to the queue. */
  function Offered(m: Machine, th: nat): Request
    requires m.At(th).Linking?
  {
    var pc := m.At(th);
    Request(pc.urb, pc.id, m.X(pc.id).device, None, |m.accepted|)
  }

  predicate Submitting(e: Event) { e.Enqueue? || e.GiveUp? || e.Prepare? || e.Lock? || e.Refuse? }

  predicate Detaching(e: Event) { e.Dequeue? || e.Complete? || e.ReleaseRound? || e.StopRound? }

  predicate Settling(e: Event) { e.SettleHeld? || e.Giveback? || e.PutTransfer? }

  predicate Serving(e: Event) { e.FetchStart? || e.Fetch? || e.Check? || e.Interrupt? || e.CopyOut? || e.Rollback? }

  predicate Referring(e: Event) {
    || e.Publish? || e.Lookup? || e.Unpublish? || e.PutDevice? || e.Register?
    || e.RegisterLock? || e.Release? || e.Stop? || e.StopUnbind?
  }

  /** urb_enqueue and virtusb_backend_submit. */
  function NextSubmit(m: Machine, e: Event): Machine
    requires Enabled(m, e) && Submitting(e)
  {
    match e
    case Enqueue(th, u, d, length) =>
      m.GetDev(d)
      .(xfers := m.xfers + [Xfer(u, d, length, New, 1)])
      .Goto(th, Created(u, |m.xfers| + 1))

    case GiveUp(th) => m.Goto(th, PutCreator(m.At(th).id))

    case Prepare(th) =>
      var Created(u, id) := m.At(th);
      if m.X(id).state == New then
        m.SetX(id, m.X(id).(state := Queued)).GetXfer(id).Goto(th, Linking(u, id))
      else m.Goto(th, PutCreator(id))

    case Lock(th, link) =>
      var Linking(u, id) := m.At(th);
      (match m.q.Submit(Offered(m, th), link)
       case Failure(_) => m.Goto(th, Refused(u, id))
       case Success(q) =>
         m.(q := q, linked := m.linked + {u}, accepted := m.accepted + [id])
         .Goto(th, Wake(ThenPutTransfer(id))))

    case Refuse(th) =>
      var id := m.At(th).id;
      m.Settle(id, Cancelled).PutXfer(id).Goto(th, PutCreator(id))
  }

  /** The request a round or call takes off the queue. */
  function Target(m: Machine, e: Event): Slot
    requires Enabled(m, e) && Detaching(e)
  {
    match e
    case Dequeue(_, u) => m.q.SlotOfUrb(u)
    case Complete(_, o, id, _) => m.q.SlotOfId(o, id)
    case ReleaseRound(th) => m.q.SlotToRelease(m.At(th).o, m.At(th).d)
    case StopRound(_) => m.q.SlotToStop()
  }

  /** What becomes of its transfer: only a completion that fits completes it. */
  function Verdict(m: Machine, e: Event): XferState
    requires Enabled(m, e) && Detaching(e) && m.q.HasSlot(Target(m, e))
  {
    var length := m.X(m.q.At(Target(m, e)).id).length;
    if e.Complete? && e.actual <= length && e.actual <= DATA_MAX then Completed else Cancelled
  }

  function Continuation(m: Machine, e: Event): Resume
    requires Enabled(m, e) && Detaching(e)
  {
    match e
    case ReleaseRound(th) => ToRelease(m.At(th).o, m.At(th).d)
    case StopRound(_) => ToStop
    case _ => ToCaller
  }

  /** Where the thread goes if there is nothing to take. */
  function Missed(m: Machine, e: Event): Pc
    requires Enabled(m, e) && Detaching(e)
  {
    match e
    case ReleaseRound(th) => Released(m.At(th).d)
    case StopRound(_) => StopBindings
    case _ => Idle
  }

  /** Locked sections that take a request off the queue: cancel, complete,
      release_owner, stop. */
  function NextDetach(m: Machine, e: Event): Machine
    requires Enabled(m, e) && Detaching(e)
  {
    var s := Target(m, e);
    if s == Nowhere then m.Goto(e.th, Missed(m, e))
    else m.Detach(e.th, s, Verdict(m, e), Continuation(m, e))
  }

  /** What follows outside the lock, and the drop of a transfer reference. */
  function NextSettle(m: Machine, e: Event): Machine
    requires Enabled(m, e) && Settling(e)
  {
    match e
    case SettleHeld(th) =>
      var Holding(r, verdict, next) := m.At(th);
      m.Settle(r.id, verdict).Goto(th, Settled(r, next))

    case Giveback(th) =>
      var Settled(r, next) := m.At(th);
      m.(given := m.given + [r.id]).Goto(th, Returned(r, next))

    case PutTransfer(th) =>
      var (id, pc) := TransferToPut(m.At(th)).value;
      m.PutXfer(id).Goto(th, pc)
  }

  /** virtusb_backend_fetch, the copy to user space and the rollback. */
  function NextServe(m: Machine, e: Event): Machine
    requires Enabled(m, e) && Serving(e)
  {
    match e
    case FetchStart(th, o) => m.Goto(th, Fetching(o))

    case Fetch(th, nonblock) =>
      var o := m.At(th).o;
      (match m.q.Fetch(o)
       case Success((r, q)) => m.(q := q).GetXfer(r.id).Goto(th, Copying(o, r))
       case Failure(error) =>
         m.Goto(th, if error == EAGAIN && !nonblock then Waiting(o, false) else Idle))

    case Check(th) =>
      var Waiting(o, woken) := m.At(th);
      m.Goto(th, if m.q.Ready(o) then Fetching(o) else if woken then Waiting(o, false) else Asleep(o))

    case Interrupt(th) => m.Goto(th, Idle)

    case CopyOut(th, ok) =>
      var Copied(o, r) := m.At(th);
      if ok then m.(delivered := m.delivered + [r]).Goto(th, Idle) else m.Goto(th, Undo(o, r))

    case Rollback(th) =>
      var Undo(o, r) := m.At(th);
      (match m.q.Rollback(o, r.id)
       case Success(q) => m.(q := q).Goto(th, Wake(ThenReturn))
       case Failure(_) => m.Goto(th, Idle))
  }

  /** Device references and bindings. */
  function NextRefer(m: Machine, e: Event): Machine
    requires Enabled(m, e) && Referring(e)
  {
    match e
    case Publish(th) => m.(devs := m.devs + [Dev(true, 2)]).Goto(th, Caller(|m.devs|))

    case Lookup(th, d) => m.GetDev(d).Goto(th, Caller(d))

    case Unpublish(th) =>
      var d := m.At(th).d;
      m.SetD(d, m.D(d).(registered := false)).Goto(th, Unpublished(d))

    case PutDevice(th) =>
      var (d, pc) := DeviceToPut(m.At(th)).value;
      m.PutDev(d).Goto(th, pc)

    case Register(th, o) => m.GetDev(m.At(th).d).Goto(th, Registering(o, m.At(th).d))

    case RegisterLock(th) =>
      var Registering(o, d) := m.At(th);
      (match m.q.Register(o, d)
       case Success(q) => m.(q := q).Goto(th, Wake(ThenCaller(d)))
       case Failure(_) => m.Goto(th, RegisterFailed(d)))

    case Release(th, o) =>
      var i := OwnerAt(m.q.bindings, o);
      m.(q := m.q.(bindings := Without(m.q.bindings, i))).Goto(th, Releasing(o, m.q.bindings[i].device))

    case Stop(th) => m.(q := m.q.(stopping := true)).Goto(th, Wake(ThenStop))

    case StopUnbind(th) =>
      if m.q.bindings == [] then m.Goto(th, Stopped)
      else
        m.(q := m.q.(bindings := Without(m.q.bindings, 0))).Goto(th, StopPut(m.q.bindings[0].device))
  }

  function Next(m: Machine, e: Event): Machine
    requires Enabled(m, e)
  {
    if e.Spawn? then m.(threads := m.threads + [Idle])
    else if e.WakeUp? then m.(threads := WakeAll(m.threads)).Goto(e.th, Woke(m.At(e.th).after))
    else if Submitting(e) then NextSubmit(m, e)
    else if Detaching(e) then NextDetach(m, e)
    else if Settling(e) then NextSettle(m, e)
    else if Serving(e) then NextServe(m, e)
    else NextRefer(m, e)
  }

  /** The machine after virtusb_backend_init, before any device or call. */
  function Boot(): Machine {
    Machine(Queue([], [], [], false), {}, [], [], [], [], [], [], [], [])
  }

  /** es takes m to n, one enabled step after the other. */
  predicate Run(m: Machine, es: seq<Event>, n: Machine)
    decreases es
  {
    if es == [] then n == m else Enabled(m, es[0]) && Run(Next(m, es[0]), es[1..], n)
  }
}
