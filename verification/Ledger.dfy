/** Conservation laws of the machine. Every place a reference, a request or a
    URB can be is given a weight; the laws equate sums of weights with what the
    machine stores, and every step keeps them. */
module Ledger {
  import opened Wrappers
  import opened Sums
  import opened Queues
  import opened Transfers
  import opened Machines

  /** What is counted. */
  datatype Measure =
    | XferRefs(id: nat)   // references to a transfer
    | DevRefs(d: Device)  // references to a device
    | Place(id: nat)      // accepted and not yet given back
    | Stage(id: nat)      // prepared and not yet settled
    | Offer(id: nat)      // created, neither accepted nor refused
    | Use(u: Urb)         // URB in flight

  function B(b: bool): nat { if b then 1 else 0 }

  function ReqWeight(r: Request, k: Measure): nat {
    match k
    case XferRefs(id) => B(r.id == id)
    case Place(id) => B(r.id == id)
    case Stage(id) => B(r.id == id)
    case Use(u) => B(r.urb == u)
    case _ => 0
  }

  function ResumeWeight(next: Resume, k: Measure): nat {
    B(next.ToRelease? && k == DevRefs(next.d))
  }

  function AfterWeight(after: After, k: Measure): nat {
    match after
    case ThenPutTransfer(id) => B(k == XferRefs(id))
    case ThenCaller(d) => B(k == DevRefs(d))
    case _ => 0
  }

  function PcWeight(pc: Pc, k: Measure): nat {
    match pc
    case Wake(after) => AfterWeight(after, k)
    case Created(u, id) => B(k == XferRefs(id)) + B(k == Offer(id)) + B(k == Use(u))
    case Linking(u, id) => 2 * B(k == XferRefs(id)) + B(k == Stage(id)) + B(k == Offer(id)) + B(k == Use(u))
    case Refused(u, id) => 2 * B(k == XferRefs(id)) + B(k == Stage(id)) + B(k == Offer(id)) + B(k == Use(u))
    case PutCreator(id) => B(k == XferRefs(id))
    case Holding(r, _, next) => ReqWeight(r, k) + ResumeWeight(next, k)
    case Settled(r, next) => (if k.Stage? then 0 else ReqWeight(r, k)) + ResumeWeight(next, k)
    case Returned(r, next) => B(k == XferRefs(r.id)) + ResumeWeight(next, k)
    case Copying(_, r) => B(k == XferRefs(r.id))
    case Caller(d) => B(k == DevRefs(d))
    case Unpublished(d) => 2 * B(k == DevRefs(d))
    case Registering(_, d) => 2 * B(k == DevRefs(d))
    case RegisterFailed(d) => 2 * B(k == DevRefs(d))
    case Releasing(_, d) => B(k == DevRefs(d))
    case Released(d) => B(k == DevRefs(d))
    case StopPut(d) => B(k == DevRefs(d))
    case _ => 0
  }

  function OfReq(k: Measure): Request -> nat { (r: Request) => ReqWeight(r, k) }
  function OfPc(k: Measure): Pc -> nat { (pc: Pc) => PcWeight(pc, k) }
  function OfBinding(d: Device): Binding -> nat { (b: Binding) => B(b.device == d) }
  function OfXfer(d: Device): Xfer -> nat { (x: Xfer) => B(x.refs > 0 && x.device == d) }

  function Reqs(rs: seq<Request>, k: Measure): nat { Total(rs, OfReq(k)) }
  function Pcs(ps: seq<Pc>, k: Measure): nat { Total(ps, OfPc(k)) }
  function Binds(bs: seq<Binding>, d: Device): nat { Total(bs, OfBinding(d)) }
  function Live(xs: seq<Xfer>, d: Device): nat { Total(xs, OfXfer(d)) }

  /** Requests on the lists and requests or references in the threads' hands. */
  function Held(m: Machine, k: Measure): nat {
    Reqs(m.q.pending, k) + Reqs(m.q.active, k) + Pcs(m.threads, k)
  }

  // ---- the laws -------------------------------------------------------

  /** The law of one measure.
      - A transfer's count is the number of its holders, and its release ran
        once when none is left.
      - A device's count is registry + bindings + live transfers + callers.
      - An accepted request is pending, active, in one hand or given back.
      - A transfer is QUEUED exactly from submit to its settlement.
      - A transfer is offered and accepted once.
      - A URB is in flight once; the endpoint lists hold those on the queue. */
  ghost predicate Law(m: Machine, k: Measure) {
    match k
    case XferRefs(id) =>
      && m.X(id).refs == Held(m, k)
      && Count(m.freedXfers, id) == B(m.Known(id) && m.X(id).refs == 0)
    case DevRefs(d) =>
      && m.D(d).refs == B(m.D(d).registered) + Binds(m.q.bindings, d) + Live(m.xfers, d) + Pcs(m.threads, k)
      && Count(m.freedDevs, d) == B(d < |m.devs| && m.D(d).refs == 0)
    case Place(id) =>
      Count(m.accepted, id) == Held(m, k) + Count(m.given, id)
    case Stage(id) =>
      Held(m, k) == B(m.X(id).state == Queued)
    case Offer(id) =>
      Count(m.accepted, id) + Held(m, k) <= B(m.Known(id))
    case Use(u) =>
      && Held(m, k) <= 1
      && B(u in m.linked) == Reqs(m.q.pending, k) + Reqs(m.q.active, k)
  }

  ghost predicate Genuine(m: Machine, r: Request) {
    && m.Known(r.id) && m.X(r.id).device == r.device && m.X(r.id).urb == r.urb
    && m.X(r.id).length <= DATA_MAX
    && r.serial < |m.accepted| && m.accepted[r.serial] == r.id
  }

  ghost predicate PcGenuine(m: Machine, pc: Pc) {
    match pc
    case Created(u, id) => m.Known(id) && m.X(id).urb == u
    case Linking(u, id) => m.Known(id) && m.X(id).urb == u && m.X(id).length <= DATA_MAX
    case Holding(r, verdict, _) => Genuine(m, r) && !Open(verdict)
    case Settled(r, _) => Genuine(m, r)
    case Returned(r, _) => Genuine(m, r)
    case Copying(o, r) => Genuine(m, r) && r.owner == Some(o)
    case Copied(o, r) => Genuine(m, r) && r.owner == Some(o)
    case Undo(o, r) => Genuine(m, r) && r.owner == Some(o)
    case _ => true
  }

  /** Requests describe their transfers; owners stand on active requests only. */
  ghost predicate ListShape(m: Machine) {
    && (forall i :: 0 <= i < |m.q.pending| ==> Genuine(m, m.q.pending[i]) && m.q.pending[i].owner == None)
    && (forall i :: 0 <= i < |m.q.active| ==> Genuine(m, m.q.active[i]) && m.q.active[i].owner.Some?)
  }

  ghost predicate ThreadShape(m: Machine) {
    forall th :: 0 <= th < |m.threads| ==> PcGenuine(m, m.threads[th])
  }

  /** An owner binds one device and a device has one owner. */
  ghost predicate BindingShape(m: Machine) {
    forall i, j :: 0 <= i < j < |m.q.bindings| ==>
      m.q.bindings[i].owner != m.q.bindings[j].owner && m.q.bindings[i].device != m.q.bindings[j].device
  }

  ghost predicate Shape(m: Machine) { ListShape(m) && ThreadShape(m) && BindingShape(m) }

  /** A transfer that has not been submitted yet is NEW. */
  ghost predicate Fresh(m: Machine) {
    forall th :: 0 <= th < |m.threads| && m.threads[th].Created? ==> m.X(m.threads[th].id).state == New
  }

  ghost predicate Laws(m: Machine) { forall k :: Law(m, k) }

  ghost predicate Inv(m: Machine) { Laws(m) && Shape(m) && Fresh(m) }

  // ---- how the sums move ----------------------------------------------

  lemma PcsGoto(ps: seq<Pc>, th: nat, pc: Pc, k: Measure)
    requires th < |ps|
    ensures Pcs(ps[th := pc], k) + PcWeight(ps[th], k) == Pcs(ps, k) + PcWeight(pc, k)
    ensures PcWeight(ps[th], k) <= Pcs(ps, k)
  {
    TotalUpdate(ps, th, pc, OfPc(k));
    TotalAtLeast(ps, th, OfPc(k));
  }

  lemma ReqsWithout(rs: seq<Request>, i: nat, k: Measure)
    requires i < |rs|
    ensures Reqs(Without(rs, i), k) + ReqWeight(rs[i], k) == Reqs(rs, k)
  {
    TotalRemove(rs, i, OfReq(k));
  }

  lemma ReqsAppend(rs: seq<Request>, r: Request, k: Measure)
    ensures Reqs(rs + [r], k) == Reqs(rs, k) + ReqWeight(r, k)
  {
    TotalAppend(rs, r, OfReq(k));
  }

  lemma ReqsPrepend(rs: seq<Request>, r: Request, k: Measure)
    ensures Reqs([r] + rs, k) == Reqs(rs, k) + ReqWeight(r, k)
  {
    TotalPrepend(r, rs, OfReq(k));
  }

  lemma LiveUpdate(xs: seq<Xfer>, i: nat, x: Xfer, d: Device)
    requires i < |xs|
    ensures Live(xs[i := x], d) + B(xs[i].refs > 0 && xs[i].device == d) == Live(xs, d) + B(x.refs > 0 && x.device == d)
  {
    TotalUpdate(xs, i, x, OfXfer(d));
  }
}
