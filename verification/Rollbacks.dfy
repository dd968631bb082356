/** Fetch and rollback undo each other, in the order in which they must. */
module Rollbacks {
  import opened Wrappers
  import opened Queues

  /** One device's share of a list, in order. */
  function Project(rs: seq<Request>, d: Device): seq<Request> {
    if rs == [] then []
    else (if rs[0].device == d then [rs[0]] else []) + Project(rs[1..], d)
  }

  lemma {:induction false} ProjectConcat(rs: seq<Request>, ss: seq<Request>, d: Device)
    ensures Project(rs + ss, d) == Project(rs, d) + Project(ss, d)
  {
    if rs == [] {
      assert rs + ss == ss;
    } else {
      ProjectConcat(rs[1..], ss, d);
      ProjectFirst(rs, d);
      ProjectFirst(rs + ss, d);
      hide Project;
      assert (rs + ss)[1..] == rs[1..] + ss && (rs + ss)[0] == rs[0];
      Associative(if rs[0].device == d then [rs[0]] else [], Project(rs[1..], d), Project(ss, d));
    }
  }

  lemma ProjectFirst(rs: seq<Request>, d: Device)
    requires rs != []
    ensures Project(rs, d) == (if rs[0].device == d then [rs[0]] else []) + Project(rs[1..], d)
  {
  }

  lemma Associative(a: seq<Request>, b: seq<Request>, c: seq<Request>)
    ensures a + b + c == a + (b + c)
  {
  }

  lemma {:induction false} ProjectNone(rs: seq<Request>, d: Device)
    requires forall i :: 0 <= i < |rs| ==> rs[i].device != d
    ensures Project(rs, d) == []
  {
    if rs != [] { ProjectNone(rs[1..], d); }
  }

  lemma {:induction false} ProjectEmpty(rs: seq<Request>, d: Device)
    requires Project(rs, d) == []
    ensures forall i :: 0 <= i < |rs| ==> rs[i].device != d
  {
    if rs != [] { ProjectEmpty(rs[1..], d); }
  }

  lemma ProjectSplit(rs: seq<Request>, i: nat, d: Device)
    requires i < |rs|
    ensures Project(rs, d) == Project(rs[..i], d) + (if rs[i].device == d then [rs[i]] else []) + Project(rs[i + 1..], d)
    ensures Project(Without(rs, i), d) == Project(rs[..i], d) + Project(rs[i + 1..], d)
  {
    assert rs == rs[..i] + rs[i..] && rs[i..][1..] == rs[i + 1..];
    ProjectConcat(rs[..i], rs[i..], d);
    ProjectConcat(rs[..i], rs[i + 1..], d);
  }

  /** Taking a request out removes it from its device's share and no other. */
  lemma ProjectWithout(rs: seq<Request>, i: nat, d: Device)
    requires i < |rs|
    ensures rs[i].device != d ==> Project(Without(rs, i), d) == Project(rs, d)
    ensures rs[i].device == d && FirstOf(rs, OfDevice(d)) == i ==> Project(rs, d) == [rs[i]] + Project(Without(rs, i), d)
  {
    hide Project, Without;
    ProjectSplit(rs, i, d);
    var a, b := Project(rs[..i], d), Project(rs[i + 1..], d);
    if rs[i].device != d {
      assert a + [] == a;
    } else if FirstOf(rs, OfDevice(d)) == i {
      ProjectBefore(rs, i, d);
      assert [] + [rs[i]] == [rs[i]] && [] + b == b;
    }
  }

  /** Before the first request of a device there is none. */
  lemma ProjectBefore(rs: seq<Request>, i: nat, d: Device)
    requires i < |rs| && FirstOf(rs, OfDevice(d)) == i
    ensures Project(rs[..i], d) == []
  {
    hide Project;
    assert forall j :: 0 <= j < i ==> !Matches(rs[j], OfDevice(d));
    ProjectNone(rs[..i], d);
  }

  /** Pending requests have no owner, and no request is on a list twice. */
  ghost predicate Tidy(q: Queue) {
    && (forall i :: 0 <= i < |q.pending| ==> q.pending[i].owner == None)
    && (forall i, j :: 0 <= i < j < |q.pending| ==> q.pending[i].id != q.pending[j].id)
    && (forall i, j :: 0 <= i < |q.pending| && 0 <= j < |q.active| ==> q.pending[i].id != q.active[j].id)
  }

  /** n fetches in a row, with the ids they return. */
  function FetchMany(q: Queue, o: Owner, n: nat): Result<(seq<nat>, Queue)>
    decreases n
  {
    if n == 0 then Success(([], q))
    else match q.Fetch(o)
      case Failure(e) => Failure(e)
      case Success((r, q1)) =>
        match FetchMany(q1, o, n - 1)
        case Failure(e) => Failure(e)
        case Success((ids, q2)) => Success(([r.id] + ids, q2))
  }

  /** Rollbacks of these ids, the last one first. */
  function UndoMany(q: Queue, o: Owner, ids: seq<nat>): Result<Queue>
    decreases ids
  {
    if ids == [] then Success(q)
    else match UndoMany(q, o, ids[1..])
      case Failure(e) => Failure(e)
      case Success(q1) => q1.Rollback(o, ids[0])
  }

  /** Same bindings, same active list, same order for every device. */
  ghost predicate SameForDevices(q: Queue, p: Queue) {
    && p.bindings == q.bindings && p.active == q.active && p.stopping == q.stopping
    && (forall d :: Project(p.pending, d) == Project(q.pending, d))
  }

  lemma FetchTidy(q: Queue, o: Owner)
    requires Tidy(q) && q.Fetch(o).Success?
    ensures Tidy(q.Fetch(o).value.1)
  {
  }

  /** A fetched request stands last among the active ones and nowhere before. */
  lemma FetchedStands(q: Queue, o: Owner)
    requires Tidy(q) && q.Fetch(o).Success?
    ensures var (r, q1) := q.Fetch(o).value;
      && FirstOf(q1.active, OfId(o, r.id)) == |q.active| && q1.active == q.active + [r]
      && r.(owner := None) == q.pending[FirstOf(q.pending, OfDevice(q.DeviceOf(o)))]
  {
    var (r, q1) := q.Fetch(o).value;
    FirstOfIs(q1.active, OfId(o, r.id), |q.active|);
  }

  /** Rolling a fetch back restores the active list and every device's pending
      order, even if other devices' requests were put back in between. */
  lemma RollbackUndoes(q: Queue, o: Owner, p: Queue)
    requires Tidy(q) && q.Fetch(o).Success? && SameForDevices(q.Fetch(o).value.1, p)
    ensures var r := q.Fetch(o).value.0;
      p.Rollback(o, r.id).Success? && SameForDevices(q, p.Rollback(o, r.id).value)
  {
    var (r, q1) := q.Fetch(o).value;
    var i := FirstOf(q.pending, OfDevice(q.DeviceOf(o)));
    FirstOfIs(p.active, OfId(o, r.id), |q.active|);
    assert Without(p.active, |q.active|) == q.active;
    var p1 := p.Rollback(o, r.id).value;
    assert q.pending[i] == r.(owner := None);
    forall d ensures Project(p1.pending, d) == Project(q.pending, d) {
      ProjectWithout(q.pending, i, d);
      assert p1.pending[1..] == p.pending;
    }
  }

  /** Fetch followed by rollback is the identity on active and on every
      device's share of pending. */
  lemma FetchRollback(q: Queue, o: Owner)
    requires Tidy(q) && q.Fetch(o).Success?
    ensures var (r, q1) := q.Fetch(o).value;
      q1.Rollback(o, r.id).Success? && SameForDevices(q, q1.Rollback(o, r.id).value)
  {
    RollbackUndoes(q, o, q.Fetch(o).value.1);
  }

  /** n fetches undone in reverse order restore every device's share. */
  lemma {:induction false} UndoRestores(q: Queue, o: Owner, n: nat)
    requires Tidy(q) && FetchMany(q, o, n).Success?
    ensures var (ids, q1) := FetchMany(q, o, n).value;
      |ids| == n && UndoMany(q1, o, ids).Success? && SameForDevices(q, UndoMany(q1, o, ids).value)
    decreases n
  {
    hide Queue.Fetch, Queue.Rollback, Tidy;
    if n == 0 {
      assert forall d :: Project(q.pending, d) == Project(q.pending, d);
    } else {
      var (r, q1) := q.Fetch(o).value;
      FetchTidy(q, o);
      UndoRestores(q1, o, n - 1);
      var (ids, q2) := FetchMany(q1, o, n - 1).value;
      assert ([r.id] + ids)[1..] == ids;
      hide SameForDevices;
      RollbackUndoes(q, o, UndoMany(q2, o, ids).value);
    }
  }
}
