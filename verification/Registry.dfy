/** The object registry: ids handed out in order, one entry per object. */
module Registry {
  import opened Wrappers

  const U32_MAX: nat := 0xFFFF_FFFF

  /** The xarray and the id counter. */
  datatype Table<K(==)> = Table(objects: map<nat, K>, next: nat) {

    predicate Registered(o: K) {
      exists id :: id in objects && objects[id] == o
    }

    /** The critical section of virtusb_object_register. */
    function Register(o: K, inserted: bool): Result<Table<K>> {
      if Registered(o) then Failure(EALREADY)
      else if next > U32_MAX then Failure(ENOSPC)
      else if !inserted then Failure(ENOMEM)
      else Success(Table(objects[next := o], next + 1))
    }

    /** The critical section of virtusb_object_unregister, for the object with this id. */
    function Unregister(id: nat, o: K): Result<Table<K>> {
      if id == 0 || id !in objects || objects[id] != o then Failure(ENOENT)
      else Success(this.(objects := objects - {id}))
    }

    /** virtusb_object_lookup. */
    function Lookup(id: nat): Option<K> {
      if id == 0 || id !in objects then None else Some(objects[id])
    }
  }

  datatype Call<K(==)> = Register(o: K, inserted: bool) | Unregister(id: nat, o: K)

  function Step<K(==)>(t: Table<K>, call: Call<K>): Table<K> {
    match call
    case Register(o, inserted) => (match t.Register(o, inserted) case Success(u) => u case Failure(_) => t)
    case Unregister(id, o) => (match t.Unregister(id, o) case Success(u) => u case Failure(_) => t)
  }

  function Run<K(==)>(t: Table<K>, calls: seq<Call<K>>): Table<K>
    decreases |calls|
  {
    if calls == [] then t else Run(Step(t, calls[0]), calls[1..])
  }

  function Empty<K(==)>(): Table<K> {
    Table(map[], 1)
  }

  /** Ids lie below the counter, the counter fits, and no object has two ids. */
  ghost predicate Sane<K>(t: Table<K>) {
    && 0 < t.next <= U32_MAX + 1
    && (forall id :: id in t.objects ==> 0 < id < t.next)
    && (forall i, j :: i in t.objects && j in t.objects && t.objects[i] == t.objects[j] ==> i == j)
  }

  /** Below t's counter, u knows no id that t does not, and no other object by it. */
  ghost predicate Outlives<K>(t: Table<K>, u: Table<K>) {
    && t.next <= u.next
    && (forall id :: id in u.objects && id < t.next ==> id in t.objects && u.objects[id] == t.objects[id])
  }

  lemma {:induction false} RunSane<K>(t: Table<K>, calls: seq<Call<K>>)
    requires Sane(t)
    ensures Sane(Run(t, calls)) && Outlives(t, Run(t, calls))
    decreases |calls|
  {
    if calls != [] {
      var u := Step(t, calls[0]);
      assert forall o: K, id :: id in t.objects && t.objects[id] == o ==> t.Registered(o);
      assert Sane(u) && Outlives(t, u);
      RunSane(u, calls[1..]);
    }
  }

  lemma {:induction false} RunSplit<K>(t: Table<K>, a: seq<Call<K>>, b: seq<Call<K>>)
    ensures Run(t, a + b) == Run(Run(t, a), b)
    decreases |a|
  {
    if a == [] {
      assert a + b == b;
    } else {
      assert (a + b)[0] == a[0] && (a + b)[1..] == a[1..] + b;
      RunSplit(Step(t, a[0]), a[1..], b);
    }
  }

  /** Insertion never finds its slot taken: the counter's id is always free. */
  lemma NextIsFree<K>(calls: seq<Call<K>>)
    ensures var t := Run(Empty<K>(), calls);
      t.next !in t.objects && t.next <= U32_MAX + 1
  {
    RunSane(Empty<K>(), calls);
  }

  /** Over a whole run an id names at most one object: whatever two moments are
      compared, if both look the id up successfully they find the same object. */
  lemma IdNamesOneObject<K>(calls: seq<Call<K>>, i: nat, j: nat, id: nat)
    requires i <= j <= |calls|
    ensures var t, u := Run(Empty<K>(), calls[..i]), Run(Empty<K>(), calls[..j]);
      t.Lookup(id).Some? && u.Lookup(id).Some? ==> t.Lookup(id) == u.Lookup(id)
  {
    Compare(calls, i, j);
  }

  lemma Compare<K>(calls: seq<Call<K>>, i: nat, j: nat)
    requires i <= j <= |calls|
    ensures Sane(Run(Empty<K>(), calls[..i])) && Outlives(Run(Empty<K>(), calls[..i]), Run(Empty<K>(), calls[..j]))
  {
    assert calls[..j] == calls[..i] + calls[i..j];
    RunSane(Empty<K>(), calls[..i]);
    RunSplit(Empty<K>(), calls[..i], calls[i..j]);
    RunSane(Run(Empty<K>(), calls[..i]), calls[i..j]);
  }

  /** An id that was issued and is no longer registered is never found again. */
  lemma GoneForever<K>(calls: seq<Call<K>>, i: nat, j: nat, id: nat)
    requires i <= j <= |calls|
    requires id < Run(Empty<K>(), calls[..i]).next && Run(Empty<K>(), calls[..i]).Lookup(id) == None
    ensures Run(Empty<K>(), calls[..j]).Lookup(id) == None
  {
    Compare(calls, i, j);
  }

  // ---- what is found, and when --------------------------------------------------------

  /** A registration fails if the object is published already, the ids have run out or there is no room, in this
      order. Otherwise the object is found under the next id, the one after it comes next,
      and every other id finds what it did. */
  lemma RegisterPublishes<K>(t: Table<K>, o: K, inserted: bool)
    requires Sane(t)
    ensures (exists id: nat :: t.Lookup(id) == Some(o)) ==> t.Register(o, inserted) == Failure(EALREADY)
    ensures (forall id: nat :: t.Lookup(id) != Some(o)) && t.next > 0xFFFF_FFFF ==> t.Register(o, inserted) == Failure(ENOSPC)
    ensures (forall id: nat :: t.Lookup(id) != Some(o)) && t.next <= 0xFFFF_FFFF && !inserted ==> t.Register(o, inserted) == Failure(ENOMEM)
    ensures (forall id: nat :: t.Lookup(id) != Some(o)) && t.next <= 0xFFFF_FFFF && inserted ==>
      && t.Register(o, inserted).Success?
      && var u := t.Register(o, inserted).value;
         && u.next == t.next + 1 && t.Lookup(t.next) == None && u.Lookup(t.next) == Some(o)
         && forall id: nat :: id != t.next ==> u.Lookup(id) == t.Lookup(id)
  {
    if t.Registered(o) {
      var id :| id in t.objects && t.objects[id] == o;
      assert t.Lookup(id) == Some(o);
    }
    if id: nat :| t.Lookup(id) == Some(o) { assert t.Registered(o); }
  }

  /** An unregistration takes away the id under which this object is found, and no other; it fails if the id
      does not find it. */
  lemma UnregisterHides<K>(t: Table<K>, id: nat, o: K)
    ensures t.Lookup(id) != Some(o) ==> t.Unregister(id, o) == Failure(ENOENT)
    ensures t.Lookup(id) == Some(o) ==>
      && t.Unregister(id, o).Success?
      && var u := t.Unregister(id, o).value;
         && u.next == t.next && u.Lookup(id) == None
         && forall k: nat :: k != id ==> u.Lookup(k) == t.Lookup(k)
  {
  }

  /** Call i registers o under this id. */
  ghost predicate PublishesAt<K>(calls: seq<Call<K>>, i: nat, id: nat, o: K)
    requires i < |calls|
  {
    var t := Run(Empty<K>(), calls[..i]);
    && calls[i] == Register(o, true) && t.next == id && 0 < id <= 0xFFFF_FFFF
    && forall k: nat :: t.Lookup(k) != Some(o)
  }

  /** Over a whole run an id finds an object exactly from the call that registered it, under what was the next id
      then, until it is unregistered by that id. */
  lemma {:induction false} FoundExactly<K>(calls: seq<Call<K>>, id: nat, o: K)
    ensures Run(Empty<K>(), calls).Lookup(id) == Some(o) <==>
      exists i :: 0 <= i < |calls| && PublishesAt(calls, i, id, o) && forall j :: i < j < |calls| ==> calls[j] != Unregister(id, o)
    decreases |calls|
  {
    if calls != [] {
      var last := |calls| - 1;
      var front := calls[..last];
      FoundExactly(front, id, o);
      FoundStep(calls, id, o);
      PublishedBefore(calls, id, o);
    }
  }

  /** One more call: found because of it, or still. */
  lemma FoundStep<K>(calls: seq<Call<K>>, id: nat, o: K)
    requires calls != []
    ensures var last := |calls| - 1;
      Run(Empty<K>(), calls).Lookup(id) == Some(o) <==>
        PublishesAt(calls, last, id, o) || (Run(Empty<K>(), calls[..last]).Lookup(id) == Some(o) && calls[last] != Unregister(id, o))
  {
    var last := |calls| - 1;
    var t := Run(Empty<K>(), calls[..last]);
    assert calls == calls[..last] + [calls[last]];
    RunSplit(Empty<K>(), calls[..last], [calls[last]]);
    RunSane(Empty<K>(), calls[..last]);
    assert Run(t, [calls[last]]) == Step(t, calls[last]) by { assert [calls[last]][1..] == []; }
    match calls[last]
    case Register(x, inserted) => RegisterPublishes(t, x, inserted);
    case Unregister(k, x) => UnregisterHides(t, k, x);
  }

  /** What was published and not hidden among these calls, or among all but the last. */
  lemma PublishedBefore<K>(calls: seq<Call<K>>, id: nat, o: K)
    requires calls != []
    ensures var last := |calls| - 1;
      (exists i :: 0 <= i < |calls| && PublishesAt(calls, i, id, o) && forall j :: i < j < |calls| ==> calls[j] != Unregister(id, o)) <==>
        || PublishesAt(calls, last, id, o)
        || (calls[last] != Unregister(id, o)
            && exists i :: 0 <= i < last && PublishesAt(calls[..last], i, id, o)
                           && forall j :: i < j < last ==> calls[..last][j] != Unregister(id, o))
  {
    var last := |calls| - 1;
    var front := calls[..last];
    forall i | 0 <= i < last ensures PublishesAt(front, i, id, o) == PublishesAt(calls, i, id, o) {
      assert front[..i] == calls[..i];
    }
    hide PublishesAt;
    if i :| 0 <= i < |calls| && PublishesAt(calls, i, id, o) && forall j :: i < j < |calls| ==> calls[j] != Unregister(id, o) {
      if i < last { assert PublishesAt(front, i, id, o); }
    }
    if i :| 0 <= i < last && PublishesAt(front, i, id, o) && forall j :: i < j < last ==> front[j] != Unregister(id, o) {
      assert PublishesAt(calls, i, id, o);
      assert forall j :: i < j < last ==> calls[j] == front[j];
    }
  }

  // ---- objects and their manager, in place --------------------------------------------

  const TYPE_DEVICE: nat := 4

  /** struct virtusb_object. */
  class Object {
    var id: nat
    var kind: nat
    var registered: bool
    var refcount: nat
    var released: bool    // the release callback has run

    /** virtusb_object_alloc. */
    constructor ()
      ensures id == 0 && kind == 0 && !registered && refcount == 1 && !released
    {
      id, kind, registered, refcount, released := 0, 0, false, 1, false;
    }

    /** virtusb_object_get. */
    method Get()
      requires refcount > 0
      modifies this`refcount
      ensures refcount == old(refcount) + 1
    {
      refcount := refcount + 1;
    }

    /** virtusb_object_put: the last reference releases the object, once. */
    method Put()
      requires refcount > 0 && !released
      modifies this`refcount, this`released
      ensures refcount == old(refcount) - 1 && released == (refcount == 0)
    {
      refcount := refcount - 1;
      if refcount == 0 {
        released := true;
      }
    }
  }

  class ObjectManager {
    var objects: map<nat, Object>
    var next: nat

    function Contents(): Table<Object>
      reads this
    {
      Table(objects, next)
    }

    /** Every published object knows its id, and the registry holds a reference to it. */
    ghost predicate Valid()
      reads this, objects.Values
    {
      && Sane(Contents())
      && forall id :: id in objects ==>
           objects[id].id == id && objects[id].registered && objects[id].refcount > 0 && !objects[id].released
    }

    /** An object's flag says whether it is published here. */
    ghost predicate Knows(o: Object)
      reads this, o
    {
      o.registered == Contents().Registered(o)
    }

    /** virtusb_object_manager_init. */
    constructor ()
      ensures Valid() && Contents() == Empty()
    {
      objects, next := map[], 1;
    }

    /** virtusb_object_register. */
    method Register(o: Object, kind: nat, inserted: bool) returns (error: Option<Errno>)
      requires Valid() && Knows(o) && o.refcount > 0 && !o.released
      modifies this, o
      ensures Valid() && Knows(o) && !o.released
      ensures error ==
        if kind == 0 || kind > 4 then Some(EINVAL) else if old(o.registered) then Some(EALREADY)
        else if old(next) > 0xFFFF_FFFF then Some(ENOSPC) else if !inserted then Some(ENOMEM) else None
      ensures error == None ==>
        && o.registered && objects == old(objects)[o.id := o] && next == old(next) + 1 && Contents().Lookup(o.id) == Some(o)
        && old(Contents()).Register(o, inserted) == Success(Contents())
        && o.id == old(next) && o.kind == kind && o.refcount == old(o.refcount) + 1
      ensures error != None ==>
        && Contents() == old(Contents())
        && o.id == old(o.id) && o.kind == old(o.kind) && o.refcount == old(o.refcount) && o.registered == old(o.registered)
    {
      if kind == 0 || kind > TYPE_DEVICE {
        return Some(EINVAL);
      }
      if o.registered {
        return Some(EALREADY);
      }
      if next > U32_MAX {
        return Some(ENOSPC);
      }
      assert forall id :: id in objects ==> objects[id] != o;
      o.Get();
      if !inserted {
        o.Put();
        return Some(ENOMEM);
      }
      objects := objects[next := o];
      o.id, o.kind, o.registered := next, kind, true;
      next := next + 1;
      assert Contents().Registered(o) by { assert o.id in objects; }
      return None;
    }

    /** virtusb_object_unregister. */
    method Unregister(o: Object) returns (error: Option<Errno>)
      requires Valid() && Knows(o)
      modifies this, o
      ensures Valid() && Knows(o)
      ensures error == if old(o.registered) then None else Some(ENOENT)
      ensures error == None ==>
        && !o.registered && objects == old(objects) - {o.id} && next == old(next) && Contents().Lookup(o.id) == None
        && old(Contents()).Unregister(o.id, o) == Success(Contents())
        && o.refcount == old(o.refcount) - 1 && o.released == (o.refcount == 0)
      ensures error != None ==> Contents() == old(Contents()) && o.refcount == old(o.refcount) && o.released == old(o.released)
      ensures o.id == old(o.id) && o.kind == old(o.kind)
    {
      if !o.registered || o.id == 0 {
        return Some(ENOENT);
      }
      if o.id !in objects || objects[o.id] != o {
        return Some(ENOENT);
      }
      objects := objects - {o.id};
      o.registered := false;
      o.Put();
      return None;
    }

    /** virtusb_object_lookup. */
    method Lookup(id: nat) returns (o: Object?)
      requires Valid()
      modifies objects.Values
      ensures Valid() && Contents() == old(Contents())
      ensures o == null <==> id !in objects
      ensures o != null ==> objects[id] == o && Contents().Lookup(id) == Some(o)
      ensures o != null ==> o.refcount == old(o.refcount) + 1
    {
      if id == 0 || id !in objects {
        return null;
      }
      o := objects[id];
      o.Get();
    }

    /** virtusb_object_lookup_first_by_type. */
    method LookupFirstByType(kind: nat) returns (o: Object?)
      requires Valid()
      modifies objects.Values
      ensures Valid() && Contents() == old(Contents())
      ensures o == null ==> forall id :: id in objects ==> objects[id].kind != kind
      ensures o != null ==>
        && Contents().Lookup(o.id) == Some(o) && o.kind == kind && o.refcount == old(o.refcount) + 1
        && forall id :: id in objects && id < o.id ==> objects[id].kind != kind
    {
      var id := 1;
      while id < next
        invariant 1 <= id <= next && forall k :: k in objects && k < id ==> objects[k].kind != kind
      {
        if id in objects && objects[id].kind == kind {
          o := objects[id];
          o.Get();
          return;
        }
        id := id + 1;
      }
      return null;
    }
  }
}
