/** The objects of the pod-startup checker: pods, persistent volume claims and node pools that match its
    selector. Any call may fail, before or after it took effect. Deleting an object only marks it; it is
    gone once the cluster has finished with it, and it is listed until then. */
module SyntheticObjects {
  import opened Api

  /** mine: the object matches this checker's selector. */
  datatype Object = Object(created: Time, mine: bool, terminating: bool)

  type Objects = map<string, Object>

  /** Refused: no effect. Lost: the call took effect, the caller sees an error. */
  datatype Reply = Done | Refused | Lost

  /** What others do to the objects: some go, some are marked for deletion. */
  datatype Disturbance = Disturbance(gone: set<string>, marked: set<string>)

  const UNDISTURBED := Disturbance({}, {})

  function Mine(objects: Objects): set<string> {
    set n | n in objects && objects[n].mine
  }

  function Marked(objects: Objects, names: set<string>): Objects {
    map n | n in objects :: if n in names then objects[n].(terminating := true) else objects[n]
  }

  function Disturbed(objects: Objects, d: Disturbance): Objects {
    Marked(objects, d.marked) - d.gone
  }

  lemma MineOfPut(objects: Objects, n: string, o: Object)
    requires n !in objects && o.mine
    ensures Mine(objects[n := o]) == Mine(objects) + {n} && |Mine(objects[n := o])| == |Mine(objects)| + 1
  {
    assert Mine(objects[n := o]) == Mine(objects) + {n};
  }

  lemma MineOfMarked(objects: Objects, names: set<string>)
    ensures Mine(Marked(objects, names)) == Mine(objects)
  {}

  lemma Subset(a: set<string>, b: set<string>)
    requires a <= b
    ensures |a| <= |b|
  {
    assert b == a + (b - a);
  }

  // ----- Comparing two moments -----

  predicate Evolves(a: Object, b: Object) {
    b == a || b == a.(terminating := true)
  }

  /** Nothing has come; what is left has at most been marked. */
  ghost predicate LessOf(before: Objects, after: Objects) {
    forall n :: n in after ==> n in before && Evolves(before[n], after[n])
  }

  /** Of what has come since, only objects of those names are left, and they are being deleted. */
  ghost predicate Remains(before: Objects, after: Objects, names: set<string>) {
    forall n :: n in after ==> (n in before && Evolves(before[n], after[n])) || (n in names && after[n].terminating)
  }

  /** The same objects, marked or not. */
  ghost predicate SameNames(a: Objects, b: Objects) {
    a.Keys == b.Keys && Mine(a) == Mine(b)
  }

  lemma DisturbedSame(objects: Objects, d: Disturbance)
    ensures d.gone == {} ==> SameNames(objects, Disturbed(objects, d))
    ensures forall n :: n in Disturbed(objects, d) <==> n in objects && n !in d.gone
  {}

  lemma SameTransitive(a: Objects, b: Objects, c: Objects)
    ensures SameNames(a, b) && SameNames(b, c) ==> SameNames(a, c)
  {}

  lemma FewerMine(before: Objects, after: Objects)
    requires LessOf(before, after)
    ensures |Mine(after)| <= |Mine(before)|
  {
    Subset(Mine(after), Mine(before));
  }

  lemma LessTransitive(a: Objects, b: Objects, c: Objects)
    ensures LessOf(a, b) && LessOf(b, c) ==> LessOf(a, c)
  {}

  lemma RemainsLess(a: Objects, b: Objects, c: Objects, names: set<string>)
    ensures Remains(a, b, names) && LessOf(b, c) ==> Remains(a, c, names)
    ensures LessOf(a, b) && Remains(b, c, names) ==> Remains(a, c, names)
  {}

  lemma DisturbedLess(objects: Objects, d: Disturbance)
    ensures LessOf(objects, Disturbed(objects, d)) && |Mine(Disturbed(objects, d))| <= |Mine(objects)|
    ensures d == UNDISTURBED ==> Disturbed(objects, d) == objects
  {
    FewerMine(objects, Disturbed(objects, d));
  }

  // ----- The store -----

  /** One kind of object. peak is the largest number of the checker's own objects there has ever been. */
  class Store {
    var objects: Objects
    ghost var peak: nat

    ghost predicate Valid()
      reads this
    {
      |Mine(objects)| <= peak
    }

    /** Others act. */
    method Disturb(d: Disturbance)
      requires Valid()
      modifies this`objects
      ensures Valid() && objects == Disturbed(old(objects), d) && LessOf(old(objects), objects)
    {
      DisturbedLess(objects, d);
      objects := Disturbed(objects, d);
    }

    method List(reply: Reply) returns (ok: bool, items: map<string, Time>)
      requires Valid()
      ensures ok <==> reply.Done?
      ensures ok ==> items.Keys == Mine(objects) && forall n :: n in items ==> items[n] == objects[n].created
    {
      ok := reply.Done?;
      items := map n | n in objects && objects[n].mine :: objects[n].created;
    }

    /** Fails if the name is taken, even by an object that is being deleted. */
    method Create(name: string, now: Time, reply: Reply) returns (ok: bool)
      requires Valid()
      modifies this
      ensures Valid() && peak == (if |Mine(objects)| > old(peak) then |Mine(objects)| else old(peak))
      ensures ok <==> reply.Done? && name !in old(objects)
      ensures objects == if reply.Refused? || name in old(objects) then old(objects) else old(objects)[name := Object(now, true, false)]
    {
      ok := reply.Done? && name !in objects;
      if !reply.Refused? && name !in objects {
        objects := objects[name := Object(now, true, false)];
      }
      peak := if |Mine(objects)| > peak then |Mine(objects)| else peak;
    }

    /** An object that is not found counts as deleted. */
    method Delete(name: string, reply: Reply) returns (ok: bool)
      requires Valid()
      modifies this`objects
      ensures Valid() && objects == (if reply.Refused? then old(objects) else Marked(old(objects), {name}))
      ensures ok <==> reply.Done?
    {
      ok := reply.Done?;
      if !reply.Refused? {
        MineOfMarked(objects, {name});
        objects := Marked(objects, {name});
      }
    }
  }

  class Clock {
    var now: Time

    method Read() returns (t: Time)
      modifies this
      ensures t == now && old(now) <= now
    {
      var elapsed: int := *;
      if elapsed > 0 {
        now := now + elapsed;
      }
      t := now;
    }
  }

  // ----- Garbage collection -----

  /** How the server answers a collection. */
  datatype Collection = Collection(list: Reply, deletes: string -> Reply)

  /** The checker's own objects that are older than timeout. */
  function Outdated(objects: Objects, timeout: Time, now: Time): set<string> {
    set n | n in Mine(objects) && now - objects[n].created > timeout
  }

  function Deleted(objects: Objects, due: set<string>, c: Collection): Objects {
    Marked(objects, set n | n in due && !c.deletes(n).Refused?)
  }

  predicate Succeeds(due: set<string>, c: Collection) {
    c.list.Done? && forall n :: n in due ==> c.deletes(n).Done?
  }

  /** Each own object that was older than timeout is being deleted, if the list and its deletion took effect. */
  ghost predicate OldMarked(was: Objects, objects: Objects, timeout: Time, now: Time, c: Collection) {
    c.list.Done? ==>
      forall n :: n in was && was[n].mine && now - was[n].created > timeout && !c.deletes(n).Refused? ==>
        n in objects && objects[n].terminating
  }

  /** Each object that is not the checker's own, or not older than timeout, is as it was. */
  ghost predicate YoungKept(was: Objects, objects: Objects, timeout: Time, now: Time) {
    && objects.Keys == was.Keys
    && forall n :: n in was && (!was[n].mine || now - was[n].created <= timeout) ==> objects[n] == was[n]
  }

  lemma OldGo(objects: Objects, timeout: Time, from: Time, to: Time, due: set<string>, c: Collection)
    requires if c.list.Done? then Outdated(objects, timeout, from) <= due <= Outdated(objects, timeout, to) else due == {}
    ensures OldMarked(objects, Deleted(objects, due, c), timeout, from, c)
    ensures YoungKept(objects, Deleted(objects, due, c), timeout, to)
  {
    forall n | n in objects && objects[n].mine && from - objects[n].created > timeout && c.list.Done? ensures n in due {
      assert n in Outdated(objects, timeout, from);
    }
    forall n | n in objects && (!objects[n].mine || to - objects[n].created <= timeout) ensures n !in due {
      assert n !in Outdated(objects, timeout, to);
    }
  }

  lemma DeletedNext(objects: Objects, due: set<string>, c: Collection, name: string)
    ensures c.deletes(name).Refused? ==> Deleted(objects, due + {name}, c) == Deleted(objects, due, c)
    ensures !c.deletes(name).Refused? ==> Deleted(objects, due + {name}, c) == Marked(Deleted(objects, due, c), {name})
  {}

  lemma DeletedLess(objects: Objects, due: set<string>, c: Collection)
    ensures LessOf(objects, Deleted(objects, due, c)) && SameNames(objects, Deleted(objects, due, c))
    ensures due == {} ==> Deleted(objects, due, c) == objects
  {}

  /** Asks to delete each of the checker's objects that is found older than timeout, and no other, whether
      or not other deletions fail. due holds these objects: those outdated at the start are among them,
      and all of them are outdated at the end. */
  method CollectGarbage(store: Store, clock: Clock, timeout: Time, c: Collection) returns (ok: bool, ghost due: set<string>)
    requires store.Valid()
    modifies store`objects, clock
    ensures store.Valid() && old(clock.now) <= clock.now
    ensures if c.list.Done?
            then Outdated(old(store.objects), timeout, old(clock.now)) <= due <= Outdated(old(store.objects), timeout, clock.now)
            else due == {}
    ensures store.objects == Deleted(old(store.objects), due, c)
    ensures ok <==> Succeeds(due, c)
    ensures OldMarked(old(store.objects), store.objects, timeout, old(clock.now), c) && YoungKept(old(store.objects), store.objects, timeout, clock.now)
  {
    hide Deleted, OldMarked, YoungKept;
    due := {};
    DeletedLess(store.objects, due, c);
    var items;
    ok, items := store.List(c.list);
    if !ok {
      OldGo(store.objects, timeout, clock.now, clock.now, due, c);
      return;
    }
    var todo := items;
    while todo != map[]
      invariant store.Valid() && old(clock.now) <= clock.now
      invariant todo.Keys <= Mine(old(store.objects))
      invariant forall n :: n in todo ==> todo[n] == old(store.objects)[n].created
      invariant Outdated(old(store.objects), timeout, old(clock.now)) <= due + todo.Keys
      invariant due <= Outdated(old(store.objects), timeout, clock.now)
      invariant store.objects == Deleted(old(store.objects), due, c)
      invariant ok <==> Succeeds(due, c)
      decreases |todo|
    {
      var name :| name in todo;
      var now := clock.Read();
      if now - todo[name] > timeout {
        DeletedNext(old(store.objects), due, c, name);
        var deleted := store.Delete(name, c.deletes(name));
        ok := ok && deleted;
        due := due + {name};
      }
      todo := todo - {name};
    }
    OldGo(old(store.objects), timeout, old(clock.now), clock.now, due, c);
  }

  /** Asks to delete every object of the checker, however old. */
  method DeleteAll(store: Store, c: Collection) returns (ok: bool)
    requires store.Valid()
    modifies store`objects
    ensures store.Valid()
    ensures store.objects == if c.list.Done? then Deleted(old(store.objects), Mine(old(store.objects)), c) else old(store.objects)
    ensures ok <==> Succeeds(Mine(old(store.objects)), c)
  {
    hide Deleted;
    var items;
    ok, items := store.List(c.list);
    if !ok {
      return;
    }
    ghost var done := {};
    DeletedLess(store.objects, done, c);
    var todo := items.Keys;
    while todo != {}
      invariant store.Valid() && done + todo == Mine(old(store.objects))
      invariant store.objects == Deleted(old(store.objects), done, c)
      invariant ok <==> Succeeds(done, c)
      decreases |todo|
    {
      var name :| name in todo;
      DeletedNext(old(store.objects), done, c, name);
      var deleted := store.Delete(name, c.deletes(name));
      ok := ok && deleted;
      todo, done := todo - {name}, done + {name};
    }
  }
}
