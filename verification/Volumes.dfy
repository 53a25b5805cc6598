/** The pod-startup checker's persistent volume claims: one per enabled CSI type in every run. */
module Volumes {
  import opened Api
  import opened SyntheticObjects

  datatype CsiType = AzureDisk | AzureFile | AzureBlob | UnsupportedCsi(name: string)

  datatype Csi = Csi(kind: CsiType, storageClass: string)

  function Prefix(kind: CsiType): string {
    match kind
    case AzureDisk => "clusterhealthmonitor-azuredisk-pvc"
    case AzureFile => "clusterhealthmonitor-azurefile-pvc"
    case AzureBlob => "clusterhealthmonitor-azureblob-pvc"
    case UnsupportedCsi(_) => ""
  }

  /** The name of a claim says nothing about its storage class. */
  function PvcName(kind: CsiType, stamp: string): string {
    Prefix(kind) + "-" + stamp
  }

  lemma PvcNameInjective(a: CsiType, b: CsiType, stamp: string)
    requires !a.UnsupportedCsi? && !b.UnsupportedCsi?
    ensures PvcName(a, stamp) == PvcName(b, stamp) <==> a == b
  {
    assert PvcName(a, stamp)[26] == Prefix(a)[26] && PvcName(b, stamp)[26] == Prefix(b)[26];
  }

  /** The claims a run can create: all types supported, and no type twice. */
  ghost predicate Creatable(csis: seq<Csi>) {
    && (forall i :: 0 <= i < |csis| ==> !csis[i].kind.UnsupportedCsi?)
    && (forall i, j :: 0 <= i < j < |csis| ==> csis[i].kind != csis[j].kind)
  }

  function PvcNames(csis: seq<Csi>, stamp: string): set<string> {
    if csis == [] then {}
    else
      var last := csis[|csis| - 1].kind;
      PvcNames(csis[..|csis| - 1], stamp) + (if last.UnsupportedCsi? then {} else {PvcName(last, stamp)})
  }

  /** A claim of that name is there exactly when its type is. */
  lemma {:induction false} NameAmong(csis: seq<Csi>, kind: CsiType, stamp: string)
    requires !kind.UnsupportedCsi?
    ensures PvcName(kind, stamp) in PvcNames(csis, stamp) <==> exists i :: 0 <= i < |csis| && csis[i].kind == kind
  {
    hide PvcName;
    if csis != [] {
      var last := csis[|csis| - 1].kind;
      NameAmong(csis[..|csis| - 1], kind, stamp);
      if !last.UnsupportedCsi? {
        PvcNameInjective(last, kind, stamp);
      }
    }
  }

  /** Whether the next claim can be created after the first k. */
  lemma CreatableNext(csis: seq<Csi>, k: nat, stamp: string)
    requires k < |csis| && Creatable(csis[..k])
    ensures var kind := csis[k].kind;
            && (Creatable(csis[..k + 1]) <==> !kind.UnsupportedCsi? && PvcName(kind, stamp) !in PvcNames(csis[..k], stamp))
            && (!Creatable(csis[..k + 1]) ==> !Creatable(csis))
            && (!kind.UnsupportedCsi? ==>
                  PvcNames(csis[..k + 1], stamp) == PvcNames(csis[..k], stamp) + {PvcName(kind, stamp)}
                  && PvcName(kind, stamp) in PvcNames(csis, stamp))
  {
    hide PvcName, PvcNames, Creatable;
    CreatableWithNext(csis, k);
    var kind := csis[k].kind;
    if !kind.UnsupportedCsi? {
      NameAmong(csis[..k], kind, stamp);
      NameAmong(csis, kind, stamp);
      NamesNext(csis, k, stamp);
    }
  }

  lemma CreatableWithNext(csis: seq<Csi>, k: nat)
    requires k < |csis| && Creatable(csis[..k])
    ensures Creatable(csis[..k + 1]) <==>
              !csis[k].kind.UnsupportedCsi? && !exists i :: 0 <= i < |csis[..k]| && csis[..k][i].kind == csis[k].kind
    ensures !Creatable(csis[..k + 1]) ==> !Creatable(csis)
  {
    var next := csis[..k + 1];
    assert next[k] == csis[k] && forall i :: 0 <= i < k ==> next[i] == csis[..k][i];
  }

  /** The store after claims of those names have been created. */
  ghost predicate Extended(before: Objects, after: Objects, names: set<string>, now: Time) {
    && after.Keys == before.Keys + names
    && names !! before.Keys
    && (forall n :: n in before ==> after[n] == before[n])
    && (forall n :: n in names ==> after[n] == Object(now, true, false))
  }

  /** replies[i] is how the server answers the i-th create. */
  method CreateCsiResources(store: Store, csis: seq<Csi>, stamp: string, now: Time, replies: seq<Reply>)
    returns (ok: bool, ghost created: nat)
    requires store.Valid() && |replies| == |csis|
    modifies store
    ensures store.Valid() && ClaimsLeft(old(store.objects), store.objects, csis, stamp, replies, created, now)
    ensures ok <==> created == |csis|
    ensures ok <==> CanCreate(old(store.objects), csis, stamp, replies)
    ensures Bounded(old(store.objects), old(store.peak), store.objects, store.peak, |csis|)
  {
    hide PvcName, PvcNames, Creatable, Mine, Extended, CanCreate, Bounded, StopsAt;
    created := 0;
    NothingCreated(store.objects, stamp, now);
    for k := 0 to |csis|
      invariant store.Valid() && created == k
      invariant Creatable(csis[..k]) && forall i :: 0 <= i < k ==> replies[i].Done?
      invariant Extended(old(store.objects), store.objects, PvcNames(csis[..k], stamp), now)
      invariant Bounded(old(store.objects), old(store.peak), store.objects, store.peak, k)
    {
      var kind := csis[k].kind;
      ghost var before, peak := store.objects, store.peak;
      CreatableNext(csis, k, stamp);
      BoundedMore(old(store.objects), old(store.peak), before, peak, k, |csis|);
      CreateBlocked(old(store.objects), before, csis, k, stamp, now, replies);
      Stops(old(store.objects), before, csis, k, stamp, now, replies);
      if kind.UnsupportedCsi? {
        return false, k;
      }
      var name := PvcName(kind, stamp);
      ok := store.Create(name, now, replies[k]);
      if name !in before {
        ExtendOne(old(store.objects), before, PvcNames(csis[..k], stamp), now, name);
      }
      BoundedOne(old(store.objects), old(store.peak), before, peak, store.objects, store.peak, k, name, now);
      BoundedMore(old(store.objects), old(store.peak), store.objects, store.peak, k + 1, |csis|);
      if !ok {
        return false, k;
      }
      created := k + 1;
    }
    assert csis[..|csis|] == csis;
    AllCreated(old(store.objects), store.objects, csis, stamp, now, replies);
    StopsAtEnd(old(store.objects), csis, stamp, replies);
    ok := true;
  }

  lemma StopsAtEnd(objects: Objects, csis: seq<Csi>, stamp: string, replies: seq<Reply>)
    requires |csis| == |replies| && Creatable(csis) && forall i :: 0 <= i < |csis| ==> replies[i].Done?
    ensures StopsAt(objects, csis, stamp, replies, |csis|)
  {
    assert csis[..|csis|] == csis;
  }

  lemma AllCreated(before: Objects, after: Objects, csis: seq<Csi>, stamp: string, now: Time, replies: seq<Reply>)
    requires Creatable(csis) && |replies| == |csis| && forall i :: 0 <= i < |csis| ==> replies[i].Done?
    requires Extended(before, after, PvcNames(csis, stamp), now)
    ensures CanCreate(before, csis, stamp, replies)
  {
    forall r | r in replies ensures r.Done? {
      var i :| 0 <= i < |replies| && replies[i] == r;
    }
  }

  lemma Stops(objects: Objects, mid: Objects, csis: seq<Csi>, k: nat, stamp: string, now: Time, replies: seq<Reply>)
    requires k < |csis| == |replies| && Creatable(csis[..k]) && Extended(objects, mid, PvcNames(csis[..k], stamp), now)
    requires forall i :: 0 <= i < k ==> replies[i].Done?
    ensures csis[k].kind.UnsupportedCsi? || !replies[k].Done? || PvcName(csis[k].kind, stamp) in mid ==>
              StopsAt(objects, csis, stamp, replies, k)
  {
    hide PvcName, PvcNames, Creatable;
    CreatableNext(csis, k, stamp);
  }

  lemma CreateBlocked(before: Objects, mid: Objects, csis: seq<Csi>, k: nat, stamp: string, now: Time, replies: seq<Reply>)
    requires k < |csis| == |replies| && Creatable(csis[..k]) && Extended(before, mid, PvcNames(csis[..k], stamp), now)
    ensures var kind := csis[k].kind;
            kind.UnsupportedCsi? || !replies[k].Done? || PvcName(kind, stamp) in mid ==> !CanCreate(before, csis, stamp, replies)
    ensures !csis[k].kind.UnsupportedCsi? && PvcName(csis[k].kind, stamp) !in mid ==> Creatable(csis[..k + 1])
  {
    hide PvcName, PvcNames, Creatable;
    CreatableNext(csis, k, stamp);
    assert replies[k] in replies;
  }

  lemma BoundedMore(before: Objects, peak: nat, after: Objects, peak': nat, k: nat, n: nat)
    requires Bounded(before, peak, after, peak', k) && k <= n
    ensures Bounded(before, peak, after, peak', n)
  {}

  lemma BoundedOne(before: Objects, peak: nat, mid: Objects, midPeak: nat,
                   after: Objects, afterPeak: nat, k: nat, name: string, now: Time)
    requires Bounded(before, peak, mid, midPeak, k)
    requires after == mid || (name !in mid && after == mid[name := Object(now, true, false)])
    requires afterPeak == if |Mine(after)| > midPeak then |Mine(after)| else midPeak
    requires |Mine(mid)| <= midPeak
    ensures Bounded(before, peak, after, afterPeak, k + 1)
  {
    if name !in mid {
      MineOfPut(mid, name, Object(now, true, false));
    }
  }

  lemma ExtendOne(before: Objects, mid: Objects, names: set<string>, now: Time, name: string)
    requires Extended(before, mid, names, now) && name !in mid
    ensures Extended(before, mid[name := Object(now, true, false)], names + {name}, now)
  {}

  lemma NothingCreated(objects: Objects, stamp: string, now: Time)
    ensures Creatable([]) && PvcNames([], stamp) == {} && Extended(objects, objects, {}, now)
    ensures forall peak :: Bounded(objects, peak, objects, peak, 0)
  {}

  /** The claims of the first created entries have come; the next entry, if there is one, is the one that
      failed, and its claim has come too if only the reply was lost. */
  ghost predicate ClaimsLeft(before: Objects, after: Objects, csis: seq<Csi>, stamp: string, replies: seq<Reply>, created: nat, now: Time) {
    && created <= |csis| == |replies|
    && StopsAt(before, csis, stamp, replies, created)
    && (|| Extended(before, after, PvcNames(csis[..created], stamp), now)
        || (created < |csis| && replies[created].Lost? && Extended(before, after, PvcNames(csis[..created + 1], stamp), now)))
  }

  /** Every create can succeed: no type twice, none unsupported, no name taken, no call failing. */
  ghost predicate CanCreate(objects: Objects, csis: seq<Csi>, stamp: string, replies: seq<Reply>) {
    Creatable(csis) && PvcNames(csis, stamp) !! objects.Keys && forall r :: r in replies ==> r.Done?
  }

  /** The first k entries can be created and the next one, if there is one, cannot. */
  ghost predicate StopsAt(objects: Objects, csis: seq<Csi>, stamp: string, replies: seq<Reply>, k: nat)
    requires k <= |csis| == |replies|
  {
    && Creatable(csis[..k]) && (forall i :: 0 <= i < k ==> replies[i].Done?)
    && (k < |csis| ==>
          || !replies[k].Done?
          || !Creatable(csis[..k + 1])
          || PvcName(csis[k].kind, stamp) in objects)
  }

  /** If the server does everything it is asked, a configuration that names a type twice, or one that
      is not supported after one that is, leaves claims behind that no deferred call will delete. */
  lemma CollisionLeaks(before: Objects, after: Objects, csis: seq<Csi>, stamp: string, now: Time, replies: seq<Reply>, created: nat)
    requires created <= |csis| == |replies| && StopsAt(before, csis, stamp, replies, created)
    requires forall r :: r in replies ==> r.Done?
    requires PvcNames(csis, stamp) !! before.Keys
    requires !Creatable(csis) && !csis[0].kind.UnsupportedCsi?
    requires Extended(before, after, PvcNames(csis[..created], stamp), now)
    ensures created < |csis|
    ensures PvcName(csis[0].kind, stamp) in Mine(after) && PvcName(csis[0].kind, stamp) !in Mine(before)
  {
    hide PvcName;
    var name := PvcName(csis[0].kind, stamp);
    NameAmong(csis, csis[0].kind, stamp);
    assert csis[..|csis|] == csis;
    assert Creatable(csis[..1]) && replies[0] in replies;
    assert created > 0 && csis[..created][0] == csis[0];
    NameAmong(csis[..created], csis[0].kind, stamp);
  }

  lemma {:induction false} NamesCount(csis: seq<Csi>, stamp: string)
    requires Creatable(csis)
    ensures |PvcNames(csis, stamp)| == |csis|
  {
    hide PvcName;
    if csis != [] {
      var k := |csis| - 1;
      NamesCount(csis[..k], stamp);
      CreatableNext(csis, k, stamp);
      assert csis[..k + 1] == csis;
    }
  }

  lemma ExtendedCount(before: Objects, after: Objects, names: set<string>, now: Time)
    requires Extended(before, after, names, now)
    ensures |Mine(after)| == |Mine(before)| + |names|
  {
    assert Mine(after) == Mine(before) + names;
    assert Mine(before) !! names;
  }

  /** At most n objects more than before, at any time. */
  ghost predicate Bounded(before: Objects, peak: nat, after: Objects, peak': nat, n: nat) {
    && |Mine(after)| <= |Mine(before)| + n
    && (peak' == peak || peak' <= |Mine(before)| + n)
  }

  lemma {:induction false} NamesEndInStamp(csis: seq<Csi>, stamp: string)
    ensures forall n :: n in PvcNames(csis, stamp) ==> |n| >= 35 && n[35..] == stamp
  {
    if csis != [] {
      NamesEndInStamp(csis[..|csis| - 1], stamp);
      var last := csis[|csis| - 1].kind;
      if !last.UnsupportedCsi? {
        assert Prefix(last) + "-" + stamp == PvcName(last, stamp);
      }
    }
  }

  // ----- Deletion -----

  /** Deletes the claims in order and stops at the first entry that is not supported or whose deletion
      is not acknowledged. */
  method DeleteCsiResources(store: Store, csis: seq<Csi>, stamp: string, replies: seq<Reply>) returns (ok: bool, ghost stopped: nat)
    requires store.Valid() && |replies| == |csis|
    modifies store`objects
    ensures store.Valid() && stopped <= |csis|
    ensures forall i :: 0 <= i < stopped ==> !csis[i].kind.UnsupportedCsi? && replies[i].Done?
    ensures stopped < |csis| ==> csis[stopped].kind.UnsupportedCsi? || !replies[stopped].Done?
    ensures ok <==> stopped == |csis|
    ensures store.objects == Marked(old(store.objects), PvcNames(csis[..Reached(csis, replies, stopped)], stamp))
  {
    hide PvcName, PvcNames, Marked;
    stopped := 0;
    NoneMarked(store.objects, stamp);
    for k := 0 to |csis|
      invariant store.Valid() && stopped == k
      invariant forall i :: 0 <= i < k ==> !csis[i].kind.UnsupportedCsi? && replies[i].Done?
      invariant store.objects == Marked(old(store.objects), PvcNames(csis[..k], stamp))
    {
      var kind := csis[k].kind;
      NamesNext(csis, k, stamp);
      if kind.UnsupportedCsi? {
        assert PvcNames(csis[..k + 1], stamp) == PvcNames(csis[..k], stamp);
        return false, k;
      }
      var name := PvcName(kind, stamp);
      MarkedMore(old(store.objects), PvcNames(csis[..k], stamp), {name});
      ok := store.Delete(name, replies[k]);
      if !ok {
        return false, k;
      }
      stopped := k + 1;
    }
    ok := true;
  }

  /** A deletion whose reply was lost took effect. */
  function Reached(csis: seq<Csi>, replies: seq<Reply>, stopped: nat): (n: nat)
    requires stopped <= |csis| == |replies|
    ensures stopped <= n <= |csis|
  {
    if stopped < |csis| && replies[stopped].Lost? then stopped + 1 else stopped
  }

  lemma NoneMarked(objects: Objects, stamp: string)
    ensures PvcNames([], stamp) == {} && Marked(objects, {}) == objects
  {}

  lemma NamesNext(csis: seq<Csi>, k: nat, stamp: string)
    requires k < |csis|
    ensures PvcNames(csis[..k + 1], stamp) ==
            PvcNames(csis[..k], stamp) + (if csis[k].kind.UnsupportedCsi? then {} else {PvcName(csis[k].kind, stamp)})
  {
    assert csis[..k + 1][..k] == csis[..k];
  }

  lemma MarkedMore(objects: Objects, names: set<string>, more: set<string>)
    ensures Marked(Marked(objects, names), more) == Marked(objects, names + more)
  {}

  /** What was created and then deleted is at most still terminating; the rest can only have become less. */
  lemma CreatedAndDeleted(start: Objects, extended: Objects, before: Objects, names: set<string>, now: Time)
    requires Extended(start, extended, names, now) && LessOf(extended, before)
    ensures Remains(start, Marked(before, names), names)
  {}
}
