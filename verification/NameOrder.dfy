/**
 What arrival order can and cannot change about the allocator: the addresses in use never
 depend on it, and neither does the assignment when no two names share a home slot.
 */
module NameOrder {
  import opened Common
  import opened Names
  import opened Probe
  import opened NameMapModel

  function AssignAll(st: State, names: seq<Bytes>): State
    decreases |names|
  {
    if names == [] then st else AssignAll(Assign(st, names[0]).0, names[1..])
  }

  /** The valid names of `names` outside `seen`, each where it first arrives. */
  function Fresh(names: seq<Bytes>, seen: set<Bytes>): seq<Bytes>
    decreases |names|
  {
    if names == [] then []
    else if !IsResourceName(names[0]) || names[0] in seen then Fresh(names[1..], seen)
    else [names[0]] + Fresh(names[1..], seen + {names[0]})
  }

  lemma {:induction false} FreshOnce(names: seq<Bytes>, seen: set<Bytes>, n: Bytes)
    ensures multiset(Fresh(names, seen))[n] == if n in names && IsResourceName(n) && n !in seen then 1 else 0
    decreases |names|
  {
    if names != [] {
      assert names == [names[0]] + names[1..];
      FreshOnce(names[1..], seen, n);
      FreshOnce(names[1..], seen + {names[0]}, n);
    }
  }

  ghost predicate Full(st: State)
  {
    forall t: Slot :: t in UsedSlots(st)
  }

  lemma {:induction false} AssignPlaces(st: State, name: Bytes)
    requires st.conflicts == {} && IsResourceName(name) && name !in st.byName
    ensures UsedSlots(Assign(st, name).0) == Place(UsedSlots(st), HomeSlot(name))
  {
  }

  lemma {:induction false} AssignAllFull(st: State, names: seq<Bytes>)
    requires st.conflicts == {} && Full(st)
    ensures AssignAll(st, names) == st
    decreases |names|
  {
    if names != [] { AssignAllFull(st, names[1..]); }
  }

  /** Requests use the slots that probing for each new name once would use. */
  lemma {:induction false} AssignAllPlaces(st: State, names: seq<Bytes>, seen: set<Bytes>)
    requires st.conflicts == {} && (seen == st.byName.Keys || Full(st))
    ensures UsedSlots(AssignAll(st, names)) == PlaceAll(UsedSlots(st), Fresh(names, seen), HomeSlot)
    decreases |names|
  {
    if Full(st) {
      AssignAllFull(st, names);
      PlaceAllFull(UsedSlots(st), Fresh(names, seen), HomeSlot);
    } else if names != [] {
      var n := names[0];
      var st' := Assign(st, n).0;
      if IsResourceName(n) && n !in seen {
        AssignPlaces(st, n);
        AssignAllPlaces(st', names[1..], seen + {n});
        var rest := Fresh(names[1..], seen + {n});
        assert ([n] + rest)[1..] == rest;
      } else {
        AssignAllPlaces(st, names[1..], seen);
      }
    }
  }

  lemma {:induction false} AssignAllKeeps(st: State, names: seq<Bytes>)
    requires Inverse(st) && st.conflicts == {}
    ensures Inverse(AssignAll(st, names)) && Extends(st, AssignAll(st, names))
    decreases |names|
  {
    if names != [] {
      AssignKeeps(st, names[0]);
      AssignAllKeeps(Assign(st, names[0]).0, names[1..]);
    }
  }

  lemma {:induction false} SameSlotsSameAddresses(a: State, b: State)
    requires Inverse(a) && Inverse(b) && UsedSlots(a) == UsedSlots(b)
    ensures a.byIp.Keys == b.byIp.Keys
  {
    forall ip | POOL_FIRST <= ip <= POOL_LAST ensures ip in a.byIp <==> ip in b.byIp {
      var s: Slot := ip - POOL_FIRST;
      assert s in UsedSlots(a) <==> SlotAddress(s) in a.byIp;
      assert s in UsedSlots(b) <==> SlotAddress(s) in b.byIp;
    }
  }

  /** Two request sequences over the same names, in any order and with any repeats, occupy the same addresses. */
  lemma {:induction false} OccupiedOrderIndependent(st: State, xs: seq<Bytes>, ys: seq<Bytes>)
    requires Inverse(st) && st.conflicts == {}
    requires forall n :: n in xs <==> n in ys
    ensures AssignAll(st, xs).byIp.Keys == AssignAll(st, ys).byIp.Keys
  {
    var seen := st.byName.Keys;
    var fx, fy := Fresh(xs, seen), Fresh(ys, seen);
    forall n ensures multiset(fx)[n] == multiset(fy)[n] {
      FreshOnce(xs, seen, n);
      FreshOnce(ys, seen, n);
    }
    assert multiset(fx) == multiset(fy);
    PlaceAllPermutation(UsedSlots(st), fx, fy, HomeSlot);
    AssignAllPlaces(st, xs, seen);
    AssignAllPlaces(st, ys, seen);
    AssignAllKeeps(st, xs);
    AssignAllKeeps(st, ys);
    SameSlotsSameAddresses(AssignAll(st, xs), AssignAll(st, ys));
  }

  /** Every mapped name sits on its own home slot. */
  ghost predicate AllHome(st: State)
  {
    forall n :: n in st.byName ==> st.byName[n] == SlotAddress(HomeSlot(n))
  }

  ghost predicate DistinctHomes(names: set<Bytes>)
  {
    forall a, b :: a in names && b in names && a != b ==> HomeSlot(a) != HomeSlot(b)
  }

  lemma {:induction false} AssignHome(st: State, name: Bytes)
    requires Inverse(st) && st.conflicts == {} && AllHome(st)
    requires IsResourceName(name) && DistinctHomes(st.byName.Keys + {name})
    ensures AllHome(Assign(st, name).0) && name in Assign(st, name).0.byName
  {
    if name !in st.byName {
      var h := HomeSlot(name);
      assert SlotAddress(h) !in st.byIp;
      FirstFreeUnique(UsedSlots(st), h, h);
    }
  }

  /** Names whose home slots differ each get exactly that slot, in any order. */
  lemma {:induction false} HomeSlotsInAnyOrder(st: State, names: seq<Bytes>, all: set<Bytes>)
    requires Inverse(st) && st.conflicts == {} && AllHome(st)
    requires DistinctHomes(all) && st.byName.Keys <= all
    requires forall i :: 0 <= i < |names| && IsResourceName(names[i]) ==> names[i] in all
    ensures AllHome(AssignAll(st, names))
    ensures forall i :: 0 <= i < |names| && IsResourceName(names[i]) ==> names[i] in AssignAll(st, names).byName
    decreases |names|
  {
    if names != [] {
      var n := names[0];
      var st' := Assign(st, n).0;
      if IsResourceName(n) { AssignHome(st, n); }
      AssignKeeps(st, n);
      assert st'.byName.Keys <= all;
      HomeSlotsInAnyOrder(st', names[1..], all);
      AssignAllKeeps(st', names[1..]);
    }
  }

  /**
   When two names do share a home slot, the first to arrive keeps it, so the assignment
   depends on the order although the addresses in use do not.
   */
  lemma {:induction false} CollisionDependsOnOrder(a: Bytes, b: Bytes)
    requires IsResourceName(a) && IsResourceName(b) && a != b && HomeSlot(a) == HomeSlot(b)
    ensures AssignAll(EMPTY, [a, b]).byName != AssignAll(EMPTY, [b, a]).byName
    ensures AssignAll(EMPTY, [a, b]).byIp.Keys == AssignAll(EMPTY, [b, a]).byIp.Keys
  {
    AssignFirst(a, b);
    AssignFirst(b, a);
    OccupiedOrderIndependent(EMPTY, [a, b], [b, a]);
  }

  lemma {:induction false} AssignFirst(a: Bytes, b: Bytes)
    requires IsResourceName(a) && IsResourceName(b) && a != b && HomeSlot(a) == HomeSlot(b)
    ensures var m := AssignAll(EMPTY, [a, b]).byName;
            && a in m && m[a] == SlotAddress(HomeSlot(a))
            && (b in m ==> m[b] != SlotAddress(HomeSlot(a)))
  {
    assert [a, b][1..] == [b] && [b][1..] == [];
    FirstFreeUnique(UsedSlots(EMPTY), HomeSlot(a), HomeSlot(a));
    var st := Assign(EMPTY, a).0;
    AssignKeeps(EMPTY, a);
    AssignKeeps(st, b);
    assert AssignAll(st, [b]) == Assign(st, b).0;
  }
}
