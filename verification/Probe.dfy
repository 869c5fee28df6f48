/**
 Linear probing over a cyclic pool (`NameMap::fake_ip_for`, client/src/name_map.rs).

 The allocator tries the slots `(home + i) % POOL_SIZE` for i = 0, 1, ... and takes the
 first free one. This module proves that the set of slots in use does not depend on the
 order in which the homes arrive.
 */
module Probe {
  import opened Common
  import opened Sequences

  /** 198.18.0.1 ... 198.18.255.254 */
  const POOL_SIZE: nat := 65534

  type Slot = x: int | 0 <= x < POOL_SIZE

  /** How many probes after `home` the slot `s` is tried. */
  function Distance(home: Slot, s: Slot): (d: nat)
    ensures d < POOL_SIZE && (home + d) % POOL_SIZE == s
  {
    if home <= s then s - home else s + POOL_SIZE - home
  }

  /** `s` is free and no free slot is tried before it. */
  ghost predicate IsFirstFree(used: set<Slot>, home: Slot, s: Slot)
  {
    && s !in used
    && forall t: Slot :: t !in used ==> Distance(home, s) <= Distance(home, t)
  }

  /** No slot tried before probe `i` is free. */
  ghost predicate Tried(used: set<Slot>, home: Slot, i: nat)
  {
    forall t: Slot :: t !in used ==> i <= Distance(home, t)
  }

  lemma {:induction false} DistanceInverse(home: Slot, i: nat)
    requires i < POOL_SIZE
    ensures Distance(home, (home + i) % POOL_SIZE) == i
  {
  }

  lemma {:induction false} TriedNext(used: set<Slot>, home: Slot, i: nat)
    requires i < POOL_SIZE && Tried(used, home, i) && (home + i) % POOL_SIZE in used
    ensures Tried(used, home, i + 1)
  {
  }

  /** The slot the probe sequence from `home`, resumed at probe `i`, ends at. */
  function ProbeFrom(used: set<Slot>, home: Slot, i: nat): (r: Option<Slot>)
    requires i <= POOL_SIZE && Tried(used, home, i)
    ensures r.Some? ==> IsFirstFree(used, home, r.value)
    ensures r.None? <==> forall t: Slot :: t in used
    decreases POOL_SIZE - i
  {
    if i == POOL_SIZE then
      assert forall t: Slot :: Distance(home, t) < POOL_SIZE;
      None
    else
      var s: Slot := (home + i) % POOL_SIZE;
      if s !in used then
        DistanceInverse(home, i);
        Some(s)
      else
        TriedNext(used, home, i);
        ProbeFrom(used, home, i + 1)
  }

  function FirstFree(used: set<Slot>, home: Slot): (r: Option<Slot>)
    ensures r.Some? ==> IsFirstFree(used, home, r.value)
    ensures r.None? <==> forall t: Slot :: t in used
  {
    ProbeFrom(used, home, 0)
  }

  /** The slots in use after one more arrival with home slot `home`; unchanged when full. */
  function Place(used: set<Slot>, home: Slot): set<Slot>
  {
    match FirstFree(used, home)
    case None => used
    case Some(s) => used + {s}
  }

  lemma {:induction false} FirstFreeUnique(used: set<Slot>, home: Slot, s: Slot)
    requires IsFirstFree(used, home, s)
    ensures FirstFree(used, home) == Some(s)
  {
  }

  /** Once `p`, the first free slot from `home`, is used, the next one depends on `p` only. */
  lemma {:induction false} NextAfter(used: set<Slot>, home: Slot, p: Slot, r: Slot)
    requires IsFirstFree(used, home, p)
    requires r !in used + {p}
    ensures IsFirstFree(used + {p}, home, r) <==> IsFirstFree(used + {p}, p, r)
  {
  }

  /** Two arrivals in either order use the same slots. */
  lemma {:induction false} PlaceCommutes(used: set<Slot>, a: Slot, b: Slot)
    ensures Place(Place(used, a), b) == Place(Place(used, b), a)
  {
    var fa, fb := FirstFree(used, a), FirstFree(used, b);
    if fa.Some? {
      var p, q := fa.value, fb.value;
      if p != q {
        FirstFreeUnique(used + {p}, b, q);
        FirstFreeUnique(used + {q}, a, p);
        assert used + {p} + {q} == used + {q} + {p};
      } else {
        var ra := FirstFree(used + {p}, a);
        if ra.Some? {
          NextAfter(used, a, p, ra.value);
          NextAfter(used, b, p, ra.value);
          FirstFreeUnique(used + {p}, b, ra.value);
        }
      }
    }
  }

  /** The slots in use after a sequence of arrivals, given the home slot of each. */
  function PlaceAll<T>(used: set<Slot>, xs: seq<T>, home: T -> Slot): set<Slot>
    decreases |xs|
  {
    if xs == [] then used else PlaceAll(Place(used, home(xs[0])), xs[1..], home)
  }

  lemma {:induction false} MoveToFront<T>(used: set<Slot>, xs: seq<T>, home: T -> Slot, j: nat)
    requires j < |xs|
    ensures PlaceAll(used, xs, home) == PlaceAll(Place(used, home(xs[j])), xs[..j] + xs[j + 1..], home)
    decreases j
  {
    if j == 0 {
      assert xs[..0] + xs[1..] == xs[1..];
    } else {
      var rest := xs[..j] + xs[j + 1..];
      MoveToFront(Place(used, home(xs[0])), xs[1..], home, j - 1);
      assert xs[1..][..j - 1] + xs[1..][j..] == rest[1..];
      PlaceCommutes(used, home(xs[0]), home(xs[j]));
    }
  }

  /** The slots in use do not depend on the order of the arrivals. */
  lemma {:induction false} PlaceAllPermutation<T>(used: set<Slot>, xs: seq<T>, ys: seq<T>, home: T -> Slot)
    requires multiset(xs) == multiset(ys)
    ensures PlaceAll(used, xs, home) == PlaceAll(used, ys, home)
    decreases |xs|
  {
    if xs == [] {
      SameLength(xs, ys);
    } else {
      var j := MatchFirst(xs, ys);
      MoveToFront(used, ys, home, j);
      PlaceAllPermutation(Place(used, home(xs[0])), xs[1..], ys[..j] + ys[j + 1..], home);
    }
  }

  /** A full pool stays as it is. */
  lemma {:induction false} PlaceAllFull<T>(used: set<Slot>, xs: seq<T>, home: T -> Slot)
    requires forall t: Slot :: t in used
    ensures PlaceAll(used, xs, home) == used
  {
    if xs != [] { PlaceAllFull(used, xs[1..], home); }
  }
}
