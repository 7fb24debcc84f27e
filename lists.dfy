/** Order-keeping de-duplication, the pattern `if seen.insert(x) { out.push(x) }`
    that several parts of the system use, and filtering by membership. */
module Lists {
  import opened Wrappers

  function Elems<T>(xs: seq<T>): set<T> {
    set x | x in xs
  }

  predicate NoDup<T(==)>(xs: seq<T>) {
    forall i, j :: 0 <= i < j < |xs| ==> xs[i] != xs[j]
  }

  /** Push `p` unless it is already present. */
  function AddNew<T(==)>(acc: seq<T>, p: T): seq<T> {
    if p in acc then acc else acc + [p]
  }

  /** The values stored under `keys`, in the order of `keys`. */
  function Listed<K, V>(keys: seq<K>, m: map<K, V>): (r: seq<V>)
    requires forall k :: k in keys ==> k in m
    ensures |r| == |keys|
    ensures forall j :: 0 <= j < |keys| ==> r[j] == m[keys[j]]
  {
    seq(|keys|, j requires 0 <= j < |keys| => m[keys[j]])
  }

  /** Each item of `xs`, in order, offered to AddNew. */
  function DedupInto<T(==)>(acc: seq<T>, xs: seq<T>): seq<T>
    decreases |xs|
  {
    if xs == [] then acc else AddNew(DedupInto(acc, xs[..|xs| - 1]), xs[|xs| - 1])
  }

  /** First occurrences only, in order. */
  function Dedup<T(==)>(xs: seq<T>): seq<T> {
    DedupInto([], xs)
  }

  /** Offering one more item is one more AddNew. */
  lemma DedupIntoSnoc<T>(acc: seq<T>, xs: seq<T>, p: T)
    ensures DedupInto(acc, xs + [p]) == AddNew(DedupInto(acc, xs), p)
  {
    assert (xs + [p])[..|xs|] == xs;
  }

  lemma AddNewElems<T>(acc: seq<T>, p: T)
    ensures Elems(AddNew(acc, p)) == Elems(acc) + {p}
  {
    if p !in acc {
      assert Elems(acc + [p]) == Elems(acc) + {p};
    }
  }

  lemma {:induction false} DedupIntoAppend<T>(acc: seq<T>, a: seq<T>, b: seq<T>)
    ensures DedupInto(acc, a + b) == DedupInto(DedupInto(acc, a), b)
    decreases |b|
  {
    if b == [] {
      assert a + b == a;
    } else {
      assert (a + b)[..|a + b| - 1] == a + b[..|b| - 1];
      DedupIntoAppend(acc, a, b[..|b| - 1]);
    }
  }

  /** The result holds exactly the values of `acc` and `xs`. */
  lemma {:induction false} DedupIntoElems<T>(acc: seq<T>, xs: seq<T>)
    ensures Elems(DedupInto(acc, xs)) == Elems(acc) + Elems(xs)
    decreases |xs|
  {
    if xs != [] {
      var init := xs[..|xs| - 1];
      var p := xs[|xs| - 1];
      DedupIntoElems(acc, init);
      AddNewElems(DedupInto(acc, init), p);
      assert xs == init + [p];
      assert Elems(xs) == Elems(init) + {p};
    }
  }

  lemma DedupMember<T>(xs: seq<T>, x: T)
    ensures x in Dedup(xs) <==> x in xs
  {
    DedupIntoElems([], xs);
    assert x in Elems(Dedup(xs)) <==> x in Dedup(xs);
    assert x in Elems(xs) <==> x in xs;
  }

  /** The accumulated list only grows at its end, gains exactly the new items,
      and never holds a value twice. */
  lemma {:induction false} DedupIntoSpec<T>(acc: seq<T>, xs: seq<T>)
    requires NoDup(acc)
    ensures var r := DedupInto(acc, xs);
      && |acc| <= |r| && r[..|acc|] == acc
      && NoDup(r)
      && Elems(r) == Elems(acc) + Elems(xs)
    decreases |xs|
  {
    DedupIntoElems(acc, xs);
    if xs != [] {
      var init := xs[..|xs| - 1];
      DedupIntoSpec(acc, init);
      var r0 := DedupInto(acc, init);
      var p := xs[|xs| - 1];
      assert r0[..|acc|] == acc;
      if p !in r0 {
        assert (r0 + [p])[..|acc|] == acc;
      }
    }
  }

  /** De-duplicating a list that was built by offering `b` onto a raw `a` gives the
      same as de-duplicating `a` and `b` together. */
  lemma {:induction false} DedupOfDedupInto<T>(a: seq<T>, b: seq<T>)
    ensures Dedup(DedupInto(a, b)) == Dedup(a + b)
    decreases |b|
  {
    DedupIntoAppend([], a, b);
    if b != [] {
      var init := b[..|b| - 1];
      var p := b[|b| - 1];
      DedupOfDedupInto(a, init);
      DedupIntoAppend([], a, init);
      var l := DedupInto(a, init);
      DedupIntoElems([], l);
      DedupIntoElems(a, init);
      DedupIntoElems(Dedup(a), init);
      DedupIntoElems([], a);
      if p in l {
        assert p in Elems(Dedup(l));
      } else {
        DedupIntoSnoc([], l, p);
        assert p !in Elems(DedupInto(Dedup(a), init));
      }
    }
  }

  /** A subset is no larger than the set holding it. */
  lemma {:induction false} SubsetCard<T>(a: set<T>, b: set<T>)
    requires a <= b
    ensures |a| <= |b|
    decreases a
  {
    if a != {} {
      var x :| x in a;
      SubsetCard(a - {x}, b - {x});
    }
  }

  /** `retain(|x| !drop.contains(x))`. */
  function Without<T(==, !new)>(xs: seq<T>, drop: seq<T>): (r: seq<T>)
    ensures |r| <= |xs|
    ensures forall x :: x in r <==> x in xs && x !in drop
    decreases |xs|
  {
    if xs == [] then []
    else Without(xs[..|xs| - 1], drop) + (if xs[|xs| - 1] in drop then [] else [xs[|xs| - 1]])
  }

  /** Some element has key `k`. */
  predicate HasKey<T>(xs: seq<T>, key: T -> string, k: string) {
    exists i :: 0 <= i < |xs| && key(xs[i]) == k
  }

  /** `iter().position(|x| key(x) == k)`: the first element with key `k`. */
  function IndexOfKey<T>(xs: seq<T>, key: T -> string, k: string): (r: Option<nat>)
    ensures r.None? <==> !HasKey(xs, key, k)
    ensures r.Some? ==> r.value < |xs| && key(xs[r.value]) == k &&
                        forall j :: 0 <= j < r.value ==> key(xs[j]) != k
  {
    if xs == [] then None
    else if key(xs[0]) == k then Some(0)
    else
      var r := IndexOfKey(xs[1..], key, k);
      assert forall j :: 1 <= j < |xs| ==> xs[j] == xs[1..][j - 1];
      if r.Some? then Some(r.value + 1) else None
  }
}
