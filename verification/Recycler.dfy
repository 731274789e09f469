/**
 The slab under both the events and the IOs (src/recycler.rs).

 `Slab` is the value of the storage, `Recycler` the object that changes it in place. The assertions
 of the source (release or index only what is stored) are the preconditions.
 */
module Recycler {
  import opened Wrappers

  datatype Slab<T> = Slab(data: seq<Option<T>>, free: seq<nat>) {

    /** The free stack has no duplicates and lists exactly the empty slots. */
    ghost predicate WellFormed() {
      && (forall k | 0 <= k < |free| :: free[k] < |data| && data[free[k]].None?)
      && (forall k, l | 0 <= k < l < |free| :: free[k] != free[l])
      && (forall i | 0 <= i < |data| && data[i].None? :: i in free)
    }

    predicate Occupied(idx: nat) {
      idx < |data| && data[idx].Some?
    }

    /** The finite map that the slab stands for. */
    ghost function Contents(): map<nat, T> {
      map i: nat | i < |data| && data[i].Some? :: data[i].value
    }

    function Stored(item: T): (r: (Slab<T>, nat))
      requires WellFormed()
    {
      if free == [] then
        (Slab(data + [Some(item)], []), |data|)
      else
        var idx := free[|free| - 1];
        (Slab(data[idx := Some(item)], free[..|free| - 1]), idx)
    }

    function Released(idx: nat): (r: Slab<T>)
      requires Occupied(idx)
    {
      Slab(data[idx := None], free + [idx])
    }
  }

  /** Storing picks an index that is not live and changes nothing else. */
  lemma StoreRefinesMap<T>(s: Slab<T>, item: T)
    requires s.WellFormed()
    ensures var (s', idx) := s.Stored(item);
            && s'.WellFormed()
            && idx !in s.Contents()
            && s'.Contents() == s.Contents()[idx := item]
  {
    var (s', idx) := s.Stored(item);
    if s.free != [] {
      var n := |s.free| - 1;
      forall i | 0 <= i < |s'.data| && s'.data[i].None? ensures i in s'.free {
        var k :| 0 <= k < |s.free| && s.free[k] == i;
        assert k < n && s'.free[k] == i;
      }
    }
    assert s'.Contents() == s.Contents()[idx := item];
  }

  /** Releasing removes exactly the one item. */
  lemma ReleaseRefinesMap<T>(s: Slab<T>, idx: nat)
    requires s.WellFormed() && s.Occupied(idx)
    ensures s.Released(idx).WellFormed()
    ensures s.Released(idx).Contents() == s.Contents() - {idx}
  {
    var s' := s.Released(idx);
    assert s'.free[|s.free|] == idx;
    forall i | 0 <= i < |s'.data| && s'.data[i].None? ensures i in s'.free {
      if i != idx {
        var k :| 0 <= k < |s.free| && s.free[k] == i;
        assert s'.free[k] == i;
      }
    }
    assert s'.Contents() == s.Contents() - {idx};
  }

  /** The first `n` indexes. */
  ghost function Below(n: nat): (r: set<nat>)
    ensures |r| == n && forall i: nat :: i in r <==> i < n
  {
    if n == 0 then {} else Below(n - 1) + {n - 1}
  }

  ghost function Elements(xs: seq<nat>): (r: set<nat>)
    requires forall k, l | 0 <= k < l < |xs| :: xs[k] != xs[l]
    ensures |r| == |xs| && forall i: nat :: i in r <==> i in xs
  {
    if xs == [] then {} else
      assert forall i: nat :: i in xs <==> i in xs[1..] || i == xs[0];
      Elements(xs[1..]) + {xs[0]}
  }

  lemma SlotIsLiveOrFree<T>(s: Slab<T>, i: nat)
    requires s.WellFormed()
    ensures i in s.Contents().Keys <==> s.Occupied(i)
    ensures i in Elements(s.free) <==> i < |s.data| && !s.Occupied(i)
  {
    if i in s.free {
      var k :| 0 <= k < |s.free| && s.free[k] == i;
    }
  }

  lemma SlotsSplit<T>(s: Slab<T>)
    requires s.WellFormed()
    ensures Below(|s.data|) == s.Contents().Keys + Elements(s.free)
    ensures s.Contents().Keys !! Elements(s.free)
  {
    forall i: nat
      ensures i in Below(|s.data|) <==> i in s.Contents().Keys || i in Elements(s.free)
      ensures !(i in s.Contents().Keys && i in Elements(s.free))
    {
      SlotIsLiveOrFree(s, i);
    }
  }

  /** `len()`: slots minus free entries is the number of stored items. */
  lemma LenIsSize<T>(s: Slab<T>)
    requires s.WellFormed()
    ensures |s.data| - |s.free| == |s.Contents()|
  {
    SlotsSplit(s);
    assert |s.Contents()| == |s.Contents().Keys|;
  }

  // ----- Whole runs of a slab -----

  datatype SlabOp<T> = Store(item: T) | Release(idx: nat)

  ghost function Init<T>(): Slab<T> { Slab([], []) }

  /** The state after the operations, or None where an assertion of the source stops the run. */
  ghost function RunSlab<T>(ops: seq<SlabOp<T>>): (r: Option<Slab<T>>)
    ensures r.Some? ==> r.value.WellFormed()
  {
    if ops == [] then
      Some(Init())
    else
      var last := ops[|ops| - 1];
      match RunSlab(ops[..|ops| - 1])
      case None => None
      case Some(s) =>
        match last
        case Store(item) => StoreRefinesMap(s, item); Some(s.Stored(item).0)
        case Release(idx) =>
          if s.Occupied(idx) then ReleaseRefinesMap(s, idx); Some(s.Released(idx)) else None
  }

  /** The largest number of items that were stored at the same time during the run. */
  ghost function Peak<T>(ops: seq<SlabOp<T>>): nat {
    var before := if ops == [] then 0 else Peak(ops[..|ops| - 1]);
    var live := match RunSlab(ops) case None => 0 case Some(s) => |s.Contents()|;
    if live > before then live else before
  }

  /** The storage is dense: it never has more slots than were needed at once. */
  lemma {:induction false} SlotsArePeak<T>(ops: seq<SlabOp<T>>)
    requires RunSlab(ops).Some?
    ensures |RunSlab(ops).value.data| == Peak(ops)
  {
    LenIsSize(RunSlab(ops).value);
    if ops != [] {
      var before := RunSlab(ops[..|ops| - 1]).value;
      SlotsArePeak(ops[..|ops| - 1]);
      LenIsSize(before);
      if ops[|ops| - 1].Store? {
        assert RunSlab(ops).value == before.Stored(ops[|ops| - 1].item).0;
      } else {
        assert RunSlab(ops).value == before.Released(ops[|ops| - 1].idx);
      }
    }
  }

  // ----- The object -----

  class Recycler<T> {
    var data: seq<Option<T>>
    var free: seq<nat>
    /** The stored items by index; `Valid` ties it to the real fields. */
    ghost var contents: map<nat, T>

    ghost function View(): Slab<T>
      reads this
    {
      Slab(data, free)
    }

    ghost predicate Valid()
      reads this
    {
      View().WellFormed() && contents == View().Contents()
    }

    constructor ()
      ensures Valid() && View() == Init() && contents == map[]
    {
      data, free, contents := [], [], map[];
    }

    method Store(item: T) returns (idx: nat)
      requires Valid()
      modifies this
      ensures Valid()
      ensures (View(), idx) == old(View()).Stored(item)
      ensures idx !in old(contents) && contents == old(contents)[idx := item]
    {
      StoreRefinesMap(View(), item);
      if |free| > 0 {
        idx := free[|free| - 1];
        free := free[..|free| - 1];
        data := data[idx := Some(item)];
      } else {
        data := data + [Some(item)];
        idx := |data| - 1;
      }
      contents := contents[idx := item];
    }

    method Release(idx: nat) returns (item: T)
      requires Valid() && idx in contents
      modifies this
      ensures Valid()
      ensures idx < |old(data)| && old(data)[idx] == Some(item)
      ensures View() == Slab(old(data)[idx := None], old(free) + [idx])
      ensures item == old(contents)[idx] && contents == old(contents) - {idx}
    {
      ReleaseRefinesMap(View(), idx);
      free := free + [idx];
      item := data[idx].value;
      data := data[idx := None];
      contents := contents - {idx};
    }

    predicate Occupied(idx: nat)
      requires Valid()
      reads this
      ensures Occupied(idx) <==> idx in contents
    {
      idx < |data| && data[idx].Some?
    }

    function Len(): (n: nat)
      requires Valid()
      reads this
      ensures n == |contents|
    {
      LenIsSize(View());
      |data| - |free|
    }

    function Get(idx: nat): (item: T)
      requires Valid() && idx in contents
      reads this
      ensures item == contents[idx]
    {
      data[idx].value
    }

    /** Mutable indexing. */
    method Put(idx: nat, item: T)
      requires Valid() && idx in contents
      modifies this
      ensures Valid()
      ensures View() == Slab(old(data)[idx := Some(item)], old(free))
      ensures contents == old(contents)[idx := item]
    {
      data := data[idx := Some(item)];
      contents := contents[idx := item];
      assert forall i: nat :: i < |data| && data[i].Some? <==> i in contents;
      assert contents == View().Contents();
    }
  }
}
