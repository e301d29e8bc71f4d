/**
 * `PoolBag` of `pool_bag.ts`: an insertion-ordered set of idle objects. The `Set` is a
 * sequence without repetitions, oldest first; each call of one of the three hooks is
 * recorded, in order, in `log`. The factory `create_pooled_item` is not called by the
 * model: its results are passed in (`created`, `made`).
 */
module Pooling {
  import opened Wrappers

  /** One hook call: `on_take_from_pool`, `on_returned_to_pool` or `on_destroy_pool_object`. */
  datatype Hook<T> = Taken(item: T) | Returned(item: T) | Destroyed(entry: Option<T>)

  /** The argument of the `size` setter: a number, `NaN`, or a value of another type. */
  datatype SizeArg = Number(v: real) | NaN | NotNumber(typeName: string)

  predicate Distinct<T(==)>(s: seq<T>) {
    forall i, j :: 0 <= i < j < |s| ==> s[i] != s[j]
  }

  /** `Set.add`: a new element goes to the end; one already held stays where it is. */
  function Insert<T(==)>(items: seq<T>, x: T): (r: seq<T>)
    ensures x in r
    ensures x in items ==> r == items
    ensures x !in items ==> r == items + [x]
    ensures Distinct(items) ==> Distinct(r)
  {
    if x in items then items else items + [x]
  }

  /** `Set.delete`: every other element stays, in its order. */
  function Remove<T(==)>(items: seq<T>, x: T): (r: seq<T>)
    ensures x !in r
    ensures forall i :: 0 <= i < |items| && items[i] != x ==> items[i] in r
    ensures forall i :: 0 <= i < |r| ==> r[i] in items
    ensures x !in items ==> r == items
    ensures |r| <= |items|
    ensures Distinct(items) ==> Distinct(r)
  {
    if items == [] then []
    else if items[0] == x then Remove(items[1..], x)
    else [items[0]] + Remove(items[1..], x)
  }

  /** In a set, deleting the oldest element leaves the rest in order. */
  lemma RemoveHead<T>(items: seq<T>)
    requires Distinct(items) && items != []
    ensures Remove(items, items[0]) == items[1..]
  {
    assert items[0] !in items[1..];
  }

  /** The pool after releasing each of `made` in turn. */
  function AddAll<T(==)>(items: seq<T>, made: seq<T>): (r: seq<T>)
    ensures Distinct(items) ==> Distinct(r)
  {
    if made == [] then items
    else Insert(AddAll(items, made[..|made| - 1]), made[|made| - 1])
  }

  /** The hooks the growth loop calls, one `Returned` per created item. */
  function ReturnHooks<T>(made: seq<T>): (r: seq<Hook<T>>)
    ensures |r| == |made|
    ensures forall i :: 0 <= i < |made| ==> r[i] == Returned(made[i])
  {
    if made == [] then [] else ReturnHooks(made[..|made| - 1]) + [Returned(made[|made| - 1])]
  }

  /** The hooks the shrink loop calls for `m` deletions: the oldest items, then `undefined`. */
  function DeleteHooks<T>(items: seq<T>, m: nat): (r: seq<Hook<T>>)
    ensures |r| == m
    ensures forall i :: 0 <= i < m ==>
      r[i] == if i < |items| then Destroyed(Some(items[i])) else Destroyed(None)
  {
    if m == 0 then []
    else DeleteHooks(items, m - 1) + [if m - 1 < |items| then Destroyed(Some(items[m - 1])) else Destroyed(None)]
  }

  /** `s` without its first `k` elements, or empty when `k` exceeds its length. */
  function Drop<T>(s: seq<T>, k: nat): (r: seq<T>)
    ensures |r| == if k <= |s| then |s| - k else 0
  {
    if k <= |s| then s[k..] else []
  }

  function Ceil(x: real): (r: int)
    ensures x <= r as real < x + 1.0
  {
    -((-x).Floor)
  }

  /** How often `while (current < size)` runs from `current`. */
  function GrowCount(current: int, size: real): (g: nat)
    ensures g > 0 <==> (current as real) < size
    ensures g > 0 ==> size <= (current + g) as real < size + 1.0
  {
    if (current as real) < size then Ceil(size) - current else 0
  }

  /** How often `while (current > size)` runs from `current`. */
  function ShrinkCount(current: int, size: real): (s: nat)
    ensures s > 0 <==> (current as real) > size
    ensures s > 0 ==> size - 1.0 < (current - s) as real <= size
  {
    if (current as real) > size then current - size.Floor else 0
  }

  class PoolBag<T(==)> {
    var items: seq<T>
    var log: seq<Hook<T>>

    predicate Valid()
      reads this
    {
      Distinct(items)
    }

    constructor ()
      ensures Valid() && items == [] && log == []
    {
      items := [];
      log := [];
    }

    /** The `size` getter. */
    function Size(): (n: nat)
      reads this
      ensures n == |items|
    {
      |items|
    }

    /** `dispose`: empties the pool without calling a hook. */
    method Dispose()
      modifies this
      ensures Valid() && items == [] && log == old(log)
    {
      items := [];
    }

    /**
     * `get`: the oldest idle item, taken out of the pool with `on_take_from_pool`; from an
     * empty pool, the item the factory made (`created`, which the factory is only asked for
     * then), with no hook.
     */
    method Get(created: Option<T>) returns (item: T)
      requires Valid()
      requires items == [] ==> created.Some?
      modifies this
      ensures Valid()
      ensures old(items) == [] ==> item == created.value && items == [] && log == old(log)
      ensures old(items) != [] ==>
        item == old(items)[0] && items == old(items)[1..] && log == old(log) + [Taken(item)]
    {
      if |items| == 0 {
        return created.value;
      }
      item := items[0];
      log := log + [Taken(item)];
      RemoveHead(items);
      items := Remove(items, item);
    }

    /** `release`: adds with set semantics, then calls `on_returned_to_pool` in every case. */
    method Release(item: T)
      requires Valid()
      modifies this
      ensures Valid()
      ensures items == Insert(old(items), item)
      ensures log == old(log) + [Returned(item)]
    {
      items := Insert(items, item);
      log := log + [Returned(item)];
    }

    /**
     * `delete`: removes the item when held, then calls `on_destroy_pool_object` in every case.
     * `None` is `undefined`, which the `size` setter passes once the pool is empty.
     */
    method Delete(entry: Option<T>)
      requires Valid()
      modifies this
      ensures Valid()
      ensures items == if entry.Some? then Remove(old(items), entry.value) else old(items)
      ensures log == old(log) + [Destroyed(entry)]
    {
      if entry.Some? {
        items := Remove(items, entry.value);
      }
      log := log + [Destroyed(entry)];
    }

    /**
     * The `size` setter. A non-number throws. Otherwise the growth loop releases the first
     * `GrowCount` items of `made` (the factory's results), and the shrink loop deletes the
     * oldest items, passing `undefined` once the pool is empty. `NaN` runs neither loop.
     */
    method SetSize(size: SizeArg, made: seq<T>) returns (r: Outcome)
      requires Valid()
      requires size.Number? ==> |made| >= GrowCount(|items|, size.v)
      modifies this
      ensures Valid()
      ensures size.NotNumber? ==>
        r == Fail("Parameter is not a number: " + size.typeName) && items == old(items) && log == old(log)
      ensures size.NaN? ==> r == Pass && items == old(items) && log == old(log)
      ensures size.Number? ==>
        var g := GrowCount(|old(items)|, size.v);
        var grown := AddAll(old(items), made[..g]);
        var s := ShrinkCount(|old(items)| + g, size.v);
        r == Pass && items == Drop(grown, s) &&
        log == old(log) + ReturnHooks(made[..g]) + DeleteHooks(grown, s)
    {
      if size.NotNumber? {
        return Fail("Parameter is not a number: " + size.typeName);
      }
      if size.NaN? {
        return Pass;
      }
      var current := Grow(size.v, made);
      Shrink(current, size.v);
      r := Pass;
    }

    /** The setter's first loop: release factory items while `current < size`. */
    method Grow(target: real, made: seq<T>) returns (current: int)
      requires Valid()
      requires |made| >= GrowCount(|items|, target)
      modifies this
      ensures Valid()
      ensures var g := GrowCount(|old(items)|, target);
        current == |old(items)| + g &&
        items == AddAll(old(items), made[..g]) && log == old(log) + ReturnHooks(made[..g])
    {
      var c0 := |items|;
      current := c0;
      var i := 0;
      while (current as real) < target
        invariant Valid()
        invariant current == c0 + i
        invariant 0 <= i <= GrowCount(c0, target)
        invariant items == AddAll(old(items), made[..i])
        invariant log == old(log) + ReturnHooks(made[..i])
        decreases Ceil(target) - current
      {
        assert made[..i + 1][..i] == made[..i];
        Release(made[i]);
        current := current + 1;
        i := i + 1;
      }
    }

    /** The setter's second loop: delete the oldest item, or `undefined`, while `current > size`. */
    method Shrink(current0: int, target: real)
      requires Valid()
      modifies this
      ensures Valid()
      ensures var s := ShrinkCount(current0, target);
        items == Drop(old(items), s) && log == old(log) + DeleteHooks(old(items), s)
    {
      ghost var start := items;
      ghost var log0 := log;
      var current := current0;
      var j := 0;
      while (current as real) > target
        invariant Valid()
        invariant current == current0 - j
        invariant 0 <= j <= ShrinkCount(current0, target)
        invariant items == Drop(start, j)
        invariant log == log0 + DeleteHooks(start, j)
        decreases current - target.Floor
      {
        DropStep(start, j);
        if items == [] {
          Delete(None);
        } else {
          RemoveHead(items);
          Delete(Some(items[0]));
        }
        assert log == log0 + DeleteHooks(start, j) + [DeleteHooks(start, j + 1)[j]];
        current := current - 1;
        j := j + 1;
      }
    }
  }

  /** One more deletion from the front: drops the head when there is one. */
  lemma DropStep<T>(s: seq<T>, j: nat)
    ensures Drop(s, j) == [] ==> Drop(s, j + 1) == [] && j >= |s|
    ensures Drop(s, j) != [] ==> Drop(s, j)[0] == s[j] && Drop(s, j + 1) == Drop(s, j)[1..]
    ensures DeleteHooks(s, j + 1) == DeleteHooks(s, j) + [DeleteHooks(s, j + 1)[j]]
    ensures DeleteHooks(s, j + 1)[j] == if Drop(s, j) == [] then Destroyed(None) else Destroyed(Some(Drop(s, j)[0]))
  {
  }

  /** Releasing items that are new to the pool and to each other appends them in order. */
  lemma {:induction false} AddAllAppends<T>(items: seq<T>, made: seq<T>)
    requires Distinct(items) && Distinct(made)
    requires forall x :: x in made ==> x !in items
    ensures AddAll(items, made) == items + made
  {
    if made != [] {
      var front := made[..|made| - 1];
      var last := made[|made| - 1];
      assert forall x :: x in front ==> x in made;
      AddAllAppends(items, front);
      assert last !in items + front by {
        assert last !in front;
      }
      assert made == front + [last];
      assert AddAll(items, made) == Insert(items + front, last);
    }
  }

  /**
   * Setting the size to a whole number `n >= 0` leaves exactly `n` items: growth appends the
   * factory's fresh items, shrinking keeps only the `n` most recently inserted ones.
   */
  lemma ResizeExact<T>(items: seq<T>, n: nat, made: seq<T>)
    requires Distinct(items) && Distinct(made)
    requires forall x :: x in made ==> x !in items
    requires |made| >= GrowCount(|items|, n as real)
    ensures var g := GrowCount(|items|, n as real);
      var grown := AddAll(items, made[..g]);
      var result := Drop(grown, ShrinkCount(|items| + g, n as real));
      |result| == n &&
      (n >= |items| ==> result == items + made[..n - |items|]) &&
      (n <= |items| ==> result == items[|items| - n..])
  {
    var g := GrowCount(|items|, n as real);
    var part := made[..g];
    assert Distinct(part);
    assert forall x :: x in part ==> x in made;
    AddAllAppends(items, part);
    if n > |items| {
      assert g == n - |items|;
    } else {
      assert g == 0;
      assert part == [];
    }
  }
}
