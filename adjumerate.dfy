/** An enumerate whose count can be adjusted from inside the loop body.

    Every step hands out the same count object; the object carries a
    logical count, which the loop body may change, and a raw count, which
    only the iterator advances. */
module Adjumerate {
  import opened PyValues
  import opened Mutables

  /** The count object: the integer cell it inherits holds the logical
      count; `raw` counts the steps taken. */
  class CountObject {
    const cell: MutableInteger
    var raw: int

    /** `CountObject(value)`: one step before `value`, and before any step. */
    constructor (value: int)
      ensures cell.value == value - 1 && raw == -1
      ensures fresh(cell)
    {
      cell := new MutableInteger(value - 1);
      raw := -1;
    }

    /** `unmodified_count()` */
    function UnmodifiedCount(): int
      reads this
    {
      raw
    }

    /** The logical count. */
    function Value(): int
      reads cell
    {
      cell.value
    }
  }

  /** The iterator behind `adjumerate`. `Valid` is what the guard on `raw`
      keeps true: `raw` moves only with the iterator's position. */
  class Counter<T> {
    const items: seq<T>
    var pos: nat
    const count: CountObject

    ghost predicate Valid()
      reads this, count
    {
      pos <= |items| && count.raw == pos - 1
    }

    /** `Counter(iterable, init_value)` */
    constructor (iterable: seq<T>, initValue: int)
      ensures Valid() && items == iterable && pos == 0
      ensures count.cell.value == initValue - 1
      ensures fresh(count) && fresh(count.cell)
    {
      items := iterable;
      pos := 0;
      count := new CountObject(initValue);
    }

    /** `__next__`: the shared count object with the next element, after
        both counts have advanced by one; `None` (StopIteration) once the
        elements are exhausted, with nothing changed. */
    method Next() returns (r: Option<(CountObject, T)>)
      requires Valid()
      modifies this, count, count.cell
      ensures Valid()
      ensures r.None? <==> old(pos) == |items|
      ensures r.None? ==> pos == old(pos) && count.raw == old(count.raw) && count.cell.value == old(count.cell.value)
      ensures r.Some? ==> r.value == (count, items[old(pos)]) && pos == old(pos) + 1
      ensures r.Some? ==> count.raw == old(count.raw) + 1 && count.cell.value == old(count.cell.value) + 1
    {
      if pos == |items| {
        return None;
      }
      var value := items[pos];
      pos := pos + 1;
      r := Some((count, value));
      count.cell.SetValue(count.cell.value + 1);
      count.raw := count.raw + 1;
    }

    /** The `count` property. */
    function Count(): int
      reads count, count.cell
    {
      count.cell.value
    }

    /** The `count` setter: moves the logical count and leaves `raw`. */
    method SetCount(v: int)
      modifies count.cell
      ensures count.cell.value == v
    {
      count.cell.SetValue(v);
    }
  }

  /** `iter(adjumerate(iterable, start))` */
  method Adjumerate<T>(iterable: seq<T>, start: int) returns (c: Counter<T>)
    ensures c.Valid() && c.items == iterable && c.pos == 0
    ensures c.count.cell.value == start - 1 && c.count.raw == -1
    ensures fresh(c) && fresh(c.count) && fresh(c.count.cell)
  {
    c := new Counter(iterable, start);
  }

  /** A loop over `adjumerate(items, start)` that never adjusts the count:
      at element `k` it sees raw count `k` and logical count `start + k`,
      and it stops after the last element. */
  method EnumerateUnadjusted<T>(items: seq<T>, start: int) returns (seen: seq<(int, int, T)>)
    ensures |seen| == |items|
    ensures forall k :: 0 <= k < |items| ==> seen[k] == (k, start + k, items[k])
  {
    var c := Adjumerate(items, start);
    seen := [];
    while true
      invariant c.Valid() && c.items == items
      invariant fresh(c) && fresh(c.count) && fresh(c.count.cell)
      invariant |seen| == c.pos
      invariant c.count.cell.value == start - 1 + c.pos
      invariant forall k :: 0 <= k < |seen| ==> seen[k] == (k, start + k, items[k])
      decreases |items| - c.pos
    {
      var step := c.Next();
      match step
      case None =>
        break;
      case Some(pair) =>
        var (count, x) := pair;
        seen := seen + [(count.UnmodifiedCount(), count.Value(), x)];
    }
  }
}
