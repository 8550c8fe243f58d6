/** The lift and drag coefficient tables of a wing: two designer curves over
    the angle of attack, cached as one sample per integer degree, and the
    interpolating lookup used by the wing each physics step. */
module Curves {
  import opened Mathf

  /** Samples per table: one for every integer degree 0..180. */
  const TableSize: nat := 181

  /** The last index of a table, the sample for 180 degrees. */
  const LastIndex: nat := 180

  /** A coefficient curve over the angle of attack in degrees, as the engine
      evaluates it (`AnimationCurve.Evaluate`). */
  type Curve = real -> real

  /** The table a cache of `curve` must hold. */
  function Table(curve: Curve): (t: seq<real>)
    ensures |t| == TableSize
    ensures forall i :: 0 <= i < TableSize ==> t[i] == curve(i as real)
  {
    seq(TableSize, i requires 0 <= i < TableSize => curve(i as real))
  }

  /** The lookup shared by `GetLiftAtAOA` and `GetDragAtAOA`: truncate the
      angle to a table index, clamp out-of-table indices to the first or last
      sample, otherwise interpolate between the sample at the index and the
      next one. */
  function Lookup(cache: seq<real>, aoa: real): (r: real)
    requires |cache| == TableSize
    ensures aoa <= 0.0 ==> r == cache[0]
    ensures aoa >= LastIndex as real ==> r == cache[LastIndex]
    ensures 0.0 <= aoa < LastIndex as real ==>
              var i := TruncToInt(aoa);
              0 <= i < LastIndex &&
              Min(cache[i], cache[i + 1]) <= r <= Max(cache[i], cache[i + 1])
  {
    var index := TruncToInt(aoa);
    if index >= LastIndex then cache[LastIndex]
    else if index < 0 then cache[0]
    else Lerp(cache[index], cache[index + 1], aoa - index as real)
  }

  /** At an integer angle the interpolation weight is zero, so the lookup is
      exactly the stored sample. */
  lemma LookupAtInteger(cache: seq<real>, k: int)
    requires |cache| == TableSize && 0 <= k <= LastIndex
    ensures Lookup(cache, k as real) == cache[k]
  {
    assert TruncToInt(k as real) == k;
  }

  /** Tables whose samples never decrease. */
  predicate NonDecreasing(cache: seq<real>)
  {
    forall i, j :: 0 <= i <= j < |cache| ==> cache[i] <= cache[j]
  }

  /** In a non-decreasing table the lookup stays within its segment's samples
      and within the whole table's range. */
  lemma LookupInSegment(cache: seq<real>, aoa: real)
    requires |cache| == TableSize && NonDecreasing(cache)
    ensures cache[0] <= Lookup(cache, aoa) <= cache[LastIndex]
    ensures 0.0 <= aoa < LastIndex as real ==>
              cache[TruncToInt(aoa)] <= Lookup(cache, aoa) <= cache[TruncToInt(aoa) + 1]
  {
  }

  /** A non-decreasing table gives a non-decreasing lookup: interpolation never
      introduces a dip between monotone samples. */
  lemma LookupMonotone(cache: seq<real>, a: real, b: real)
    requires |cache| == TableSize && NonDecreasing(cache)
    requires a <= b
    ensures Lookup(cache, a) <= Lookup(cache, b)
  {
    LookupInSegment(cache, a);
    LookupInSegment(cache, b);
    if a <= 0.0 || b >= LastIndex as real {
    } else if a < LastIndex as real && 0.0 < b {
      var i, j := TruncToInt(a), TruncToInt(b);
      if i == j {
        LerpMonotoneInWeight(cache[i], cache[i + 1], a - i as real, b - i as real);
      } else {
        assert i + 1 <= j;
      }
    }
  }

  /** Curves that never decrease over the table's range of angles. */
  ghost predicate MonotoneOnTable(curve: Curve)
  {
    forall x, y :: 0.0 <= x <= y <= LastIndex as real ==> curve(x) <= curve(y)
  }

  /** Sampling a curve that never decreases gives a table that never
      decreases. */
  lemma TableMonotone(curve: Curve)
    requires MonotoneOnTable(curve)
    ensures NonDecreasing(Table(curve))
  {
    var t := Table(curve);
    forall i, j | 0 <= i <= j < |t|
      ensures t[i] <= t[j]
    {
      assert t[i] == curve(i as real) && t[j] == curve(j as real);
    }
  }

  /** The coefficient lookup of a curve that never decreases never decreases
      in the angle of attack. */
  lemma CurveLookupMonotone(curve: Curve, a: real, b: real)
    requires MonotoneOnTable(curve) && a <= b
    ensures Lookup(Table(curve), a) <= Lookup(Table(curve), b)
  {
    TableMonotone(curve);
    LookupMonotone(Table(curve), a, b);
  }

  /** A wing's lift and drag curves with their cached tables.  A cache is null
      until the first rebuild; once present it always matches its curve. */
  class WingCurves {
    var lift: Curve
    var drag: Curve
    var liftCache: array?<real>
    var dragCache: array?<real>

    ghost predicate Valid()
      reads this, liftCache, dragCache
    {
      (liftCache != null ==> liftCache[..] == Table(lift)) &&
      (dragCache != null ==> dragCache[..] == Table(drag))
    }

    /** A freshly loaded asset: its curves are set, its caches not built yet. */
    constructor (lift: Curve, drag: Curve)
      ensures Valid()
      ensures this.lift == lift && this.drag == drag
      ensures liftCache == null && dragCache == null
    {
      this.lift := lift;
      this.drag := drag;
      liftCache := null;
      dragCache := null;
    }

    /** Replaces both caches with new 181-sample tables of the current curves. */
    method UpdateCaches()
      modifies this
      ensures Valid()
      ensures lift == old(lift) && drag == old(drag)
      ensures liftCache != null && fresh(liftCache) && liftCache[..] == Table(lift)
      ensures dragCache != null && fresh(dragCache) && dragCache[..] == Table(drag)
    {
      liftCache := new real[TableSize];
      dragCache := new real[TableSize];
      for i := 0 to TableSize
        modifies liftCache, dragCache
        invariant fresh(liftCache) && fresh(dragCache) && liftCache != dragCache
        invariant liftCache.Length == TableSize && dragCache.Length == TableSize
        invariant forall k :: 0 <= k < i ==> liftCache[k] == lift(k as real)
        invariant forall k :: 0 <= k < i ==> dragCache[k] == drag(k as real)
      {
        liftCache[i] := lift(i as real);
        dragCache[i] := drag(i as real);
      }
    }

    /** The lift coefficient at `aoa` degrees; a missing cache is built first,
        which rebuilds both tables into new arrays, so the answer is always the
        lookup in the lift curve's table. */
    method GetLiftAtAOA(aoa: real) returns (r: real)
      requires Valid()
      modifies this
      ensures Valid()
      ensures lift == old(lift) && drag == old(drag)
      ensures liftCache != null
      ensures old(liftCache) != null ==> liftCache == old(liftCache) && dragCache == old(dragCache)
      ensures old(liftCache) == null ==>
                dragCache != null && fresh(liftCache) && fresh(dragCache) && dragCache[..] == Table(drag)
      ensures r == Lookup(Table(lift), aoa)
    {
      if liftCache == null {
        UpdateCaches();
      }
      r := Lookup(liftCache[..], aoa);
    }

    /** The drag coefficient at `aoa` degrees, the same lookup over the drag
        table, with the same rebuild of both tables when the drag cache is
        missing. */
    method GetDragAtAOA(aoa: real) returns (r: real)
      requires Valid()
      modifies this
      ensures Valid()
      ensures lift == old(lift) && drag == old(drag)
      ensures dragCache != null
      ensures old(dragCache) != null ==> liftCache == old(liftCache) && dragCache == old(dragCache)
      ensures old(dragCache) == null ==>
                liftCache != null && fresh(liftCache) && fresh(dragCache) && liftCache[..] == Table(lift)
      ensures r == Lookup(Table(drag), aoa)
    {
      if dragCache == null {
        UpdateCaches();
      }
      r := Lookup(dragCache[..], aoa);
    }

    /** Installs a new lift curve and rebuilds both tables; the drag samples
        come out the same as before. */
    method SetLiftCurve(newCurve: Curve)
      requires Valid()
      modifies this
      ensures Valid()
      ensures lift == newCurve && drag == old(drag)
      ensures liftCache != null && fresh(liftCache) && liftCache[..] == Table(newCurve)
      ensures dragCache != null && fresh(dragCache) && dragCache[..] == Table(old(drag))
      ensures old(dragCache) != null ==> dragCache[..] == old(dragCache[..])
    {
      lift := newCurve;
      UpdateCaches();
    }
  }
}
