/** Nearest-bin lookups between physical (range, angle) values and grid
    indices. */
module MappingOps {
  import opened Wrappers
  import opened Numerics

  /** Distance of grid entry `a[i]` from the probe value. */
  function Gap(a: seq<real>, value: real, i: nat): real
    requires i < |a|
  {
    Abs(a[i] - value)
  }

  /** numpy's `argmin` of `|a - value|` restricted to `a[..k]`: the first
      index of a minimal gap. */
  function ArgMinGap(a: seq<real>, value: real, k: nat): (m: nat)
    requires 0 < k <= |a|
    ensures m < k
    ensures forall i :: 0 <= i < k ==> Gap(a, value, m) <= Gap(a, value, i)
    ensures forall i :: 0 <= i < m ==> Gap(a, value, i) > Gap(a, value, m)
    decreases k
  {
    if k == 1 then 0
    else
      var m := ArgMinGap(a, value, k - 1);
      if Gap(a, value, k - 1) < Gap(a, value, m) then k - 1 else m
  }

  /** `find_nearest`: the index of the entry closest to `value` and that
      entry; numpy refuses the arg-min of an empty array. */
  function FindNearest(a: seq<real>, value: real): (r: Result<(nat, real)>)
    ensures r.Err? <==> |a| == 0
    ensures r.Err? ==> r.error == ValueError
    ensures r.Ok? ==> r.value.0 < |a| && r.value.1 == a[r.value.0]
    ensures r.Ok? ==> forall i :: 0 <= i < |a| ==> Abs(a[r.value.0] - value) <= Abs(a[i] - value)
    ensures r.Ok? ==> forall i :: 0 <= i < r.value.0 ==> Abs(a[i] - value) > Abs(a[r.value.0] - value)
  {
    if |a| == 0 then Err(ValueError)
    else
      var m := ArgMinGap(a, value, |a|);
      assert forall i :: 0 <= i < |a| ==> Gap(a, value, i) == Abs(a[i] - value);
      Ok((m, a[m]))
  }

  /** `idx2ra`: physical range and angle of a pair of bin indices, with
      numpy's indexing (negative indices count from the end). */
  function Idx2Ra(rngId: int, aglId: int, rangeGrid: seq<real>, angleGrid: seq<real>): (r: Result<(real, real)>)
    ensures r.Ok? <==> -(|rangeGrid| as int) <= rngId < |rangeGrid| && -(|angleGrid| as int) <= aglId < |angleGrid|
    ensures r.Err? ==> r.error == IndexError
    ensures 0 <= rngId < |rangeGrid| && 0 <= aglId < |angleGrid| ==>
      r == Ok((rangeGrid[rngId], angleGrid[aglId]))
  {
    match (PyGet(rangeGrid, rngId), PyGet(angleGrid, aglId))
    case (Ok(rng), Ok(agl)) => Ok((rng, agl))
    case (Err(e), _) => Err(e)
    case (_, Err(e)) => Err(e)
  }

  /** `ra2idx`: each axis is looked up on its own grid, range first. */
  function Ra2Idx(rng: real, agl: real, rangeGrid: seq<real>, angleGrid: seq<real>): (r: Result<(nat, nat)>)
    ensures r.Ok? <==> |rangeGrid| > 0 && |angleGrid| > 0
    ensures r.Ok? ==> r.value.0 == FindNearest(rangeGrid, rng).value.0
    ensures r.Ok? ==> r.value.1 == FindNearest(angleGrid, agl).value.0
  {
    match (FindNearest(rangeGrid, rng), FindNearest(angleGrid, agl))
    case (Ok(ri), Ok(ai)) => Ok((ri.0, ai.0))
    case (Err(e), _) => Err(e)
    case (_, Err(e)) => Err(e)
  }

  ghost predicate Distinct(g: seq<real>)
  {
    forall i, j :: 0 <= i < |g| && 0 <= j < |g| && i != j ==> g[i] != g[j]
  }

  /** On a grid without repeated entries, the nearest entry to a grid value is
      that value's own bin. */
  lemma FindNearestOfEntry(g: seq<real>, i: nat)
    requires Distinct(g) && i < |g|
    ensures FindNearest(g, g[i]) == Ok((i, g[i]))
  {
    var r := FindNearest(g, g[i]);
    var m := r.value.0;
    assert Abs(g[m] - g[i]) <= Abs(g[i] - g[i]);
    assert g[m] == g[i];
  }

  /** `ra2idx(idx2ra(i, j)) == (i, j)` for in-range indices on grids with
      distinct entries. */
  lemma Ra2IdxInvertsIdx2Ra(i: nat, j: nat, rangeGrid: seq<real>, angleGrid: seq<real>)
    requires Distinct(rangeGrid) && Distinct(angleGrid)
    requires i < |rangeGrid| && j < |angleGrid|
    ensures Idx2Ra(i, j, rangeGrid, angleGrid).Ok?
    ensures var ra := Idx2Ra(i, j, rangeGrid, angleGrid).value;
            Ra2Idx(ra.0, ra.1, rangeGrid, angleGrid) == Ok((i, j))
  {
    FindNearestOfEntry(rangeGrid, i);
    FindNearestOfEntry(angleGrid, j);
  }
}
