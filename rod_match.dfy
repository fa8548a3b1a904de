/** Per-frame, per-class evaluation: the OLS matrix between the detections
    and the ground truth of one (frame, class) bucket, and the greedy
    matcher that pairs them at every OLS threshold. */
module RodMatch {
  import opened Wrappers
  import opened Objects
  import opened Argsort
  import opened Numerics
  import Metrics

  /** `[d['score'] for d in objs]`. */
  function Scores(objs: seq<RadarObject>): (r: seq<real>)
    ensures |r| == |objs|
    ensures forall i :: 0 <= i < |objs| ==> r[i] == objs[i].score
  {
    seq(|objs|, i requires 0 <= i < |objs| => objs[i].score)
  }

  /** `[d['id'] for d in objs]`. */
  function Ids(objs: seq<RadarObject>): (r: seq<int>)
    ensures |r| == |objs|
    ensures forall i :: 0 <= i < |objs| ==> r[i] == objs[i].id
  {
    seq(|objs|, i requires 0 <= i < |objs| => objs[i].id)
  }

  /** The detections reordered by the stable descending argsort of their
      scores (`np.argsort(-scores, kind='mergesort')`). */
  function SortByScore(dts: seq<RadarObject>): (r: seq<RadarObject>)
    ensures |r| == |dts|
    ensures forall i, j :: 0 <= i < j < |r| ==> r[i].score >= r[j].score
  {
    var p := StableArgsortDesc(Scores(dts));
    PermutedKeysDescending(Scores(dts));
    assert forall i :: 0 <= i < |dts| ==> Permute(Scores(dts), p)[i] == dts[p[i]].score;
    Permute(dts, p)
  }

  /** The reordering is a stable sort: position i holds detection p[i] for
      the unique stable descending argsort p of the scores, so every
      detection appears exactly once and equal scores keep their order. */
  lemma SortByScoreIsStable(dts: seq<RadarObject>) returns (p: seq<nat>)
    ensures IsArgsort(Scores(dts), p)
    ensures forall q :: IsArgsort(Scores(dts), q) ==> q == p
    ensures forall i :: 0 <= i < |dts| ==> SortByScore(dts)[i] == dts[p[i]]
  {
    p := StableArgsortDesc(Scores(dts));
    forall q | IsArgsort(Scores(dts), q)
      ensures q == p
    {
      ArgsortIsUnique(Scores(dts), q);
    }
  }

  // ---------------------------------------------------------------------
  // compute_ols_dts_gts

  /** The first exception the pair loop raises from ground truth j,
      detection i on, ground truths in the outer loop and detections in the
      inner one; None when every remaining pair has an OLS. */
  function ScanFrom(gts: seq<RadarObject>, dts: seq<RadarObject>, cfg: ClassConfig, m: Math, j: nat, i: nat): Option<Error>
    decreases |gts| - j, |dts| - i
  {
    if j >= |gts| then None
    else if i >= |dts| then ScanFrom(gts, dts, cfg, m, j + 1, 0)
    else
      match Metrics.GetOlsBtwObjects(gts[j], dts[i], cfg, m)
      case Err(e) => Some(e)
      case Ok(_) => ScanFrom(gts, dts, cfg, m, j, i + 1)
  }

  /** The scan finds nothing exactly when every pair from (j, i) on, in loop
      order, has an OLS; what it finds is the exception of one of them. */
  lemma {:induction false} ScanFromSound(gts: seq<RadarObject>, dts: seq<RadarObject>, cfg: ClassConfig, m: Math, j: nat, i: nat)
    ensures ScanFrom(gts, dts, cfg, m, j, i).None? <==>
      forall jj, ii :: j <= jj < |gts| && 0 <= ii < |dts| && (jj > j || ii >= i) ==>
        Metrics.GetOlsBtwObjects(gts[jj], dts[ii], cfg, m).Ok?
    ensures ScanFrom(gts, dts, cfg, m, j, i).Some? ==>
      exists jj, ii :: j <= jj < |gts| && 0 <= ii < |dts| &&
        Metrics.GetOlsBtwObjects(gts[jj], dts[ii], cfg, m) == Err(ScanFrom(gts, dts, cfg, m, j, i).value)
    decreases |gts| - j, |dts| - i
  {
    if j >= |gts| {
    } else if i >= |dts| {
      ScanFromSound(gts, dts, cfg, m, j + 1, 0);
    } else if Metrics.GetOlsBtwObjects(gts[j], dts[i], cfg, m).Ok? {
      ScanFromSound(gts, dts, cfg, m, j, i + 1);
    }
  }

  /** `olss[i][j]` is the OLS of ground truth j (as first object) and
      detection i, for every pair. */
  predicate OlsEntries(olss: seq<seq<Float>>, gts: seq<RadarObject>, dts: seq<RadarObject>, cfg: ClassConfig, m: Math)
  {
    && |olss| == |dts|
    && (forall i :: 0 <= i < |dts| ==> |olss[i]| == |gts|)
    && (forall i, j :: 0 <= i < |dts| && 0 <= j < |gts| ==>
          Metrics.GetOlsBtwObjects(gts[j], dts[i], cfg, m) == Ok(olss[i][j]))
  }

  /** The entries determine the matrix. */
  lemma OlsEntriesDetermine(a: seq<seq<Float>>, b: seq<seq<Float>>, gts: seq<RadarObject>, dts: seq<RadarObject>, cfg: ClassConfig, m: Math)
    requires OlsEntries(a, gts, dts, cfg, m) && OlsEntries(b, gts, dts, cfg, m)
    ensures a == b
  {
    forall i | 0 <= i < |dts|
      ensures a[i] == b[i]
    {
      assert forall j :: 0 <= j < |gts| ==> Metrics.GetOlsBtwObjects(gts[j], dts[i], cfg, m) == Ok(a[i][j]);
    }
  }

  /** `compute_ols_dts_gts`: KeyError for a missing bucket, `[]` when either
      list is empty, otherwise the detections-by-ground-truth OLS matrix
      (detections sorted by score) or the first exception of the pair loop. */
  function OlsDtsGts(gtsDict: Buckets, dtsDict: Buckets, imgId: int, catId: int, cfg: ClassConfig, m: Math): (r: Result<seq<seq<Float>>>)
    ensures (imgId, catId) !in gtsDict || (imgId, catId) !in dtsDict ==> r == Err(KeyError)
    ensures r.Ok? ==> (r.value == [] <==> |gtsDict[(imgId, catId)]| == 0 || |dtsDict[(imgId, catId)]| == 0)
    ensures r.Ok? && r.value != [] ==>
      OlsEntries(r.value, gtsDict[(imgId, catId)], SortByScore(dtsDict[(imgId, catId)]), cfg, m)
    ensures (imgId, catId) in gtsDict && (imgId, catId) in dtsDict ==>
      (r.Err? <==>
        exists j, i :: 0 <= j < |gtsDict[(imgId, catId)]| && 0 <= i < |dtsDict[(imgId, catId)]| &&
          Metrics.GetOlsBtwObjects(gtsDict[(imgId, catId)][j], SortByScore(dtsDict[(imgId, catId)])[i], cfg, m).Err?)
  {
    var key := (imgId, catId);
    if key !in gtsDict || key !in dtsDict then Err(KeyError)
    else
      var gts := gtsDict[key];
      var dts := SortByScore(dtsDict[key]);
      if |gts| == 0 || |dts| == 0 then Ok([])
      else
        ScanFromSound(gts, dts, cfg, m, 0, 0);
        match ScanFrom(gts, dts, cfg, m, 0, 0)
        case Some(e) => Err(e)
        case None => Ok(OlsTable(gts, dts, cfg, m))
  }

  /** The matrix of OLS values when every pair has one. */
  function OlsTable(gts: seq<RadarObject>, dts: seq<RadarObject>, cfg: ClassConfig, m: Math): (r: seq<seq<Float>>)
    requires forall j, i :: 0 <= j < |gts| && 0 <= i < |dts| ==> Metrics.GetOlsBtwObjects(gts[j], dts[i], cfg, m).Ok?
    ensures OlsEntries(r, gts, dts, cfg, m)
  {
    seq(|dts|, i requires 0 <= i < |dts| =>
      seq(|gts|, j requires 0 <= j < |gts| => Metrics.GetOlsBtwObjects(gts[j], dts[i], cfg, m).value))
  }

  /** `compute_ols_dts_gts(gts_dict, dts_dict, imgId, catId, dataset)`: the
      matrix is filled in place, ground truth by ground truth. */
  method ComputeOlsDtsGts(gtsDict: Buckets, dtsDict: Buckets, imgId: int, catId: int, cfg: ClassConfig, m: Math)
    returns (r: Result<seq<seq<Float>>>)
    ensures r == OlsDtsGts(gtsDict, dtsDict, imgId, catId, cfg, m)
  {
    var key := (imgId, catId);
    if key !in gtsDict || key !in dtsDict {
      return Err(KeyError);
    }
    var gts := gtsDict[key];
    var dts := SortByScore(dtsDict[key]);
    if |gts| == 0 || |dts| == 0 {
      return Ok([]);
    }
    var olss := new Float[|dts|, |gts|]((i, j) => Finite(0.0));
    for j := 0 to |gts|
      invariant ScanFrom(gts, dts, cfg, m, 0, 0) == ScanFrom(gts, dts, cfg, m, j, 0)
      invariant forall jj, ii :: 0 <= jj < j && 0 <= ii < |dts| ==>
        Metrics.GetOlsBtwObjects(gts[jj], dts[ii], cfg, m) == Ok(olss[ii, jj])
    {
      var e := FillColumn(olss, gts, dts, j, cfg, m);
      if e.Some? {
        return Err(e.value);
      }
    }
    var rows := seq(|dts|, i requires 0 <= i < |dts| reads olss =>
      seq(|gts|, j requires 0 <= j < |gts| reads olss => olss[i, j]));
    ScanFromSound(gts, dts, cfg, m, 0, 0);
    OlsEntriesDetermine(rows, OlsTable(gts, dts, cfg, m), gts, dts, cfg, m);
    r := Ok(rows);
  }

  /** The inner loop of `compute_ols_dts_gts` for ground truth j: fills
      column j detection by detection, stopping at the first exception. */
  method FillColumn(olss: array2<Float>, gts: seq<RadarObject>, dts: seq<RadarObject>, j: nat, cfg: ClassConfig, m: Math)
    returns (e: Option<Error>)
    requires olss.Length0 == |dts| && olss.Length1 == |gts| && j < |gts|
    modifies olss
    ensures e.Some? ==> ScanFrom(gts, dts, cfg, m, j, 0) == e
    ensures e.None? ==> ScanFrom(gts, dts, cfg, m, j, 0) == ScanFrom(gts, dts, cfg, m, j + 1, 0)
    ensures e.None? ==> forall ii :: 0 <= ii < |dts| ==> Metrics.GetOlsBtwObjects(gts[j], dts[ii], cfg, m) == Ok(olss[ii, j])
    ensures forall jj, ii :: 0 <= jj < |gts| && jj != j && 0 <= ii < |dts| ==> olss[ii, jj] == old(olss[ii, jj])
  {
    ghost var col: seq<Float> := [];
    for i := 0 to |dts|
      invariant |col| == i
      invariant forall ii :: 0 <= ii < i ==> Metrics.GetOlsBtwObjects(gts[j], dts[ii], cfg, m) == Ok(col[ii])
      invariant forall ii :: 0 <= ii < i ==> olss[ii, j] == col[ii]
      invariant forall jj, ii :: 0 <= jj < |gts| && jj != j && 0 <= ii < |dts| ==> olss[ii, jj] == old(olss[ii, jj])
    {
      var c := Metrics.GetOlsBtwObjects(gts[j], dts[i], cfg, m);
      if c.Err? {
        ScanFromStops(gts, dts, cfg, m, j, i);
        return Some(c.error);
      }
      olss[i, j] := c.value;
      col := col + [c.value];
    }
    ScanFromNextColumn(gts, dts, cfg, m, j);
    return None;
  }

  /** The first failing pair of column j ends the scan with its error. */
  lemma ScanFromStops(gts: seq<RadarObject>, dts: seq<RadarObject>, cfg: ClassConfig, m: Math, j: nat, i: nat)
    requires j < |gts| && i < |dts|
    requires forall ii :: 0 <= ii < i ==> Metrics.GetOlsBtwObjects(gts[j], dts[ii], cfg, m).Ok?
    requires Metrics.GetOlsBtwObjects(gts[j], dts[i], cfg, m).Err?
    ensures ScanFrom(gts, dts, cfg, m, j, 0) == Some(Metrics.GetOlsBtwObjects(gts[j], dts[i], cfg, m).error)
  {
    ScanFromSkip(gts, dts, cfg, m, j, i);
  }

  /** A column without failing pairs passes the scan on to the next column. */
  lemma ScanFromNextColumn(gts: seq<RadarObject>, dts: seq<RadarObject>, cfg: ClassConfig, m: Math, j: nat)
    requires j < |gts|
    requires forall ii :: 0 <= ii < |dts| ==> Metrics.GetOlsBtwObjects(gts[j], dts[ii], cfg, m).Ok?
    ensures ScanFrom(gts, dts, cfg, m, j, 0) == ScanFrom(gts, dts, cfg, m, j + 1, 0)
  {
    ScanFromSkip(gts, dts, cfg, m, j, |dts|);
  }

  /** Pairs that have an OLS do not stop the scan: it continues past them. */
  lemma {:induction false} ScanFromSkip(gts: seq<RadarObject>, dts: seq<RadarObject>, cfg: ClassConfig, m: Math, j: nat, i: nat)
    requires j < |gts| && i <= |dts|
    requires forall ii :: 0 <= ii < i ==> Metrics.GetOlsBtwObjects(gts[j], dts[ii], cfg, m).Ok?
    ensures ScanFrom(gts, dts, cfg, m, j, 0) == ScanFrom(gts, dts, cfg, m, j, i)
  {
    if i > 0 {
      ScanFromSkip(gts, dts, cfg, m, j, i - 1);
      assert Metrics.GetOlsBtwObjects(gts[j], dts[i - 1], cfg, m).Ok?;
    }
  }

  // ---------------------------------------------------------------------
  // The greedy matcher of evaluate_img

  /** `min([t, 1 - 1e-10])`: the OLS a pair must reach at threshold t. */
  function Seed(t: real): (r: real)
    ensures r <= t && r < 1.0
    ensures r == t || r == 1.0 - 0.0000000001
  {
    if t <= 1.0 - 0.0000000001 then t else 1.0 - 0.0000000001
  }

  /** `olss` has `rows` rows of `cols` entries. */
  predicate IsMatrix(olss: seq<seq<Float>>, rows: nat, cols: nat)
  {
    |olss| == rows && forall i :: 0 <= i < rows ==> |olss[i]| == cols
  }

  /** Ground truth h is still free (`taken[h] > 0` marks a match) and the
      detection's OLS with it is not below `seed`. */
  predicate Eligible(row: seq<Float>, taken: seq<int>, seed: real, h: nat)
    requires h < |taken| <= |row|
  {
    taken[h] <= 0 && !Less(row[h], Finite(seed))
  }

  /** `r` is the greedy choice among the first `g` ground truths: -1 when
      none is eligible; otherwise an eligible one whose OLS is the largest
      among the eligible ones and that no later eligible one ties. */
  predicate BestUpTo(row: seq<Float>, taken: seq<int>, seed: real, r: int, g: nat)
    requires g <= |taken| <= |row|
  {
    if r == -1 then forall h :: 0 <= h < g ==> !Eligible(row, taken, seed, h)
    else
      && 0 <= r < g
      && Eligible(row, taken, seed, r)
      && (forall h :: 0 <= h < g && Eligible(row, taken, seed, h) ==> !Less(row[r], row[h]))
      && (forall h :: r < h < g && Eligible(row, taken, seed, h) ==> Less(row[h], row[r]))
  }

  /** The greedy choice over all ground truths. */
  predicate BestMatch(row: seq<Float>, taken: seq<int>, seed: real, r: int)
    requires |taken| <= |row|
  {
    BestUpTo(row, taken, seed, r, |taken|)
  }

  /** No entry of the row is NaN. */
  predicate NoNaN(row: seq<Float>)
  {
    forall h :: 0 <= h < |row| ==> !row[h].NaN?
  }

  /** There is at most one greedy choice. */
  lemma BestMatchUnique(row: seq<Float>, taken: seq<int>, seed: real, r1: int, r2: int)
    requires |taken| <= |row|
    requires BestMatch(row, taken, seed, r1) && BestMatch(row, taken, seed, r2)
    ensures r1 == r2
  {
    assert r1 == -1 <==> r2 == -1;
    if r1 != -1 && r2 != -1 {
      assert !(r1 < r2) && !(r2 < r1);
    }
  }

  /** Only which ground truths are free matters, not the ids marking the
      taken ones. */
  lemma BestMatchFreeOnly(row: seq<Float>, t1: seq<int>, t2: seq<int>, seed: real, r: int)
    requires |t1| == |t2| <= |row|
    requires forall h :: 0 <= h < |t1| ==> (t1[h] <= 0 <==> t2[h] <= 0)
    ensures BestMatch(row, t1, seed, r) <==> BestMatch(row, t2, seed, r)
  {
    assert forall h :: 0 <= h < |t1| ==> (Eligible(row, t1, seed, h) <==> Eligible(row, t2, seed, h));
  }

  /** The loop over ground truths for one detection, from gt `g` on, with
      the best OLS `iou` and best index `m` found so far: a taken gt or one
      below `iou` is skipped, any other becomes the new best. */
  function PickFrom(row: seq<Float>, taken: seq<int>, iou: Float, m: int, g: nat): (r: int)
    requires |taken| <= |row|
    requires m == -1 || 0 <= m < g
    ensures r == m || (g <= r < |taken| && taken[r] <= 0)
    decreases |taken| - g
  {
    if g >= |taken| then m
    else if taken[g] > 0 || Less(row[g], iou) then PickFrom(row, taken, iou, m, g + 1)
    else PickFrom(row, taken, row[g], g, g + 1)
  }

  /** Without NaN, each step of the loop keeps `m` the greedy choice among
      the gts seen. */
  lemma {:induction false} PickFromIsBest(row: seq<Float>, taken: seq<int>, seed: real, m: int, g: nat)
    requires g <= |taken| <= |row|
    requires NoNaN(row)
    requires BestUpTo(row, taken, seed, m, g)
    ensures BestMatch(row, taken, seed, PickFrom(row, taken, if m == -1 then Finite(seed) else row[m], m, g))
    decreases |taken| - g
  {
    var iou := if m == -1 then Finite(seed) else row[m];
    if g < |taken| {
      if taken[g] > 0 || Less(row[g], iou) {
        assert BestUpTo(row, taken, seed, m, g + 1);
        PickFromIsBest(row, taken, seed, m, g + 1);
      } else {
        forall h | 0 <= h < g && Eligible(row, taken, seed, h)
          ensures !Less(row[g], row[h])
        {
          LessOrder(row[g], iou, row[h]);
        }
        assert BestUpTo(row, taken, seed, g, g + 1);
        PickFromIsBest(row, taken, seed, g, g + 1);
      }
    }
  }

  /** The loop never stops at a free ground truth whose OLS is NaN: NaN
      compares false with everything, so that gt or a later one is picked. */
  lemma {:induction false} PickFromPassesNaN(row: seq<Float>, taken: seq<int>, iou: Float, m: int, g: nat, h: nat)
    requires g <= h < |taken| <= |row|
    requires m == -1 || 0 <= m < g
    requires taken[h] <= 0 && row[h].NaN?
    ensures PickFrom(row, taken, iou, m, g) >= h
    decreases h - g
  {
    if g < h {
      if taken[g] > 0 || Less(row[g], iou) {
        PickFromPassesNaN(row, taken, iou, m, g + 1, h);
      } else {
        PickFromPassesNaN(row, taken, row[g], g, g + 1, h);
      }
    }
  }

  /** The match of one detection: the loop started from `iou = seed`,
      `m = -1`; it is -1 or a free gt, and without NaN in the row it is the
      greedy choice. */
  function Pick(row: seq<Float>, taken: seq<int>, seed: real): (r: int)
    requires |taken| <= |row|
    ensures -1 <= r < |taken|
    ensures r != -1 ==> taken[r] <= 0
    ensures NoNaN(row) ==> BestMatch(row, taken, seed, r)
  {
    assert NoNaN(row) ==> BestMatch(row, taken, seed, PickFrom(row, taken, Finite(seed), -1, 0)) by {
      if NoNaN(row) {
        PickFromIsBest(row, taken, seed, -1, 0);
      }
    }
    PickFrom(row, taken, Finite(seed), -1, 0)
  }

  /** A free ground truth with a NaN OLS is picked, or a later one is. */
  lemma PickPassesNaN(row: seq<Float>, taken: seq<int>, seed: real, h: nat)
    requires h < |taken| <= |row|
    requires taken[h] <= 0 && row[h].NaN?
    ensures Pick(row, taken, seed) >= h
  {
    PickFromPassesNaN(row, taken, Finite(seed), -1, 0, h);
  }

  function Zeros(n: nat): (r: seq<int>)
    ensures |r| == n
    ensures forall i :: 0 <= i < n ==> r[i] == 0
  {
    seq(n, i requires 0 <= i < n => 0)
  }

  /** One threshold's match rows (`dtm[t]`, `gtm[t]`) and, for the proofs,
      the gt index each visited detection picked (-1 for none). */
  datatype MatchRows = MatchRows(dtRow: seq<int>, gtRow: seq<int>, picks: seq<int>)

  /** The match rows after the first n score-sorted detections: a detection
      that picks gt g records `gts[g]['id']` and marks gt g with its own id. */
  function MatchPrefix(olss: seq<seq<Float>>, gtIds: seq<int>, dtIds: seq<int>, seed: real, n: nat): (s: MatchRows)
    requires IsMatrix(olss, |dtIds|, |gtIds|) && n <= |dtIds|
    ensures |s.dtRow| == |dtIds| && |s.gtRow| == |gtIds| && |s.picks| == n
    ensures forall d :: 0 <= d < n ==> -1 <= s.picks[d] < |gtIds|
  {
    if n == 0 then MatchRows(Zeros(|dtIds|), Zeros(|gtIds|), [])
    else
      var s := MatchPrefix(olss, gtIds, dtIds, seed, n - 1);
      var g := Pick(olss[n - 1], s.gtRow, seed);
      if g == -1 then MatchRows(s.dtRow, s.gtRow, s.picks + [-1])
      else MatchRows(s.dtRow[n - 1 := gtIds[g]], s.gtRow[g := dtIds[n - 1]], s.picks + [g])
  }

  /** The match rows of one threshold once every detection is visited. */
  function MatchThreshold(olss: seq<seq<Float>>, gtIds: seq<int>, dtIds: seq<int>, seed: real): (s: MatchRows)
    requires IsMatrix(olss, |dtIds|, |gtIds|)
    ensures |s.dtRow| == |dtIds| && |s.gtRow| == |gtIds| && |s.picks| == |dtIds|
  {
    MatchPrefix(olss, gtIds, dtIds, seed, |dtIds|)
  }

  predicate AllPositive(ids: seq<int>)
  {
    forall i :: 0 <= i < |ids| ==> ids[i] > 0
  }

  /** With positive detection ids, a ground truth is marked exactly when
      some detection picked it, and an unpicked one stays 0. */
  lemma {:induction false} MarksFollowPicks(olss: seq<seq<Float>>, gtIds: seq<int>, dtIds: seq<int>, seed: real, n: nat)
    requires IsMatrix(olss, |dtIds|, |gtIds|) && n <= |dtIds|
    requires AllPositive(dtIds)
    ensures forall g :: 0 <= g < |gtIds| ==>
      (MatchPrefix(olss, gtIds, dtIds, seed, n).gtRow[g] > 0 <==> g in MatchPrefix(olss, gtIds, dtIds, seed, n).picks)
    ensures forall g :: 0 <= g < |gtIds| && g !in MatchPrefix(olss, gtIds, dtIds, seed, n).picks ==>
      MatchPrefix(olss, gtIds, dtIds, seed, n).gtRow[g] == 0
  {
    if n > 0 {
      MarksFollowPicks(olss, gtIds, dtIds, seed, n - 1);
      var s := MatchPrefix(olss, gtIds, dtIds, seed, n - 1);
      var g := Pick(olss[n - 1], s.gtRow, seed);
      var s' := MatchPrefix(olss, gtIds, dtIds, seed, n);
      assert forall x :: x in s'.picks <==> x in s.picks || x == g;
    }
  }

  /** No ground truth is picked twice at one threshold. */
  lemma {:induction false} PicksDistinct(olss: seq<seq<Float>>, gtIds: seq<int>, dtIds: seq<int>, seed: real, n: nat)
    requires IsMatrix(olss, |dtIds|, |gtIds|) && n <= |dtIds|
    requires AllPositive(dtIds)
    ensures forall d1, d2 :: 0 <= d1 < d2 < n && MatchPrefix(olss, gtIds, dtIds, seed, n).picks[d1] >= 0 ==>
      MatchPrefix(olss, gtIds, dtIds, seed, n).picks[d1] != MatchPrefix(olss, gtIds, dtIds, seed, n).picks[d2]
  {
    if n > 0 {
      PicksDistinct(olss, gtIds, dtIds, seed, n - 1);
      MarksFollowPicks(olss, gtIds, dtIds, seed, n - 1);
      var s := MatchPrefix(olss, gtIds, dtIds, seed, n - 1);
      var g := Pick(olss[n - 1], s.gtRow, seed);
      assert MatchPrefix(olss, gtIds, dtIds, seed, n).picks == s.picks + [g];
      assert g != -1 ==> g !in s.picks;
      assert forall d :: 0 <= d < n - 1 ==> s.picks[d] in s.picks;
    }
  }

  /** A matched pair records each other's ids; an unmatched or not yet
      visited detection keeps 0. */
  lemma {:induction false} RowsRecordPairs(olss: seq<seq<Float>>, gtIds: seq<int>, dtIds: seq<int>, seed: real, n: nat)
    requires IsMatrix(olss, |dtIds|, |gtIds|) && n <= |dtIds|
    requires AllPositive(dtIds)
    ensures var s := MatchPrefix(olss, gtIds, dtIds, seed, n);
      && (forall d :: 0 <= d < n && s.picks[d] >= 0 ==>
            s.dtRow[d] == gtIds[s.picks[d]] && s.gtRow[s.picks[d]] == dtIds[d])
      && (forall d :: 0 <= d < n && s.picks[d] == -1 ==> s.dtRow[d] == 0)
  {
    if n > 0 {
      RowsRecordPairs(olss, gtIds, dtIds, seed, n - 1);
      UnvisitedZero(olss, gtIds, dtIds, seed, n - 1);
      PicksDistinct(olss, gtIds, dtIds, seed, n);
      var s := MatchPrefix(olss, gtIds, dtIds, seed, n - 1);
      var s' := MatchPrefix(olss, gtIds, dtIds, seed, n);
      var g := Pick(olss[n - 1], s.gtRow, seed);
      assert s'.picks == s.picks + [g];
      forall d | 0 <= d < n - 1 && g >= 0
        ensures s.picks[d] != g
      {
        assert s'.picks[d] == s.picks[d] && s'.picks[n - 1] == g;
      }
      PairStep(s, s', gtIds, dtIds, g);
    }
  }

  /** One detection's step keeps the pair records: the new pick, if any,
      is a gt no earlier detection picked, and the detection's entry was 0. */
  lemma PairStep(s: MatchRows, s': MatchRows, gtIds: seq<int>, dtIds: seq<int>, g: int)
    requires |s.picks| < |dtIds| == |s.dtRow| && |s.gtRow| == |gtIds| && -1 <= g < |gtIds|
    requires forall d :: 0 <= d < |s.picks| ==> -1 <= s.picks[d] < |gtIds|
    requires forall d :: 0 <= d < |s.picks| && s.picks[d] >= 0 ==>
      s.dtRow[d] == gtIds[s.picks[d]] && s.gtRow[s.picks[d]] == dtIds[d]
    requires forall d :: 0 <= d < |s.picks| && s.picks[d] == -1 ==> s.dtRow[d] == 0
    requires s.dtRow[|s.picks|] == 0
    requires forall d :: 0 <= d < |s.picks| && g >= 0 ==> s.picks[d] != g
    requires s' == if g == -1 then MatchRows(s.dtRow, s.gtRow, s.picks + [-1])
                   else MatchRows(s.dtRow[|s.picks| := gtIds[g]], s.gtRow[g := dtIds[|s.picks|]], s.picks + [g])
    ensures forall d :: 0 <= d < |s'.picks| && s'.picks[d] >= 0 ==>
      s'.dtRow[d] == gtIds[s'.picks[d]] && s'.gtRow[s'.picks[d]] == dtIds[d]
    ensures forall d :: 0 <= d < |s'.picks| && s'.picks[d] == -1 ==> s'.dtRow[d] == 0
  {
    var n := |s.picks|;
    forall d | 0 <= d < n + 1 && s'.picks[d] >= 0
      ensures s'.dtRow[d] == gtIds[s'.picks[d]] && s'.gtRow[s'.picks[d]] == dtIds[d]
    {
      if d < n {
        assert s'.picks[d] == s.picks[d] != g;
      }
    }
    forall d | 0 <= d < n + 1 && s'.picks[d] == -1
      ensures s'.dtRow[d] == 0
    {
      if d < n {
        assert s'.picks[d] == s.picks[d];
      }
    }
  }

  /** A detection not yet visited keeps 0. */
  lemma {:induction false} UnvisitedZero(olss: seq<seq<Float>>, gtIds: seq<int>, dtIds: seq<int>, seed: real, n: nat)
    requires IsMatrix(olss, |dtIds|, |gtIds|) && n <= |dtIds|
    ensures forall d :: n <= d < |dtIds| ==> MatchPrefix(olss, gtIds, dtIds, seed, n).dtRow[d] == 0
  {
    if n > 0 {
      UnvisitedZero(olss, gtIds, dtIds, seed, n - 1);
    }
  }

  /** Detections claim ground truths in score order: each one picks the
      greedy choice among the gts that no higher-ranked detection picked. */
  function ClaimedBy(before: seq<int>, g: nat): (r: seq<int>)
    ensures |r| == g
    ensures forall h :: 0 <= h < g ==> (r[h] > 0 <==> h in before)
  {
    seq(g, h requires 0 <= h < g => if h in before then 1 else 0)
  }

  lemma {:induction false} PicksPrefix(olss: seq<seq<Float>>, gtIds: seq<int>, dtIds: seq<int>, seed: real, n: nat, k: nat)
    requires IsMatrix(olss, |dtIds|, |gtIds|) && k <= n <= |dtIds|
    ensures MatchPrefix(olss, gtIds, dtIds, seed, n).picks[..k] == MatchPrefix(olss, gtIds, dtIds, seed, k).picks
    decreases n
  {
    if k < n {
      PicksPrefix(olss, gtIds, dtIds, seed, n - 1, k);
      var p := MatchPrefix(olss, gtIds, dtIds, seed, n - 1).picks;
      assert MatchPrefix(olss, gtIds, dtIds, seed, n).picks[..k] == p[..k];
    }
  }

  lemma MatchIsGreedy(olss: seq<seq<Float>>, gtIds: seq<int>, dtIds: seq<int>, seed: real, d: nat)
    requires IsMatrix(olss, |dtIds|, |gtIds|) && d < |dtIds|
    requires AllPositive(dtIds) && NoNaN(olss[d])
    ensures var picks := MatchThreshold(olss, gtIds, dtIds, seed).picks;
      BestMatch(olss[d], ClaimedBy(picks[..d], |gtIds|), seed, picks[d])
  {
    var picks := MatchThreshold(olss, gtIds, dtIds, seed).picks;
    var s := MatchPrefix(olss, gtIds, dtIds, seed, d);
    PicksPrefix(olss, gtIds, dtIds, seed, |dtIds|, d + 1);
    PicksPrefix(olss, gtIds, dtIds, seed, |dtIds|, d);
    assert picks[..d + 1][d] == picks[d];
    assert picks[d] == Pick(olss[d], s.gtRow, seed);
    MarksFollowPicks(olss, gtIds, dtIds, seed, d);
    BestMatchFreeOnly(olss[d], s.gtRow, ClaimedBy(picks[..d], |gtIds|), seed, picks[d]);
  }

  /** `np.count_nonzero(row)`. */
  function CountNonZero(s: seq<int>): (r: nat)
    ensures r <= |s|
  {
    if |s| == 0 then 0 else CountNonZero(s[..|s| - 1]) + (if s[|s| - 1] != 0 then 1 else 0)
  }

  lemma {:induction false} CountSet(s: seq<int>, i: nat, v: int)
    requires i < |s| && s[i] == 0 && v != 0
    ensures CountNonZero(s[i := v]) == CountNonZero(s) + 1
  {
    var n := |s| - 1;
    if i == n {
      assert s[i := v][..n] == s[..n];
    } else {
      assert s[i := v][..n] == s[..n][i := v];
      CountSet(s[..n], i, v);
    }
  }

  lemma {:induction false} CountZeros(n: nat)
    ensures CountNonZero(Zeros(n)) == 0
  {
    if n > 0 {
      assert Zeros(n)[..n - 1] == Zeros(n - 1);
      CountZeros(n - 1);
    }
  }

  /** With positive ids on both sides, a threshold has as many matched
      detections as matched ground truths. */
  lemma {:induction false} MatchCountsAgree(olss: seq<seq<Float>>, gtIds: seq<int>, dtIds: seq<int>, seed: real, n: nat)
    requires IsMatrix(olss, |dtIds|, |gtIds|) && n <= |dtIds|
    requires AllPositive(dtIds) && AllPositive(gtIds)
    ensures CountNonZero(MatchPrefix(olss, gtIds, dtIds, seed, n).dtRow)
         == CountNonZero(MatchPrefix(olss, gtIds, dtIds, seed, n).gtRow)
  {
    if n == 0 {
      CountZeros(|dtIds|);
      CountZeros(|gtIds|);
    } else {
      MatchCountsAgree(olss, gtIds, dtIds, seed, n - 1);
      MarksFollowPicks(olss, gtIds, dtIds, seed, n - 1);
      UnvisitedZero(olss, gtIds, dtIds, seed, n - 1);
      var s := MatchPrefix(olss, gtIds, dtIds, seed, n - 1);
      var g := Pick(olss[n - 1], s.gtRow, seed);
      if g != -1 {
        assert s.gtRow[g] == 0 && s.dtRow[n - 1] == 0;
        CountSet(s.dtRow, n - 1, gtIds[g]);
        CountSet(s.gtRow, g, dtIds[n - 1]);
      }
    }
  }

  // ---------------------------------------------------------------------
  // evaluate_img

  /** The record `evaluate_img` returns for a (frame, class) bucket; the
      match rows hold ids (0 = unmatched), one row per OLS threshold. */
  datatype EvalImg = EvalImg(
    imageId: int,
    categoryId: int,
    dtIds: seq<int>,
    gtIds: seq<int>,
    dtMatches: seq<seq<int>>,
    gtMatches: seq<seq<int>>,
    dtScores: seq<real>)

  /** The OLS matrix stored for a bucket is either empty or has one row per
      detection and one column per ground truth, as `compute_ols_dts_gts`
      produces it. */
  predicate OlsShaped(olss: seq<seq<Float>>, nDt: nat, nGt: nat)
  {
    olss == [] || IsMatrix(olss, nDt, nGt)
  }

  /** The match rows of threshold `thr`: all zero when the stored matrix is
      empty, the greedy matching otherwise. */
  function RowsAt(olss: seq<seq<Float>>, gtIds: seq<int>, dtIds: seq<int>, thr: real): (s: MatchRows)
    requires OlsShaped(olss, |dtIds|, |gtIds|)
    ensures |s.dtRow| == |dtIds| && |s.gtRow| == |gtIds|
  {
    if olss == [] then MatchRows(Zeros(|dtIds|), Zeros(|gtIds|), [])
    else MatchThreshold(olss, gtIds, dtIds, Seed(thr))
  }

  /** `dtm`: one row of detection matches per threshold. */
  function DtMatches(olss: seq<seq<Float>>, gtIds: seq<int>, dtIds: seq<int>, olsThrs: seq<real>): (r: seq<seq<int>>)
    requires OlsShaped(olss, |dtIds|, |gtIds|)
    ensures |r| == |olsThrs|
    ensures forall t :: 0 <= t < |olsThrs| ==> r[t] == RowsAt(olss, gtIds, dtIds, olsThrs[t]).dtRow
  {
    seq(|olsThrs|, t requires 0 <= t < |olsThrs| => RowsAt(olss, gtIds, dtIds, olsThrs[t]).dtRow)
  }

  /** `gtm`: one row of ground-truth matches per threshold. */
  function GtMatches(olss: seq<seq<Float>>, gtIds: seq<int>, dtIds: seq<int>, olsThrs: seq<real>): (r: seq<seq<int>>)
    requires OlsShaped(olss, |dtIds|, |gtIds|)
    ensures |r| == |olsThrs|
    ensures forall t :: 0 <= t < |olsThrs| ==> r[t] == RowsAt(olss, gtIds, dtIds, olsThrs[t]).gtRow
  {
    seq(|olsThrs|, t requires 0 <= t < |olsThrs| => RowsAt(olss, gtIds, dtIds, olsThrs[t]).gtRow)
  }

  /** `evaluate_img`: KeyError for a missing bucket, None when both lists
      are empty, KeyError for a missing OLS entry; otherwise per threshold
      the greedy match rows, all zero when the stored matrix is empty. */
  function EvalImgSpec(gtsDict: Buckets, dtsDict: Buckets, imgId: int, catId: int,
                       olssDict: map<(int, int), seq<seq<Float>>>, olsThrs: seq<real>): (r: Result<Option<EvalImg>>)
    requires (imgId, catId) in gtsDict && (imgId, catId) in dtsDict && (imgId, catId) in olssDict ==>
      OlsShaped(olssDict[(imgId, catId)], |dtsDict[(imgId, catId)]|, |gtsDict[(imgId, catId)]|)
    ensures (imgId, catId) !in gtsDict || (imgId, catId) !in dtsDict ==> r == Err(KeyError)
    ensures (imgId, catId) in gtsDict && (imgId, catId) in dtsDict ==>
      (r == Ok(None) <==> |gtsDict[(imgId, catId)]| == 0 && |dtsDict[(imgId, catId)]| == 0)
    ensures r.Ok? && r.value.Some? ==>
      && r.value.value.imageId == imgId && r.value.value.categoryId == catId
      && |r.value.value.dtMatches| == |olsThrs| && |r.value.value.gtMatches| == |olsThrs|
      && (forall t :: 0 <= t < |olsThrs| ==>
            |r.value.value.dtMatches[t]| == |dtsDict[(imgId, catId)]| &&
            |r.value.value.gtMatches[t]| == |gtsDict[(imgId, catId)]|)
  {
    var key := (imgId, catId);
    if key !in gtsDict || key !in dtsDict then Err(KeyError)
    else
      var gts := gtsDict[key];
      if |gts| == 0 && |dtsDict[key]| == 0 then Ok(None)
      else if key !in olssDict then Err(KeyError)
      else
        var dts := SortByScore(dtsDict[key]);
        var olss := olssDict[key];
        Ok(Some(EvalImg(imgId, catId, Ids(dts), Ids(gts),
          DtMatches(olss, Ids(gts), Ids(dts), olsThrs), GtMatches(olss, Ids(gts), Ids(dts), olsThrs),
          Scores(dts))))
  }

  /** Row t of a 2-D array. */
  function RowOf(a: array2<int>, t: nat): (r: seq<int>)
    requires t < a.Length0
    reads a
    ensures |r| == a.Length1
    ensures forall j :: 0 <= j < a.Length1 ==> r[j] == a[t, j]
  {
    seq(a.Length1, j requires 0 <= j < a.Length1 reads a => a[t, j])
  }

  /** All rows of a 2-D array. */
  function RowsOf(a: array2<int>): (r: seq<seq<int>>)
    reads a
    ensures |r| == a.Length0
    ensures forall t :: 0 <= t < a.Length0 ==> r[t] == RowOf(a, t)
  {
    seq(a.Length0, t requires 0 <= t < a.Length0 reads a => RowOf(a, t))
  }

  /** The loop over ground truths for one detection, reading the
      threshold's gt match row in place. */
  method PickInRow(gtm: array2<int>, tind: nat, row: seq<Float>, seed: real) returns (m: int)
    requires tind < gtm.Length0 && gtm.Length1 <= |row|
    ensures m == Pick(row, RowOf(gtm, tind), seed)
  {
    ghost var taken := RowOf(gtm, tind);
    var iou := Finite(seed);
    m := -1;
    for g := 0 to gtm.Length1
      invariant m == -1 || 0 <= m < g
      invariant PickFrom(row, taken, iou, m, g) == Pick(row, taken, seed)
    {
      if gtm[tind, g] > 0 {
        continue;
      }
      if Less(row[g], iou) {
        continue;
      }
      iou := row[g];
      m := g;
    }
  }

  /** One iteration of the threshold loop: visits the detections in score
      order and fills row `tind` of `dtm` and `gtm` in place. */
  method MatchOneThreshold(gtm: array2<int>, dtm: array2<int>, tind: nat,
                           olss: seq<seq<Float>>, gtIds: seq<int>, dtIds: seq<int>, seed: real)
    requires gtm != dtm
    requires tind < gtm.Length0 && tind < dtm.Length0
    requires gtm.Length1 == |gtIds| && dtm.Length1 == |dtIds|
    requires IsMatrix(olss, |dtIds|, |gtIds|)
    requires RowOf(gtm, tind) == Zeros(|gtIds|) && RowOf(dtm, tind) == Zeros(|dtIds|)
    modifies gtm, dtm
    ensures RowOf(gtm, tind) == MatchThreshold(olss, gtIds, dtIds, seed).gtRow
    ensures RowOf(dtm, tind) == MatchThreshold(olss, gtIds, dtIds, seed).dtRow
    ensures forall t :: 0 <= t < gtm.Length0 && t != tind ==> RowOf(gtm, t) == old(RowOf(gtm, t))
    ensures forall t :: 0 <= t < dtm.Length0 && t != tind ==> RowOf(dtm, t) == old(RowOf(dtm, t))
  {
    for d := 0 to |dtIds|
      invariant RowOf(gtm, tind) == MatchPrefix(olss, gtIds, dtIds, seed, d).gtRow
      invariant RowOf(dtm, tind) == MatchPrefix(olss, gtIds, dtIds, seed, d).dtRow
      invariant forall t, j :: 0 <= t < gtm.Length0 && t != tind && 0 <= j < gtm.Length1 ==> gtm[t, j] == old(gtm[t, j])
      invariant forall t, j :: 0 <= t < dtm.Length0 && t != tind && 0 <= j < dtm.Length1 ==> dtm[t, j] == old(dtm[t, j])
    {
      var m := PickInRow(gtm, tind, olss[d], seed);
      if m != -1 {
        RecordMatch(gtm, dtm, tind, d, m, gtIds, dtIds);
      }
    }
  }

  /** `dtm[tind, dind] = gts[m]['id']; gtm[tind, m] = d['id']`. */
  method RecordMatch(gtm: array2<int>, dtm: array2<int>, tind: nat, d: nat, m: nat, gtIds: seq<int>, dtIds: seq<int>)
    requires gtm != dtm
    requires tind < gtm.Length0 && tind < dtm.Length0
    requires m < gtm.Length1 == |gtIds| && d < dtm.Length1 == |dtIds|
    modifies gtm, dtm
    ensures RowOf(gtm, tind) == old(RowOf(gtm, tind))[m := dtIds[d]]
    ensures RowOf(dtm, tind) == old(RowOf(dtm, tind))[d := gtIds[m]]
    ensures forall t, j :: 0 <= t < gtm.Length0 && t != tind && 0 <= j < gtm.Length1 ==> gtm[t, j] == old(gtm[t, j])
    ensures forall t, j :: 0 <= t < dtm.Length0 && t != tind && 0 <= j < dtm.Length1 ==> dtm[t, j] == old(dtm[t, j])
  {
    dtm[tind, d] := gtIds[m];
    gtm[tind, m] := dtIds[d];
  }

  /** The threshold loop of `evaluate_img` over freshly zeroed match
      arrays; it runs only when the stored matrix is non-empty. */
  method MatchAllThresholds(gtm: array2<int>, dtm: array2<int>, olss: seq<seq<Float>>,
                            gtIds: seq<int>, dtIds: seq<int>, olsThrs: seq<real>)
    requires gtm != dtm
    requires gtm.Length0 == |olsThrs| && dtm.Length0 == |olsThrs|
    requires gtm.Length1 == |gtIds| && dtm.Length1 == |dtIds|
    requires OlsShaped(olss, |dtIds|, |gtIds|)
    requires forall t, j :: 0 <= t < gtm.Length0 && 0 <= j < gtm.Length1 ==> gtm[t, j] == 0
    requires forall t, j :: 0 <= t < dtm.Length0 && 0 <= j < dtm.Length1 ==> dtm[t, j] == 0
    modifies gtm, dtm
    ensures RowsOf(gtm) == GtMatches(olss, gtIds, dtIds, olsThrs)
    ensures RowsOf(dtm) == DtMatches(olss, gtIds, dtIds, olsThrs)
  {
    var T := |olsThrs|;
    assert forall t :: 0 <= t < T ==> RowOf(gtm, t) == Zeros(|gtIds|) && RowOf(dtm, t) == Zeros(|dtIds|);
    if |olss| != 0 {
      for tind := 0 to T
        invariant forall t :: 0 <= t < tind ==>
          RowOf(gtm, t) == RowsAt(olss, gtIds, dtIds, olsThrs[t]).gtRow &&
          RowOf(dtm, t) == RowsAt(olss, gtIds, dtIds, olsThrs[t]).dtRow
        invariant forall t :: tind <= t < T ==> RowOf(gtm, t) == Zeros(|gtIds|) && RowOf(dtm, t) == Zeros(|dtIds|)
      {
        MatchOneThreshold(gtm, dtm, tind, olss, gtIds, dtIds, Seed(olsThrs[tind]));
      }
    }
    assert RowsOf(dtm) == DtMatches(olss, gtIds, dtIds, olsThrs);
    assert RowsOf(gtm) == GtMatches(olss, gtIds, dtIds, olsThrs);
  }

  /** `evaluate_img(gts_dict, dts_dict, imgId, catId, olss_dict, olsThrs, ...)`. */
  method EvaluateImg(gtsDict: Buckets, dtsDict: Buckets, imgId: int, catId: int,
                     olssDict: map<(int, int), seq<seq<Float>>>, olsThrs: seq<real>)
    returns (r: Result<Option<EvalImg>>)
    requires (imgId, catId) in gtsDict && (imgId, catId) in dtsDict && (imgId, catId) in olssDict ==>
      OlsShaped(olssDict[(imgId, catId)], |dtsDict[(imgId, catId)]|, |gtsDict[(imgId, catId)]|)
    ensures r == EvalImgSpec(gtsDict, dtsDict, imgId, catId, olssDict, olsThrs)
  {
    var key := (imgId, catId);
    if key !in gtsDict || key !in dtsDict {
      return Err(KeyError);
    }
    var gts := gtsDict[key];
    if |gts| == 0 && |dtsDict[key]| == 0 {
      return Ok(None);
    }
    var dts := SortByScore(dtsDict[key]);
    if key !in olssDict {
      return Err(KeyError);
    }
    var olss := olssDict[key];
    var T := |olsThrs|;
    var gtIds := Ids(gts);
    var dtIds := Ids(dts);
    var gtm := new int[T, |gts|]((t, j) => 0);
    var dtm := new int[T, |dts|]((t, j) => 0);
    MatchAllThresholds(gtm, dtm, olss, gtIds, dtIds, olsThrs);
    r := Ok(Some(EvalImg(imgId, catId, Ids(dts), Ids(gts), RowsOf(dtm), RowsOf(gtm), Scores(dts))));
  }

  // ---------------------------------------------------------------------
  // Properties of the evaluation record

  /** `compute_ols_dts_gts` produces what `evaluate_img` expects to find. */
  lemma OlsDtsGtsShaped(gtsDict: Buckets, dtsDict: Buckets, imgId: int, catId: int, cfg: ClassConfig, m: Math)
    requires OlsDtsGts(gtsDict, dtsDict, imgId, catId, cfg, m).Ok?
    ensures OlsShaped(OlsDtsGts(gtsDict, dtsDict, imgId, catId, cfg, m).value,
                      |dtsDict[(imgId, catId)]|, |gtsDict[(imgId, catId)]|)
  {
  }

  /** With every ground truth off the origin and a positive size prior for
      its class, a computed OLS matrix is NaN-free, with every entry a
      finite number in (0, 1]. */
  lemma OlsDtsGtsFinite(gtsDict: Buckets, dtsDict: Buckets, imgId: int, catId: int, cfg: ClassConfig, m: Math)
    requires Pythagorean(m) && SqrtLaws(m) && ExpAtZero(m) && ExpMonotone(m)
    requires OlsDtsGts(gtsDict, dtsDict, imgId, catId, cfg, m).Ok?
    requires forall j :: 0 <= j < |gtsDict[(imgId, catId)]| ==>
      gtsDict[(imgId, catId)][j].range > 0.0 &&
      Metrics.Kappa(cfg, gtsDict[(imgId, catId)][j].classId).Ok? &&
      Metrics.Kappa(cfg, gtsDict[(imgId, catId)][j].classId).value > 0.0
    ensures var olss := OlsDtsGts(gtsDict, dtsDict, imgId, catId, cfg, m).value;
      forall i, j :: 0 <= i < |olss| && 0 <= j < |olss[i]| ==>
        olss[i][j].Finite? && 0.0 < olss[i][j].v <= 1.0
    ensures var olss := OlsDtsGts(gtsDict, dtsDict, imgId, catId, cfg, m).value;
      forall i :: 0 <= i < |olss| ==> NoNaN(olss[i])
  {
    var olss: seq<seq<Float>> := OlsDtsGts(gtsDict, dtsDict, imgId, catId, cfg, m).value;
    var gts := gtsDict[(imgId, catId)];
    var dts := SortByScore(dtsDict[(imgId, catId)]);
    if olss != [] {
      forall i: int, j: int | 0 <= i < |olss| && 0 <= j < |olss[i]|
        ensures olss[i][j].Finite? && 0.0 < olss[i][j].v <= 1.0
      {
        assert Metrics.GetOlsBtwObjects(gts[j], dts[i], cfg, m) == Ok(olss[i][j]);
        Metrics.BtwObjectsFinite(gts[j], dts[i], cfg, m);
      }
    }
  }

  /** A ground truth (score 1.0) with a detection of its class scored above
      1.0 makes the first pair raise TypeError: the highest-scored detection
      comes first. */
  lemma OverconfidentDetectionRaises(gtsDict: Buckets, dtsDict: Buckets, imgId: int, catId: int, cfg: ClassConfig, m: Math, k: nat)
    requires (imgId, catId) in gtsDict && (imgId, catId) in dtsDict
    requires |gtsDict[(imgId, catId)]| > 0 && gtsDict[(imgId, catId)][0].score == 1.0
    requires forall i :: 0 <= i < |dtsDict[(imgId, catId)]| ==>
      dtsDict[(imgId, catId)][i].classId == gtsDict[(imgId, catId)][0].classId
    requires k < |dtsDict[(imgId, catId)]| && dtsDict[(imgId, catId)][k].score > 1.0
    ensures OlsDtsGts(gtsDict, dtsDict, imgId, catId, cfg, m) == Err(TypeError)
  {
    var dts := dtsDict[(imgId, catId)];
    var p := SortByScoreIsStable(dts);
    assert k in p;
    var q :| 0 <= q < |p| && p[q] == k;
    var sorted := SortByScore(dts);
    assert sorted[q] == dts[k];
    assert sorted[0].score >= sorted[q].score;
    assert sorted[0] == dts[p[0]];
    assert Metrics.GetOlsBtwObjects(gtsDict[(imgId, catId)][0], sorted[0], cfg, m) == Err(TypeError);
  }

  /** Conversely, with ground truth at score 1.0, detections at most 1.0 and
      a single class, no pair raises TypeError. */
  lemma NoTypeErrorWithinScoreRange(gtsDict: Buckets, dtsDict: Buckets, imgId: int, catId: int, cfg: ClassConfig, m: Math)
    requires (imgId, catId) in gtsDict && (imgId, catId) in dtsDict
    requires forall j :: 0 <= j < |gtsDict[(imgId, catId)]| ==>
      gtsDict[(imgId, catId)][j].score == 1.0 && gtsDict[(imgId, catId)][j].classId == catId
    requires forall i :: 0 <= i < |dtsDict[(imgId, catId)]| ==>
      dtsDict[(imgId, catId)][i].score <= 1.0 && dtsDict[(imgId, catId)][i].classId == catId
    ensures OlsDtsGts(gtsDict, dtsDict, imgId, catId, cfg, m) != Err(TypeError)
  {
    var gts := gtsDict[(imgId, catId)];
    var dts := dtsDict[(imgId, catId)];
    var p := SortByScoreIsStable(dts);
    var sorted := SortByScore(dts);
    forall j, i | 0 <= j < |gts| && 0 <= i < |dts|
      ensures Metrics.GetOlsBtwObjects(gts[j], sorted[i], cfg, m) != Err(TypeError)
    {
      assert sorted[i] == dts[p[i]];
    }
    ScanFromSound(gts, sorted, cfg, m, 0, 0);
  }

  /** With positive ids on both sides, at every threshold each non-zero
      entry of a match row names a partner whose entry names it back. */
  lemma {:induction false} RowsAtMutual(olss: seq<seq<Float>>, gtIds: seq<int>, dtIds: seq<int>, thr: real)
    requires OlsShaped(olss, |dtIds|, |gtIds|)
    requires AllPositive(dtIds) && AllPositive(gtIds)
    ensures forall d :: 0 <= d < |dtIds| && RowsAt(olss, gtIds, dtIds, thr).dtRow[d] != 0 ==>
      exists g :: 0 <= g < |gtIds| && RowsAt(olss, gtIds, dtIds, thr).dtRow[d] == gtIds[g] &&
        RowsAt(olss, gtIds, dtIds, thr).gtRow[g] == dtIds[d]
    ensures forall g :: 0 <= g < |gtIds| && RowsAt(olss, gtIds, dtIds, thr).gtRow[g] != 0 ==>
      exists d :: 0 <= d < |dtIds| && RowsAt(olss, gtIds, dtIds, thr).gtRow[g] == dtIds[d] &&
        RowsAt(olss, gtIds, dtIds, thr).dtRow[d] == gtIds[g]
  {
    if olss != [] {
      var n := |dtIds|;
      var s := MatchPrefix(olss, gtIds, dtIds, Seed(thr), n);
      assert RowsAt(olss, gtIds, dtIds, thr) == s;
      RowsRecordPairs(olss, gtIds, dtIds, Seed(thr), n);
      MarksFollowPicks(olss, gtIds, dtIds, Seed(thr), n);
      PairsMutual(s, gtIds, dtIds);
    }
  }

  /** Rows whose picks record each pair on both sides, and whose unpicked
      entries are 0, hold only mutual pairs. */
  lemma PairsMutual(s: MatchRows, gtIds: seq<int>, dtIds: seq<int>)
    requires |s.dtRow| == |dtIds| == |s.picks| && |s.gtRow| == |gtIds|
    requires forall d :: 0 <= d < |dtIds| ==> -1 <= s.picks[d] < |gtIds|
    requires forall d :: 0 <= d < |dtIds| && s.picks[d] >= 0 ==>
      s.dtRow[d] == gtIds[s.picks[d]] && s.gtRow[s.picks[d]] == dtIds[d]
    requires forall d :: 0 <= d < |dtIds| && s.picks[d] == -1 ==> s.dtRow[d] == 0
    requires forall g :: 0 <= g < |gtIds| && g !in s.picks ==> s.gtRow[g] == 0
    ensures forall d :: 0 <= d < |dtIds| && s.dtRow[d] != 0 ==>
      exists g :: 0 <= g < |gtIds| && s.dtRow[d] == gtIds[g] && s.gtRow[g] == dtIds[d]
    ensures forall g :: 0 <= g < |gtIds| && s.gtRow[g] != 0 ==>
      exists d :: 0 <= d < |dtIds| && s.gtRow[g] == dtIds[d] && s.dtRow[d] == gtIds[g]
  {
    forall d | 0 <= d < |dtIds| && s.dtRow[d] != 0
      ensures exists g :: 0 <= g < |gtIds| && s.dtRow[d] == gtIds[g] && s.gtRow[g] == dtIds[d]
    {
      var g := s.picks[d];
      assert s.dtRow[d] == gtIds[g] && s.gtRow[g] == dtIds[d];
    }
    forall g | 0 <= g < |gtIds| && s.gtRow[g] != 0
      ensures exists d :: 0 <= d < |dtIds| && s.gtRow[g] == dtIds[d] && s.dtRow[d] == gtIds[g]
    {
      assert g in s.picks;
      var d :| 0 <= d < |dtIds| && s.picks[d] == g;
      assert s.gtRow[g] == dtIds[d] && s.dtRow[d] == gtIds[g];
    }
  }

  /** At every threshold as many detections as ground truths are matched,
      so the matched detections never outnumber the ground truths. */
  lemma RowsAtCounts(olss: seq<seq<Float>>, gtIds: seq<int>, dtIds: seq<int>, thr: real)
    requires OlsShaped(olss, |dtIds|, |gtIds|)
    requires AllPositive(dtIds) && AllPositive(gtIds)
    ensures CountNonZero(RowsAt(olss, gtIds, dtIds, thr).dtRow) == CountNonZero(RowsAt(olss, gtIds, dtIds, thr).gtRow)
    ensures CountNonZero(RowsAt(olss, gtIds, dtIds, thr).dtRow) <= |gtIds|
  {
    if olss == [] {
      CountZeros(|dtIds|);
      CountZeros(|gtIds|);
    } else {
      MatchCountsAgree(olss, gtIds, dtIds, Seed(thr), |dtIds|);
    }
  }
}
