/** `accumulate`: per class, the matches of every frame are pooled and
    re-sorted by score, turned into cumulative true/false positive counts,
    recall and an enveloped precision curve, and the precision is sampled
    at fixed recall levels. */
module RodAccumulate {
  import opened Wrappers
  import opened Argsort
  import opened RodMatch

  // ---------------------------------------------------------------------
  // Gathering a class's records

  /** `[evalImgs[i * n_class + classid] for i in range(n_frame)]`; an index
      past the end raises IndexError. */
  function ClassEntries(evalImgs: seq<Option<EvalImg>>, nFrame: nat, nClass: nat, c: nat): (r: Result<seq<Option<EvalImg>>>)
    ensures r.Err? ==> r.error == IndexError
    ensures r.Ok? ==> |r.value| == nFrame
  {
    if nFrame == 0 then Ok([])
    else
      match ClassEntries(evalImgs, nFrame - 1, nClass, c)
      case Err(e) => Err(e)
      case Ok(prefix) =>
        match PyGet(evalImgs, (nFrame - 1) * nClass + c)
        case Err(e) => Err(e)
        case Ok(x) => Ok(prefix + [x])
  }

  /** The entries of class c can be read exactly when every slot
      `i * n_class + c` exists, and then entry i is that slot. */
  lemma {:induction false} ClassEntriesSound(evalImgs: seq<Option<EvalImg>>, nFrame: nat, nClass: nat, c: nat)
    ensures var r := ClassEntries(evalImgs, nFrame, nClass, c);
      && (r.Ok? <==> forall i :: 0 <= i < nFrame ==> i * nClass + c < |evalImgs|)
      && (r.Ok? ==> forall i :: 0 <= i < nFrame ==> r.value[i] == evalImgs[i * nClass + c])
  {
    if nFrame > 0 {
      ClassEntriesSound(evalImgs, nFrame - 1, nClass, c);
    }
  }

  /** `[e for e in E if not e is None]`. */
  function Somes(xs: seq<Option<EvalImg>>): (r: seq<EvalImg>)
    ensures |r| <= |xs|
    ensures forall e :: e in r <==> Some(e) in xs
    ensures r == [] <==> forall i :: 0 <= i < |xs| ==> xs[i].None?
  {
    if |xs| == 0 then []
    else
      var rest := Somes(xs[..|xs| - 1]);
      assert forall x :: x in xs <==> x in xs[..|xs| - 1] || x == xs[|xs| - 1];
      match xs[|xs| - 1]
      case None => rest
      case Some(e) => rest + [e]
  }

  /** The record of a bucket has one match row per threshold, each as long
      as the bucket's detection (or ground-truth) list. */
  predicate Shaped(e: EvalImg, nThr: nat)
  {
    && |e.dtMatches| == nThr
    && |e.gtMatches| == nThr
    && (forall t :: 0 <= t < nThr ==> |e.dtMatches[t]| == |e.dtScores| && |e.gtMatches[t]| == |e.gtIds|)
  }

  predicate AllShaped(E: seq<EvalImg>, nThr: nat)
  {
    forall k :: 0 <= k < |E| ==> Shaped(E[k], nThr)
  }

  /** `nd`: the number of pooled detections. */
  function NumDts(E: seq<EvalImg>): nat
  {
    if |E| == 0 then 0 else NumDts(E[..|E| - 1]) + |E[|E| - 1].dtScores|
  }

  /** `ng = gtm.shape[1]`: the number of pooled ground truths. */
  function NumGts(E: seq<EvalImg>): nat
  {
    if |E| == 0 then 0 else NumGts(E[..|E| - 1]) + |E[|E| - 1].gtIds|
  }

  /** `np.concatenate([e['dtScores'] for e in E])`. */
  function PooledScores(E: seq<EvalImg>): (r: seq<real>)
    ensures |r| == NumDts(E)
  {
    if |E| == 0 then [] else PooledScores(E[..|E| - 1]) + E[|E| - 1].dtScores
  }

  /** Row t of `np.concatenate([e['dtMatches'] for e in E], axis=1)`. */
  function PooledMatches(E: seq<EvalImg>, t: nat): (r: seq<int>)
    requires forall k :: 0 <= k < |E| ==> t < |E[k].dtMatches| && |E[k].dtMatches[t]| == |E[k].dtScores|
    ensures |r| == NumDts(E)
  {
    if |E| == 0 then [] else PooledMatches(E[..|E| - 1], t) + E[|E| - 1].dtMatches[t]
  }

  /** The pooled matched-detection count of threshold t. */
  function PooledMatchedCount(E: seq<EvalImg>, t: nat): nat
    requires forall k :: 0 <= k < |E| ==> t < |E[k].dtMatches|
  {
    if |E| == 0 then 0 else PooledMatchedCount(E[..|E| - 1], t) + CountNonZero(E[|E| - 1].dtMatches[t])
  }

  // ---------------------------------------------------------------------
  // Cumulative counts and curves

  /** `np.count_nonzero(np.logical_not(row))`. */
  function CountZero(s: seq<int>): (r: nat)
    ensures r + CountNonZero(s) == |s|
  {
    if |s| == 0 then 0 else CountZero(s[..|s| - 1]) + (if s[|s| - 1] == 0 then 1 else 0)
  }

  /** `np.cumsum(dtm_row != 0)`, a running sum over the matches. */
  function TpCum(row: seq<int>): (r: seq<nat>)
    ensures |r| == |row|
  {
    if |row| == 0 then []
    else
      var p := TpCum(row[..|row| - 1]);
      p + [(if |p| == 0 then 0 else p[|p| - 1]) + (if row[|row| - 1] != 0 then 1 else 0)]
  }

  /** `np.cumsum(dtm_row == 0)`, a running sum over the misses. */
  function FpCum(row: seq<int>): (r: seq<nat>)
    ensures |r| == |row|
  {
    if |row| == 0 then []
    else
      var p := FpCum(row[..|row| - 1]);
      p + [(if |p| == 0 then 0 else p[|p| - 1]) + (if row[|row| - 1] == 0 then 1 else 0)]
  }

  /** Entry i of the TP running sum counts the matched detections among the
      first i + 1. */
  lemma {:induction false} TpCumCounts(row: seq<int>, i: nat)
    requires i < |row|
    ensures TpCum(row)[i] == CountNonZero(row[..i + 1])
    decreases |row|
  {
    var n := |row| - 1;
    assert row[..n + 1] == row;
    if i < n {
      TpCumCounts(row[..n], i);
      assert row[..n][..i + 1] == row[..i + 1];
    } else if n > 0 {
      TpCumCounts(row[..n], n - 1);
      assert row[..n][..n] == row[..n];
    }
  }

  /** Entry i of the FP running sum counts the unmatched detections among
      the first i + 1. */
  lemma {:induction false} FpCumCounts(row: seq<int>, i: nat)
    requires i < |row|
    ensures FpCum(row)[i] == CountZero(row[..i + 1])
    decreases |row|
  {
    var n := |row| - 1;
    assert row[..n + 1] == row;
    if i < n {
      FpCumCounts(row[..n], i);
      assert row[..n][..i + 1] == row[..i + 1];
    } else if n > 0 {
      FpCumCounts(row[..n], n - 1);
      assert row[..n][..n] == row[..n];
    }
  }

  /** Every detection up to i is counted once: TP + FP = i + 1. */
  lemma TpPlusFp(row: seq<int>)
    ensures forall i :: 0 <= i < |row| ==> TpCum(row)[i] + FpCum(row)[i] == i + 1
  {
    forall i | 0 <= i < |row|
      ensures TpCum(row)[i] + FpCum(row)[i] == i + 1
    {
      TpCumCounts(row, i);
      FpCumCounts(row, i);
    }
  }

  lemma {:induction false} CountNonZeroPrefix(s: seq<int>, i: nat, j: nat)
    requires i <= j <= |s|
    ensures CountNonZero(s[..i]) <= CountNonZero(s[..j])
    decreases j - i
  {
    if i < j {
      CountNonZeroPrefix(s, i, j - 1);
      assert s[..j][..j - 1] == s[..j - 1];
    }
  }

  /** The cumulative TP count never decreases. */
  lemma TpNonDecreasing(row: seq<int>)
    ensures forall i, j :: 0 <= i <= j < |row| ==> TpCum(row)[i] <= TpCum(row)[j]
  {
    forall i, j | 0 <= i <= j < |row|
      ensures TpCum(row)[i] <= TpCum(row)[j]
    {
      TpCumCounts(row, i);
      TpCumCounts(row, j);
      CountNonZeroPrefix(row, i + 1, j + 1);
    }
  }

  /** `rc = tp / ng`, with the float epsilon replaced by exact division and
      a class without ground truth getting recall 0. */
  function RecallCurve(tp: seq<nat>, ng: nat): (r: seq<real>)
    ensures |r| == |tp|
    ensures forall i :: 0 <= i < |tp| ==> r[i] * (ng as real) == (if ng == 0 then 0.0 else tp[i] as real)
  {
    seq(|tp|, i requires 0 <= i < |tp| => if ng == 0 then 0.0 else tp[i] as real / ng as real)
  }

  lemma DivInUnit(a: real, b: real)
    requires 0.0 <= a <= b && b > 0.0
    ensures 0.0 <= a / b <= 1.0
  {
    assert a / b * b == a;
  }

  /** `pr = tp / (fp + tp)`: every entry lies in [0, 1]. */
  function PrecisionCurve(tp: seq<nat>, fp: seq<nat>): (r: seq<real>)
    requires |fp| == |tp|
    ensures |r| == |tp|
    ensures forall i :: 0 <= i < |tp| ==> 0.0 <= r[i] <= 1.0
    ensures forall i :: 0 <= i < |tp| ==> r[i] * ((tp[i] + fp[i]) as real) == tp[i] as real
  {
    forall i | 0 <= i < |tp| && tp[i] + fp[i] > 0
      ensures 0.0 <= tp[i] as real / (tp[i] + fp[i]) as real <= 1.0
    {
      DivInUnit(tp[i] as real, (tp[i] + fp[i]) as real);
    }
    seq(|tp|, i requires 0 <= i < |tp| =>
      if tp[i] + fp[i] == 0 then 0.0 else tp[i] as real / (tp[i] + fp[i]) as real)
  }

  // ---------------------------------------------------------------------
  // The precision envelope

  /** The largest of `s[i..]`, folded from the right. */
  function MaxFrom(s: seq<real>, i: nat): (r: real)
    requires i < |s|
    decreases |s| - i
  {
    if i == |s| - 1 then s[i]
    else
      var m := MaxFrom(s, i + 1);
      if m > s[i] then m else s[i]
  }

  /** MaxFrom bounds every later entry and is one of them. */
  lemma {:induction false} MaxFromIsMax(s: seq<real>, i: nat)
    requires i < |s|
    ensures forall j :: i <= j < |s| ==> s[j] <= MaxFrom(s, i)
    ensures MaxFrom(s, i) in s[i..]
    decreases |s| - i
  {
    if i < |s| - 1 {
      MaxFromIsMax(s, i + 1);
      var k :| 0 <= k < |s[i + 1..]| && s[i + 1..][k] == MaxFrom(s, i + 1);
      assert s[i..][k + 1] == MaxFrom(s, i + 1);
      assert s[i..][0] == s[i];
    } else {
      assert s[i..][0] == s[i];
    }
  }

  /** Entry i is the maximum of `s[i..]`. */
  function SuffixMax(s: seq<real>): (r: seq<real>)
    ensures |r| == |s|
    ensures forall i, j :: 0 <= i <= j < |s| ==> s[j] <= r[i]
    ensures forall i :: 0 <= i < |s| ==> r[i] in s[i..]
  {
    var r := seq(|s|, i requires 0 <= i < |s| => MaxFrom(s, i));
    assert forall i :: 0 <= i < |s| ==> (forall j :: i <= j < |s| ==> s[j] <= r[i]) && r[i] in s[i..] by {
      forall i | 0 <= i < |s|
        ensures (forall j :: i <= j < |s| ==> s[j] <= r[i]) && r[i] in s[i..]
      {
        MaxFromIsMax(s, i);
      }
    }
    r
  }

  /** The envelope is non-increasing and keeps the bounds of its input. */
  lemma SuffixMaxShape(s: seq<real>, lo: real, hi: real)
    requires forall i :: 0 <= i < |s| ==> lo <= s[i] <= hi
    ensures forall i, j :: 0 <= i <= j < |s| ==> SuffixMax(s)[j] <= SuffixMax(s)[i]
    ensures forall i :: 0 <= i < |s| ==> lo <= SuffixMax(s)[i] <= hi
  {
    var r := SuffixMax(s);
    forall i, j | 0 <= i <= j < |s|
      ensures r[j] <= r[i]
    {
      var k :| 0 <= k < |s[j..]| && s[j..][k] == r[j];
      assert s[j + k] == r[j];
    }
    forall i | 0 <= i < |s|
      ensures r[i] <= hi
    {
      var k :| 0 <= k < |s[i..]| && s[i..][k] == r[i];
      assert s[i + k] == r[i];
    }
  }

  /** `for i in range(nd - 1, 0, -1): if pr[i] > pr[i - 1]: pr[i - 1] = pr[i]`,
      in place. */
  method Envelope(pr: array<real>)
    modifies pr
    ensures pr[..] == SuffixMax(old(pr[..]))
  {
    ghost var s := pr[..];
    if pr.Length == 0 {
      return;
    }
    var i := pr.Length - 1;
    while i > 0
      invariant 0 <= i < pr.Length
      invariant forall k :: 0 <= k < i ==> pr[k] == s[k]
      invariant forall k :: i <= k < pr.Length ==> pr[k] == MaxFrom(s, k)
    {
      if pr[i] > pr[i - 1] {
        pr[i - 1] := pr[i];
      }
      i := i - 1;
    }
    assert pr[..] == SuffixMax(s);
  }

  // ---------------------------------------------------------------------
  // Resampling at the recall levels

  /** `np.searchsorted(rc, x, side='left')` on a non-decreasing `rc`: the
      first index whose recall reaches x, or |rc| when none does. */
  function SearchLeft(rc: seq<real>, x: real): (r: nat)
    ensures r <= |rc|
    ensures forall k :: 0 <= k < r ==> rc[k] < x
    ensures r < |rc| ==> rc[r] >= x
  {
    if |rc| == 0 || rc[0] >= x then 0
    else
      var k := SearchLeft(rc[1..], x);
      assert forall j :: 1 <= j < |rc| ==> rc[j] == rc[1..][j - 1];
      k + 1
  }

  /** A higher recall level is reached no earlier on a non-decreasing curve. */
  lemma SearchLeftMonotone(rc: seq<real>, x: real, y: real)
    requires forall i, j :: 0 <= i <= j < |rc| ==> rc[i] <= rc[j]
    requires x <= y
    ensures SearchLeft(rc, x) <= SearchLeft(rc, y)
  {
  }

  /** The sample positions of every recall level. */
  function Positions(rc: seq<real>, recThrs: seq<real>): (r: seq<nat>)
    ensures |r| == |recThrs|
    ensures forall k :: 0 <= k < |recThrs| ==> r[k] == SearchLeft(rc, recThrs[k])
  {
    seq(|recThrs|, k requires 0 <= k < |recThrs| => SearchLeft(rc, recThrs[k]))
  }

  /** The first recall level whose position falls past the last detection:
      reading there raises IndexError, which ends the sampling loop. */
  function FirstUnreachable(inds: seq<nat>, n: nat): (r: nat)
    ensures r <= |inds|
    ensures forall k :: 0 <= k < r ==> inds[k] < n
    ensures r < |inds| ==> inds[r] >= n
  {
    var asReals := seq(|inds|, k requires 0 <= k < |inds| => inds[k] as real);
    assert forall k :: 0 <= k < |inds| ==> (asReals[k] < n as real <==> inds[k] < n);
    SearchLeft(asReals, n as real)
  }

  /** `q[ri] = vals[inds[ri]]` for every level before the first unreachable
      one; that level and every later one keep their initial 0. */
  function Resampled(vals: seq<real>, inds: seq<nat>): (r: seq<real>)
    ensures |r| == |inds|
  {
    var cut := FirstUnreachable(inds, |vals|);
    seq(|inds|, k requires 0 <= k < |inds| => if k < cut then vals[inds[k]] else 0.0)
  }

  /** The sampling loop with its `try`/`except: pass`, reading the enveloped
      precision and the sorted scores at the same positions. */
  method Resample(pr: array<real>, sortedScores: seq<real>, inds: seq<nat>) returns (q: seq<real>, ss: seq<real>)
    requires |sortedScores| == pr.Length
    ensures q == Resampled(pr[..], inds)
    ensures ss == Resampled(sortedScores, inds)
  {
    var qa := new real[|inds|](_ => 0.0);
    var sa := new real[|inds|](_ => 0.0);
    var ri := 0;
    while ri < |inds|
      invariant 0 <= ri <= |inds|
      invariant forall k :: 0 <= k < ri ==> inds[k] < pr.Length
      invariant forall k :: 0 <= k < ri ==> qa[k] == pr[inds[k]] && sa[k] == sortedScores[inds[k]]
      invariant forall k :: ri <= k < |inds| ==> qa[k] == 0.0 && sa[k] == 0.0
    {
      var pi := inds[ri];
      if pi >= pr.Length {
        break;
      }
      qa[ri] := pr[pi];
      sa[ri] := sortedScores[pi];
      ri := ri + 1;
    }
    assert ri == FirstUnreachable(inds, pr.Length);
    q := qa[..];
    ss := sa[..];
  }

  /** With non-decreasing positions and a non-increasing, non-negative
      curve, the samples are non-increasing: the 0 tail lies below every
      sampled value. */
  lemma ResampledNonIncreasing(vals: seq<real>, inds: seq<nat>)
    requires forall i, j :: 0 <= i <= j < |vals| ==> vals[j] <= vals[i]
    requires forall i :: 0 <= i < |vals| ==> vals[i] >= 0.0
    requires forall i, j :: 0 <= i <= j < |inds| ==> inds[i] <= inds[j]
    ensures forall i, j :: 0 <= i <= j < |inds| ==> Resampled(vals, inds)[j] <= Resampled(vals, inds)[i]
  {
  }

  /** Sampling keeps any bounds of the curve that also hold for 0. */
  lemma ResampledBounds(vals: seq<real>, inds: seq<nat>, lo: real, hi: real)
    requires lo <= 0.0 <= hi
    requires forall i :: 0 <= i < |vals| ==> lo <= vals[i] <= hi
    ensures forall k :: 0 <= k < |inds| ==> lo <= Resampled(vals, inds)[k] <= hi
  {
  }

  // ---------------------------------------------------------------------
  // One class, one threshold

  /** Every pooled record has a match row for threshold t as long as its
      detection list. */
  predicate RowAt(E: seq<EvalImg>, t: nat)
  {
    forall k :: 0 <= k < |E| ==> t < |E[k].dtMatches| && |E[k].dtMatches[t]| == |E[k].dtScores|
  }

  lemma ShapedRowAt(E: seq<EvalImg>, nThr: nat, t: nat)
    requires AllShaped(E, nThr) && t < nThr
    ensures RowAt(E, t)
  {
  }

  /** What the threshold loop stores for one class: `recall[t, c]`,
      `precision[t, :, c]` and `scores[t, :, c]`. */
  datatype Curve = Curve(recall: real, precision: seq<real>, scores: seq<real>)

  /** Row t of the class's pooled matches in global score order. */
  function SortedMatches(E: seq<EvalImg>, t: nat): (r: seq<int>)
    requires RowAt(E, t)
    ensures |r| == NumDts(E)
  {
    Permute(PooledMatches(E, t), StableArgsortDesc(PooledScores(E)))
  }

  /** The class's pooled scores in global score order. */
  function SortedScores(E: seq<EvalImg>): (r: seq<real>)
    ensures |r| == NumDts(E)
  {
    Permute(PooledScores(E), StableArgsortDesc(PooledScores(E)))
  }

  /** The pooled detections are re-sorted by a stable descending sort of
      their scores; the match rows follow the same permutation. */
  lemma PooledSortDescending(E: seq<EvalImg>)
    ensures IsArgsort(PooledScores(E), StableArgsortDesc(PooledScores(E)))
    ensures forall i, j :: 0 <= i < j < NumDts(E) ==> SortedScores(E)[i] >= SortedScores(E)[j]
  {
    PermutedKeysDescending(PooledScores(E));
  }

  /** `rc` of threshold t. */
  function RecallAt(E: seq<EvalImg>, t: nat): (r: seq<real>)
    requires RowAt(E, t)
    ensures |r| == NumDts(E)
  {
    RecallCurve(TpCum(SortedMatches(E, t)), NumGts(E))
  }

  /** `pr` of threshold t, before the envelope. */
  function PrecisionAt(E: seq<EvalImg>, t: nat): (r: seq<real>)
    requires RowAt(E, t)
    ensures |r| == NumDts(E)
  {
    var row := SortedMatches(E, t);
    PrecisionCurve(TpCum(row), FpCum(row))
  }

  /** The body of `for t, (tp, fp) in enumerate(zip(tp_sum, fp_sum))`. */
  function ClassCurve(E: seq<EvalImg>, t: nat, recThrs: seq<real>): (c: Curve)
    requires RowAt(E, t)
    ensures |c.precision| == |recThrs| && |c.scores| == |recThrs|
  {
    var rc := RecallAt(E, t);
    var inds := Positions(rc, recThrs);
    Curve(
      if NumDts(E) > 0 then rc[NumDts(E) - 1] else 0.0,
      Resampled(SuffixMax(PrecisionAt(E, t)), inds),
      Resampled(SortedScores(E), inds))
  }

  /** The threshold loop body computed with the list and array updates of
      the source: the envelope rewrites `pr` in place before sampling. */
  method ComputeCurve(E: seq<EvalImg>, t: nat, recThrs: seq<real>) returns (c: Curve)
    requires RowAt(E, t)
    ensures c == ClassCurve(E, t, recThrs)
  {
    var row := SortedMatches(E, t);
    var tp := TpCum(row);
    var fp := FpCum(row);
    var rc := RecallCurve(tp, NumGts(E));
    var prs := PrecisionCurve(tp, fp);
    var nd := |row|;
    var recall := if nd > 0 then rc[nd - 1] else 0.0;
    var pr := new real[nd](i requires 0 <= i < nd => prs[i]);
    assert pr[..] == prs;
    Envelope(pr);
    var q, ss := Resample(pr, SortedScores(E), Positions(rc, recThrs));
    c := Curve(recall, q, ss);
  }

  lemma DivMonotone(a: real, b: real, n: real)
    requires a <= b && n > 0.0
    ensures a / n <= b / n
  {
  }

  lemma RecallNonDecreasing(tp: seq<nat>, ng: nat)
    requires forall i, j :: 0 <= i <= j < |tp| ==> tp[i] <= tp[j]
    ensures forall i, j :: 0 <= i <= j < |tp| ==> RecallCurve(tp, ng)[i] <= RecallCurve(tp, ng)[j]
  {
    if ng > 0 {
      forall i, j | 0 <= i <= j < |tp|
        ensures RecallCurve(tp, ng)[i] <= RecallCurve(tp, ng)[j]
      {
        DivMonotone(tp[i] as real, tp[j] as real, ng as real);
      }
    }
  }

  /** The recall curve never decreases along the sorted detections. */
  lemma RecallAtNonDecreasing(E: seq<EvalImg>, t: nat)
    requires RowAt(E, t)
    ensures forall i, j :: 0 <= i <= j < NumDts(E) ==> RecallAt(E, t)[i] <= RecallAt(E, t)[j]
  {
    var row := SortedMatches(E, t);
    TpNonDecreasing(row);
    RecallNonDecreasing(TpCum(row), NumGts(E));
  }

  /** Every sampled precision lies in [0, 1]. */
  lemma ClassCurveInUnit(E: seq<EvalImg>, t: nat, recThrs: seq<real>)
    requires RowAt(E, t)
    ensures forall r :: 0 <= r < |recThrs| ==> 0.0 <= ClassCurve(E, t, recThrs).precision[r] <= 1.0
  {
    var pr := PrecisionAt(E, t);
    SuffixMaxShape(pr, 0.0, 1.0);
    ResampledBounds(SuffixMax(pr), Positions(RecallAt(E, t), recThrs), 0.0, 1.0);
  }

  /** For non-decreasing recall levels the sampled precision is
      non-increasing. */
  lemma ClassCurveMonotone(E: seq<EvalImg>, t: nat, recThrs: seq<real>)
    requires RowAt(E, t)
    requires forall i, j :: 0 <= i <= j < |recThrs| ==> recThrs[i] <= recThrs[j]
    ensures forall i, j :: 0 <= i <= j < |recThrs| ==>
      ClassCurve(E, t, recThrs).precision[j] <= ClassCurve(E, t, recThrs).precision[i]
  {
    var rc := RecallAt(E, t);
    var inds := Positions(rc, recThrs);
    var env := SuffixMax(PrecisionAt(E, t));
    assert ClassCurve(E, t, recThrs).precision == Resampled(env, inds);
    SuffixMaxShape(PrecisionAt(E, t), 0.0, 1.0);
    RecallAtNonDecreasing(E, t);
    PositionsMonotone(rc, recThrs);
    ResampledNonIncreasing(env, inds);
  }

  /** On a non-decreasing curve, sorted levels give sorted positions. */
  lemma PositionsMonotone(rc: seq<real>, recThrs: seq<real>)
    requires forall i, j :: 0 <= i <= j < |rc| ==> rc[i] <= rc[j]
    requires forall i, j :: 0 <= i <= j < |recThrs| ==> recThrs[i] <= recThrs[j]
    ensures forall i, j :: 0 <= i <= j < |recThrs| ==> Positions(rc, recThrs)[i] <= Positions(rc, recThrs)[j]
  {
    var inds := Positions(rc, recThrs);
    forall i, j | 0 <= i <= j < |recThrs|
      ensures inds[i] <= inds[j]
    {
      SearchLeftMonotone(rc, recThrs[i], recThrs[j]);
    }
  }

  /** With non-decreasing recall levels, level r samples at the first
      detection whose recall reaches it, and the value sampled is the best
      precision from there on; a level the curve never reaches gets 0. */
  lemma ClassCurveSamples(E: seq<EvalImg>, t: nat, recThrs: seq<real>, r: nat)
    requires RowAt(E, t)
    requires forall i, j :: 0 <= i <= j < |recThrs| ==> recThrs[i] <= recThrs[j]
    requires r < |recThrs|
    ensures var rc := RecallAt(E, t);
      var pi := SearchLeft(rc, recThrs[r]);
      var q := ClassCurve(E, t, recThrs).precision[r];
      if pi < NumDts(E) then
        && (forall k :: 0 <= k < pi ==> rc[k] < recThrs[r])
        && rc[pi] >= recThrs[r]
        && (forall j :: pi <= j < NumDts(E) ==> PrecisionAt(E, t)[j] <= q)
        && q in PrecisionAt(E, t)[pi..]
      else q == 0.0
  {
    var rc := RecallAt(E, t);
    var inds := Positions(rc, recThrs);
    var n := NumDts(E);
    var pr := PrecisionAt(E, t);
    var cut := FirstUnreachable(inds, n);
    ResampledAt(SuffixMax(pr), inds, r);
    if inds[r] < n {
      RecallAtNonDecreasing(E, t);
      forall k | 0 <= k < r
        ensures inds[k] < n
      {
        SearchLeftMonotone(rc, recThrs[k], recThrs[r]);
      }
      assert r < cut;
    } else {
      assert !(r < cut);
    }
  }

  lemma ResampledAt(vals: seq<real>, inds: seq<nat>, r: nat)
    requires r < |inds|
    ensures Resampled(vals, inds)[r] ==
      if r < FirstUnreachable(inds, |vals|) then vals[inds[r]] else 0.0
  {
  }

  // ---------------------------------------------------------------------
  // accumulate

  /** A class's contribution: no records, or its ground-truth count and one
      curve per threshold. */
  datatype ClassSummary = NoRecords | Summary(count: nat, curves: seq<Curve>)

  /** The accumulated evaluation: `counts` = [T, R, K], `object_counts`,
      and `precision` [T][R][K], `recall` [T][K], `scores` [T][R][K]. */
  datatype AccEval = AccEval(
    counts: seq<nat>,
    objectCounts: seq<nat>,
    precision: seq<seq<seq<real>>>,
    recall: seq<seq<real>>,
    scores: seq<seq<seq<real>>>)

  /** The records `accumulate` can rely on: each present record has one
      match row per threshold, as `evaluate_img` builds them. */
  predicate RecordsShaped(evalImgs: seq<Option<EvalImg>>, nThr: nat)
  {
    forall i :: 0 <= i < |evalImgs| && evalImgs[i].Some? ==> Shaped(evalImgs[i].value, nThr)
  }

  lemma SomesShaped(entries: seq<Option<EvalImg>>, nThr: nat)
    requires forall i :: 0 <= i < |entries| && entries[i].Some? ==> Shaped(entries[i].value, nThr)
    ensures AllShaped(Somes(entries), nThr)
  {
    var E := Somes(entries);
    forall k | 0 <= k < |E|
      ensures Shaped(E[k], nThr)
    {
      assert E[k] in E;
      var i :| 0 <= i < |entries| && entries[i] == Some(E[k]);
    }
  }

  /** The entries of every class below n can be read. */
  predicate ReadUpTo(evalImgs: seq<Option<EvalImg>>, nFrame: nat, nClass: nat, n: nat)
  {
    forall c :: 0 <= c < n ==> ClassEntries(evalImgs, nFrame, nClass, c).Ok?
  }

  /** Every class's entries can be read. */
  predicate AllClassesRead(evalImgs: seq<Option<EvalImg>>, nFrame: nat, nClass: nat)
  {
    ReadUpTo(evalImgs, nFrame, nClass, nClass)
  }

  /** The pooled records of class c. */
  function ClassRecords(evalImgs: seq<Option<EvalImg>>, nFrame: nat, nClass: nat, c: nat, nThr: nat): (E: seq<EvalImg>)
    requires RecordsShaped(evalImgs, nThr)
    requires ClassEntries(evalImgs, nFrame, nClass, c).Ok?
    ensures AllShaped(E, nThr)
  {
    var entries := ClassEntries(evalImgs, nFrame, nClass, c).value;
    ClassEntriesSound(evalImgs, nFrame, nClass, c);
    SomesShaped(entries, nThr);
    Somes(entries)
  }

  /** A summary with one curve per threshold, each curve sampled at every
      recall level. */
  predicate Fits(s: ClassSummary, nThr: nat, nRec: nat)
  {
    s.Summary? ==> (|s.curves| == nThr &&
      forall t :: 0 <= t < nThr ==> |s.curves[t].precision| == nRec && |s.curves[t].scores| == nRec)
  }

  /** What the class loop computes from a class's records. */
  function SummaryOf(E: seq<EvalImg>, nThr: nat, recThrs: seq<real>): (s: ClassSummary)
    requires AllShaped(E, nThr)
    ensures Fits(s, nThr, |recThrs|)
    ensures s.NoRecords? <==> E == []
  {
    if |E| == 0 then NoRecords
    else Summary(NumGts(E), seq(nThr, t requires 0 <= t < nThr => ShapedRowAt(E, nThr, t); ClassCurve(E, t, recThrs)))
  }

  /** The summaries of the classes below n, in class order. */
  function SummariesUpTo(evalImgs: seq<Option<EvalImg>>, nFrame: nat, nClass: nat, n: nat, olsThrs: seq<real>, recThrs: seq<real>): (S: seq<ClassSummary>)
    requires RecordsShaped(evalImgs, |olsThrs|)
    requires ReadUpTo(evalImgs, nFrame, nClass, n)
    ensures |S| == n
    ensures AllFit(S, |olsThrs|, |recThrs|)
  {
    if n == 0 then []
    else
      SummariesUpTo(evalImgs, nFrame, nClass, n - 1, olsThrs, recThrs) +
        [SummaryOf(ClassRecords(evalImgs, nFrame, nClass, n - 1, |olsThrs|), |olsThrs|, recThrs)]
  }

  /** Entry c of the summaries is the summary of class c's records. */
  lemma {:induction false} SummariesUpToAt(evalImgs: seq<Option<EvalImg>>, nFrame: nat, nClass: nat, n: nat, olsThrs: seq<real>, recThrs: seq<real>, c: nat)
    requires RecordsShaped(evalImgs, |olsThrs|)
    requires ReadUpTo(evalImgs, nFrame, nClass, n)
    requires c < n
    ensures SummariesUpTo(evalImgs, nFrame, nClass, n, olsThrs, recThrs)[c] ==
      SummaryOf(ClassRecords(evalImgs, nFrame, nClass, c, |olsThrs|), |olsThrs|, recThrs)
  {
    if c < n - 1 {
      SummariesUpToAt(evalImgs, nFrame, nClass, n - 1, olsThrs, recThrs, c);
    }
  }

  function CountOf(s: ClassSummary): nat
  {
    if s.NoRecords? then 0 else s.count
  }

  function RecallOf(s: ClassSummary, t: nat): real
    requires s.Summary? ==> t < |s.curves|
  {
    if s.NoRecords? then -1.0 else s.curves[t].recall
  }

  function PrecisionOf(s: ClassSummary, t: nat, r: nat): real
    requires s.Summary? ==> t < |s.curves| && r < |s.curves[t].precision|
  {
    if s.NoRecords? then -1.0 else s.curves[t].precision[r]
  }

  function ScoreOf(s: ClassSummary, t: nat, r: nat): real
    requires s.Summary? ==> t < |s.curves| && r < |s.curves[t].scores|
  {
    if s.NoRecords? then -1.0 else s.curves[t].scores[r]
  }

  predicate AllFit(S: seq<ClassSummary>, nThr: nat, nRec: nat)
  {
    forall c :: 0 <= c < |S| ==> Fits(S[c], nThr, nRec)
  }

  function PrecisionTable(S: seq<ClassSummary>, nThr: nat, nRec: nat): (r: seq<seq<seq<real>>>)
    requires AllFit(S, nThr, nRec)
    ensures |r| == nThr
    ensures forall t :: 0 <= t < nThr ==> |r[t]| == nRec
    ensures forall t, q :: 0 <= t < nThr && 0 <= q < nRec ==> |r[t][q]| == |S|
    ensures forall t, q, c :: 0 <= t < nThr && 0 <= q < nRec && 0 <= c < |S| ==> r[t][q][c] == PrecisionOf(S[c], t, q)
  {
    seq(nThr, t requires 0 <= t < nThr =>
      seq(nRec, q requires 0 <= q < nRec =>
        seq(|S|, c requires 0 <= c < |S| => PrecisionOf(S[c], t, q))))
  }

  function ScoreTable(S: seq<ClassSummary>, nThr: nat, nRec: nat): (r: seq<seq<seq<real>>>)
    requires AllFit(S, nThr, nRec)
    ensures |r| == nThr
    ensures forall t :: 0 <= t < nThr ==> |r[t]| == nRec
    ensures forall t, q :: 0 <= t < nThr && 0 <= q < nRec ==> |r[t][q]| == |S|
    ensures forall t, q, c :: 0 <= t < nThr && 0 <= q < nRec && 0 <= c < |S| ==> r[t][q][c] == ScoreOf(S[c], t, q)
  {
    seq(nThr, t requires 0 <= t < nThr =>
      seq(nRec, q requires 0 <= q < nRec =>
        seq(|S|, c requires 0 <= c < |S| => ScoreOf(S[c], t, q))))
  }

  function RecallTable(S: seq<ClassSummary>, nThr: nat, nRec: nat): (r: seq<seq<real>>)
    requires AllFit(S, nThr, nRec)
    ensures |r| == nThr
    ensures forall t :: 0 <= t < nThr ==> |r[t]| == |S|
    ensures forall t, c :: 0 <= t < nThr && 0 <= c < |S| ==> r[t][c] == RecallOf(S[c], t)
  {
    seq(nThr, t requires 0 <= t < nThr => seq(|S|, c requires 0 <= c < |S| => RecallOf(S[c], t)))
  }

  function Counts(S: seq<ClassSummary>): (r: seq<nat>)
    ensures |r| == |S|
    ensures forall c :: 0 <= c < |S| ==> r[c] == CountOf(S[c])
  {
    seq(|S|, c requires 0 <= c < |S| => CountOf(S[c]))
  }

  /** `accumulate(evalImgs, n_frame, olsThrs, recThrs, dataset)`:
      IndexError when some class reads past the records, otherwise every
      class's summary placed at its index, with -1 for a class without
      records. */
  function AccumulateSpec(evalImgs: seq<Option<EvalImg>>, nFrame: nat, nClass: nat, olsThrs: seq<real>, recThrs: seq<real>): (r: Result<AccEval>)
    requires RecordsShaped(evalImgs, |olsThrs|)
    ensures r.Err? <==> !AllClassesRead(evalImgs, nFrame, nClass)
    ensures r.Err? ==> r.error == IndexError
    ensures r.Ok? ==> r.value.counts == [|olsThrs|, |recThrs|, nClass] && |r.value.objectCounts| == nClass
  {
    if !AllClassesRead(evalImgs, nFrame, nClass) then Err(IndexError)
    else
      var S := SummariesUpTo(evalImgs, nFrame, nClass, nClass, olsThrs, recThrs);
      var T := |olsThrs|;
      var R := |recThrs|;
      Ok(AccEval([T, R, nClass], Counts(S), PrecisionTable(S, T, R), RecallTable(S, T, R), ScoreTable(S, T, R)))
  }

  function Snap2(a: array2<real>): (r: seq<seq<real>>)
    reads a
    ensures |r| == a.Length0
    ensures forall i :: 0 <= i < a.Length0 ==> |r[i]| == a.Length1
    ensures forall i, j :: 0 <= i < a.Length0 && 0 <= j < a.Length1 ==> r[i][j] == a[i, j]
  {
    seq(a.Length0, i requires 0 <= i < a.Length0 reads a =>
      seq(a.Length1, j requires 0 <= j < a.Length1 reads a => a[i, j]))
  }

  function Snap3(a: array3<real>): (r: seq<seq<seq<real>>>)
    reads a
    ensures |r| == a.Length0
    ensures forall i :: 0 <= i < a.Length0 ==> |r[i]| == a.Length1
    ensures forall i, j :: 0 <= i < a.Length0 && 0 <= j < a.Length1 ==> |r[i][j]| == a.Length2
    ensures forall i, j, k :: 0 <= i < a.Length0 && 0 <= j < a.Length1 && 0 <= k < a.Length2 ==> r[i][j][k] == a[i, j, k]
  {
    seq(a.Length0, i requires 0 <= i < a.Length0 reads a =>
      seq(a.Length1, j requires 0 <= j < a.Length1 reads a =>
        seq(a.Length2, k requires 0 <= k < a.Length2 reads a => a[i, j, k])))
  }

  lemma Same2(a: seq<seq<real>>, b: seq<seq<real>>)
    requires |a| == |b| && forall i :: 0 <= i < |a| ==> |a[i]| == |b[i]|
    requires forall i, j :: 0 <= i < |a| && 0 <= j < |a[i]| ==> a[i][j] == b[i][j]
    ensures a == b
  {
    forall i | 0 <= i < |a|
      ensures a[i] == b[i]
    {
      assert forall j :: 0 <= j < |a[i]| ==> a[i][j] == b[i][j];
    }
  }

  lemma Same3(a: seq<seq<seq<real>>>, b: seq<seq<seq<real>>>)
    requires |a| == |b| && forall i :: 0 <= i < |a| ==> |a[i]| == |b[i]|
    requires forall i, j :: 0 <= i < |a| && 0 <= j < |a[i]| ==> |a[i][j]| == |b[i][j]|
    requires forall i, j, k :: 0 <= i < |a| && 0 <= j < |a[i]| && 0 <= k < |a[i][j]| ==> a[i][j][k] == b[i][j][k]
    ensures a == b
  {
    forall i | 0 <= i < |a|
      ensures a[i] == b[i]
    {
      assert forall j :: 0 <= j < |a[i]| ==> a[i][j] == b[i][j];
    }
  }

  /** Stores one threshold's curve of class c in place. */
  method StoreCurve(precision: array3<real>, recall: array2<real>, scores: array3<real>, t: nat, c: nat, curve: Curve)
    requires precision != scores
    requires t < precision.Length0 && c < precision.Length2 && |curve.precision| == precision.Length1
    requires t < scores.Length0 && c < scores.Length2 && |curve.scores| == scores.Length1
    requires t < recall.Length0 && c < recall.Length1
    modifies precision, recall, scores
    ensures forall i, j, k :: 0 <= i < precision.Length0 && 0 <= j < precision.Length1 && 0 <= k < precision.Length2 ==>
      precision[i, j, k] == if i == t && k == c then curve.precision[j] else old(precision[i, j, k])
    ensures forall i, j, k :: 0 <= i < scores.Length0 && 0 <= j < scores.Length1 && 0 <= k < scores.Length2 ==>
      scores[i, j, k] == if i == t && k == c then curve.scores[j] else old(scores[i, j, k])
    ensures forall i, k :: 0 <= i < recall.Length0 && 0 <= k < recall.Length1 ==>
      recall[i, k] == if i == t && k == c then curve.recall else old(recall[i, k])
  {
    recall[t, c] := curve.recall;
    forall ri | 0 <= ri < precision.Length1 {
      precision[t, ri, c] := curve.precision[ri];
    }
    forall ri | 0 <= ri < scores.Length1 {
      scores[t, ri, c] := curve.scores[ri];
    }
  }

  /** The threshold loop of one class with records: column c of every
      threshold receives the class's summary, nothing else changes. */
  method StoreClass(precision: array3<real>, recall: array2<real>, scores: array3<real>, c: nat,
                    E: seq<EvalImg>, olsThrs: seq<real>, recThrs: seq<real>)
    requires precision != scores
    requires AllShaped(E, |olsThrs|) && E != []
    requires precision.Length0 == scores.Length0 == recall.Length0 == |olsThrs|
    requires precision.Length1 == scores.Length1 == |recThrs|
    requires c < precision.Length2 && c < scores.Length2 && c < recall.Length1
    modifies precision, recall, scores
    ensures var s := SummaryOf(E, |olsThrs|, recThrs);
      forall i, j, k :: 0 <= i < precision.Length0 && 0 <= j < precision.Length1 && 0 <= k < precision.Length2 ==>
        precision[i, j, k] == if k == c then PrecisionOf(s, i, j) else old(precision[i, j, k])
    ensures var s := SummaryOf(E, |olsThrs|, recThrs);
      forall i, j, k :: 0 <= i < scores.Length0 && 0 <= j < scores.Length1 && 0 <= k < scores.Length2 ==>
        scores[i, j, k] == if k == c then ScoreOf(s, i, j) else old(scores[i, j, k])
    ensures var s := SummaryOf(E, |olsThrs|, recThrs);
      forall i, k :: 0 <= i < recall.Length0 && 0 <= k < recall.Length1 ==>
        recall[i, k] == if k == c then RecallOf(s, i) else old(recall[i, k])
  {
    ghost var s := SummaryOf(E, |olsThrs|, recThrs);
    for t := 0 to |olsThrs|
      invariant forall i, j :: 0 <= i < t && 0 <= j < precision.Length1 ==> precision[i, j, c] == PrecisionOf(s, i, j)
      invariant forall i, j, k :: 0 <= i < precision.Length0 && 0 <= j < precision.Length1 && 0 <= k < precision.Length2 && (k != c || t <= i) ==>
        precision[i, j, k] == old(precision[i, j, k])
      invariant forall i, j :: 0 <= i < t && 0 <= j < scores.Length1 ==> scores[i, j, c] == ScoreOf(s, i, j)
      invariant forall i, j, k :: 0 <= i < scores.Length0 && 0 <= j < scores.Length1 && 0 <= k < scores.Length2 && (k != c || t <= i) ==>
        scores[i, j, k] == old(scores[i, j, k])
      invariant forall i :: 0 <= i < t ==> recall[i, c] == RecallOf(s, i)
      invariant forall i, k :: 0 <= i < recall.Length0 && 0 <= k < recall.Length1 && (k != c || t <= i) ==>
        recall[i, k] == old(recall[i, k])
    {
      var curve := CurveOf(E, olsThrs, recThrs, t);
      StoreCurve(precision, recall, scores, t, c, curve);
    }
  }

  /** The curve the threshold loop computes for threshold t is the
      summary's. */
  method CurveOf(E: seq<EvalImg>, olsThrs: seq<real>, recThrs: seq<real>, t: nat) returns (curve: Curve)
    requires AllShaped(E, |olsThrs|) && E != [] && t < |olsThrs|
    ensures |curve.precision| == |recThrs| && |curve.scores| == |recThrs|
    ensures curve.recall == RecallOf(SummaryOf(E, |olsThrs|, recThrs), t)
    ensures forall j :: 0 <= j < |recThrs| ==>
      curve.precision[j] == PrecisionOf(SummaryOf(E, |olsThrs|, recThrs), t, j)
      && curve.scores[j] == ScoreOf(SummaryOf(E, |olsThrs|, recThrs), t, j)
  {
    ShapedRowAt(E, |olsThrs|, t);
    curve := ComputeCurve(E, t, recThrs);
    assert curve == SummaryOf(E, |olsThrs|, recThrs).curves[t];
  }

  /** One round of the class loop: reads the class's entries (raising
      IndexError when a slot is missing), skips a class without records and
      otherwise stores its object count and curves in column c. */
  method AccumulateClass(precision: array3<real>, recall: array2<real>, scores: array3<real>, nObjects: array<nat>,
                         evalImgs: seq<Option<EvalImg>>, nFrame: nat, c: nat, olsThrs: seq<real>, recThrs: seq<real>)
    returns (ok: bool)
    requires precision != scores
    requires RecordsShaped(evalImgs, |olsThrs|)
    requires precision.Length0 == scores.Length0 == recall.Length0 == |olsThrs|
    requires precision.Length1 == scores.Length1 == |recThrs|
    requires precision.Length2 == scores.Length2 == recall.Length1 == nObjects.Length
    requires c < nObjects.Length && nObjects[c] == 0
    requires forall i, j :: 0 <= i < precision.Length0 && 0 <= j < precision.Length1 ==> precision[i, j, c] == -1.0 && scores[i, j, c] == -1.0
    requires forall i :: 0 <= i < recall.Length0 ==> recall[i, c] == -1.0
    modifies precision, recall, scores, nObjects
    ensures ok == ClassEntries(evalImgs, nFrame, nObjects.Length, c).Ok?
    ensures ok ==> var s := SummaryOf(ClassRecords(evalImgs, nFrame, nObjects.Length, c, |olsThrs|), |olsThrs|, recThrs);
      && (forall k :: 0 <= k < nObjects.Length ==> nObjects[k] == if k == c then CountOf(s) else old(nObjects[k]))
      && (forall i, j, k :: 0 <= i < precision.Length0 && 0 <= j < precision.Length1 && 0 <= k < precision.Length2 ==>
            precision[i, j, k] == if k == c then PrecisionOf(s, i, j) else old(precision[i, j, k]))
      && (forall i, j, k :: 0 <= i < scores.Length0 && 0 <= j < scores.Length1 && 0 <= k < scores.Length2 ==>
            scores[i, j, k] == if k == c then ScoreOf(s, i, j) else old(scores[i, j, k]))
      && (forall i, k :: 0 <= i < recall.Length0 && 0 <= k < recall.Length1 ==>
            recall[i, k] == if k == c then RecallOf(s, i) else old(recall[i, k]))
  {
    var entries := ClassEntries(evalImgs, nFrame, nObjects.Length, c);
    if entries.Err? {
      return false;
    }
    ok := true;
    var E := ClassRecords(evalImgs, nFrame, nObjects.Length, c, |olsThrs|);
    if |E| == 0 {
      return;
    }
    nObjects[c] := NumGts(E);
    StoreClass(precision, recall, scores, c, E, olsThrs, recThrs);
  }

  /** The class loop of `accumulate` over -1-initialised arrays: on
      success every column holds its class's summary. */
  method AccumulateClasses(precision: array3<real>, recall: array2<real>, scores: array3<real>, nObjects: array<nat>,
                           evalImgs: seq<Option<EvalImg>>, nFrame: nat, olsThrs: seq<real>, recThrs: seq<real>)
    returns (ok: bool)
    requires precision != scores
    requires RecordsShaped(evalImgs, |olsThrs|)
    requires precision.Length0 == scores.Length0 == recall.Length0 == |olsThrs|
    requires precision.Length1 == scores.Length1 == |recThrs|
    requires precision.Length2 == scores.Length2 == recall.Length1 == nObjects.Length
    requires forall c :: 0 <= c < nObjects.Length ==> nObjects[c] == 0
    requires forall i, j, k :: 0 <= i < precision.Length0 && 0 <= j < precision.Length1 && 0 <= k < precision.Length2 ==>
      precision[i, j, k] == -1.0 && scores[i, j, k] == -1.0
    requires forall i, k :: 0 <= i < recall.Length0 && 0 <= k < recall.Length1 ==> recall[i, k] == -1.0
    modifies precision, recall, scores, nObjects
    ensures ok == AllClassesRead(evalImgs, nFrame, nObjects.Length)
    ensures ok ==> var S := SummariesUpTo(evalImgs, nFrame, nObjects.Length, nObjects.Length, olsThrs, recThrs);
      && (forall c :: 0 <= c < nObjects.Length ==> nObjects[c] == CountOf(S[c]))
      && (forall t, c :: 0 <= t < recall.Length0 && 0 <= c < recall.Length1 ==> recall[t, c] == RecallOf(S[c], t))
      && (forall t, q, c :: 0 <= t < precision.Length0 && 0 <= q < precision.Length1 && 0 <= c < precision.Length2 ==>
            precision[t, q, c] == PrecisionOf(S[c], t, q) && scores[t, q, c] == ScoreOf(S[c], t, q))
  {
    var K := nObjects.Length;
    var T := |olsThrs|;
    var R := |recThrs|;
    ghost var done: seq<ClassSummary> := [];
    for classid := 0 to K
      invariant ReadUpTo(evalImgs, nFrame, K, classid)
      invariant done == SummariesUpTo(evalImgs, nFrame, K, classid, olsThrs, recThrs)
      invariant forall c :: 0 <= c < classid ==> nObjects[c] == CountOf(done[c])
      invariant forall c :: classid <= c < K ==> nObjects[c] == 0
      invariant forall t, c :: 0 <= t < T && 0 <= c < classid ==> recall[t, c] == RecallOf(done[c], t)
      invariant forall t, c :: 0 <= t < T && classid <= c < K ==> recall[t, c] == -1.0
      invariant forall t, q, c :: 0 <= t < T && 0 <= q < R && 0 <= c < classid ==>
        precision[t, q, c] == PrecisionOf(done[c], t, q) && scores[t, q, c] == ScoreOf(done[c], t, q)
      invariant forall t, q, c :: 0 <= t < T && 0 <= q < R && classid <= c < K ==>
        precision[t, q, c] == -1.0 && scores[t, q, c] == -1.0
    {
      ok := AccumulateClass(precision, recall, scores, nObjects, evalImgs, nFrame, classid, olsThrs, recThrs);
      if !ok {
        return;
      }
      ghost var prev := done;
      assert ReadUpTo(evalImgs, nFrame, K, classid + 1);
      done := SummariesUpTo(evalImgs, nFrame, K, classid + 1, olsThrs, recThrs);
      assert done == prev + [SummaryOf(ClassRecords(evalImgs, nFrame, K, classid, T), T, recThrs)];
      assert forall c :: 0 <= c < classid ==> done[c] == prev[c];
    }
    ok := true;
  }

  /** `accumulate`, writing the class results into -1-initialised arrays. */
  method Accumulate(evalImgs: seq<Option<EvalImg>>, nFrame: nat, nClass: nat, olsThrs: seq<real>, recThrs: seq<real>)
    returns (r: Result<AccEval>)
    requires RecordsShaped(evalImgs, |olsThrs|)
    ensures r == AccumulateSpec(evalImgs, nFrame, nClass, olsThrs, recThrs)
  {
    var T := |olsThrs|;
    var R := |recThrs|;
    var K := nClass;
    var precision := new real[T, R, K]((t, q, c) => -1.0);
    var recall := new real[T, K]((t, c) => -1.0);
    var scores := new real[T, R, K]((t, q, c) => -1.0);
    var nObjects := new nat[K](c => 0);
    var ok := AccumulateClasses(precision, recall, scores, nObjects, evalImgs, nFrame, olsThrs, recThrs);
    if !ok {
      return Err(IndexError);
    }
    ghost var S := SummariesUpTo(evalImgs, nFrame, K, K, olsThrs, recThrs);
    assert nObjects[..] == Counts(S);
    var P, Rc, Sc := Snap3(precision), Snap2(recall), Snap3(scores);
    PrecisionTableIs(P, S, T, R);
    RecallTableIs(Rc, S, T, R);
    ScoreTableIs(Sc, S, T, R);
    r := Ok(AccEval([T, R, K], nObjects[..], P, Rc, Sc));
  }

  lemma PrecisionTableIs(P: seq<seq<seq<real>>>, S: seq<ClassSummary>, nThr: nat, nRec: nat)
    requires AllFit(S, nThr, nRec)
    requires |P| == nThr && forall t :: 0 <= t < nThr ==> |P[t]| == nRec
    requires forall t, q :: 0 <= t < nThr && 0 <= q < nRec ==> |P[t][q]| == |S|
    requires forall t, q, c :: 0 <= t < nThr && 0 <= q < nRec && 0 <= c < |S| ==> P[t][q][c] == PrecisionOf(S[c], t, q)
    ensures P == PrecisionTable(S, nThr, nRec)
  {
    Same3(P, PrecisionTable(S, nThr, nRec));
  }

  lemma ScoreTableIs(P: seq<seq<seq<real>>>, S: seq<ClassSummary>, nThr: nat, nRec: nat)
    requires AllFit(S, nThr, nRec)
    requires |P| == nThr && forall t :: 0 <= t < nThr ==> |P[t]| == nRec
    requires forall t, q :: 0 <= t < nThr && 0 <= q < nRec ==> |P[t][q]| == |S|
    requires forall t, q, c :: 0 <= t < nThr && 0 <= q < nRec && 0 <= c < |S| ==> P[t][q][c] == ScoreOf(S[c], t, q)
    ensures P == ScoreTable(S, nThr, nRec)
  {
    Same3(P, ScoreTable(S, nThr, nRec));
  }

  lemma RecallTableIs(P: seq<seq<real>>, S: seq<ClassSummary>, nThr: nat, nRec: nat)
    requires AllFit(S, nThr, nRec)
    requires |P| == nThr && forall t :: 0 <= t < nThr ==> |P[t]| == |S|
    requires forall t, c :: 0 <= t < nThr && 0 <= c < |S| ==> P[t][c] == RecallOf(S[c], t)
    ensures P == RecallTable(S, nThr, nRec)
  {
    Same2(P, RecallTable(S, nThr, nRec));
  }

  // ---------------------------------------------------------------------
  // Properties of the accumulated evaluation

  lemma SlotBelowTotal(i: nat, c: nat, nFrame: nat, nClass: nat)
    requires i < nFrame && c < nClass
    ensures i * nClass + c < nFrame * nClass
  {
    assert (i + 1) * nClass <= nFrame * nClass;
  }

  /** Every class can be read exactly when the records cover n_frame full
      rounds of n_class entries; otherwise `accumulate` raises IndexError. */
  lemma AccumulateReadsAll(evalImgs: seq<Option<EvalImg>>, nFrame: nat, nClass: nat, olsThrs: seq<real>, recThrs: seq<real>)
    requires RecordsShaped(evalImgs, |olsThrs|)
    ensures AccumulateSpec(evalImgs, nFrame, nClass, olsThrs, recThrs).Ok? <==> nFrame * nClass <= |evalImgs|
  {
    if nFrame * nClass <= |evalImgs| {
      forall c | 0 <= c < nClass
        ensures ClassEntries(evalImgs, nFrame, nClass, c).Ok?
      {
        ClassEntriesSound(evalImgs, nFrame, nClass, c);
        forall i | 0 <= i < nFrame
          ensures i * nClass + c < |evalImgs|
        {
          SlotBelowTotal(i, c, nFrame, nClass);
        }
      }
    } else {
      assert nFrame > 0 && nClass > 0;
      assert (nFrame - 1) * nClass + (nClass - 1) == nFrame * nClass - 1;
      ClassEntriesSound(evalImgs, nFrame, nClass, nClass - 1);
      assert ClassEntries(evalImgs, nFrame, nClass, nClass - 1).Err?;
    }
  }

  /** A class none of whose frames has a record keeps -1 in precision,
      recall and scores and object count 0; any other class counts its
      pooled ground truths and stores, at every threshold, the final TP
      count over ng as its recall (0 without detections or ground
      truths). */
  lemma ClassColumn(evalImgs: seq<Option<EvalImg>>, nFrame: nat, nClass: nat, olsThrs: seq<real>, recThrs: seq<real>, c: nat)
    requires RecordsShaped(evalImgs, |olsThrs|)
    requires AccumulateSpec(evalImgs, nFrame, nClass, olsThrs, recThrs).Ok? && c < nClass
    ensures ClassEntries(evalImgs, nFrame, nClass, c).Ok?
    ensures var acc := AccumulateSpec(evalImgs, nFrame, nClass, olsThrs, recThrs).value;
      var E := ClassRecords(evalImgs, nFrame, nClass, c, |olsThrs|);
      if E == [] then
        && acc.objectCounts[c] == 0
        && (forall t :: 0 <= t < |olsThrs| ==> acc.recall[t][c] == -1.0)
        && (forall t, q :: 0 <= t < |olsThrs| && 0 <= q < |recThrs| ==>
              acc.precision[t][q][c] == -1.0 && acc.scores[t][q][c] == -1.0)
      else
        && acc.objectCounts[c] == NumGts(E)
        && (forall t :: 0 <= t < |olsThrs| ==> (RowAt(E, t) &&
              acc.recall[t][c] ==
                if NumDts(E) == 0 || NumGts(E) == 0 then 0.0
                else TpCum(SortedMatches(E, t))[NumDts(E) - 1] as real / NumGts(E) as real))
  {
    var E := ClassRecords(evalImgs, nFrame, nClass, c, |olsThrs|);
    SummariesUpToAt(evalImgs, nFrame, nClass, nClass, olsThrs, recThrs, c);
    forall t | 0 <= t < |olsThrs|
      ensures RowAt(E, t)
    {
      ShapedRowAt(E, |olsThrs|, t);
    }
  }

  /** The arrays of a successful `accumulate` have the shapes [T, R, K],
      [T, K] and [T, R, K]. */
  predicate EvalShaped(acc: AccEval, nThr: nat, nRec: nat, nClass: nat)
  {
    && |acc.objectCounts| == nClass
    && |acc.precision| == nThr && |acc.recall| == nThr && |acc.scores| == nThr
    && (forall t :: 0 <= t < nThr ==>
          |acc.precision[t]| == nRec && |acc.recall[t]| == nClass && |acc.scores[t]| == nRec)
    && (forall t, q :: 0 <= t < nThr && 0 <= q < nRec ==>
          |acc.precision[t][q]| == nClass && |acc.scores[t][q]| == nClass)
  }

  lemma AccumulateShaped(evalImgs: seq<Option<EvalImg>>, nFrame: nat, nClass: nat, olsThrs: seq<real>, recThrs: seq<real>)
    requires RecordsShaped(evalImgs, |olsThrs|)
    requires AccumulateSpec(evalImgs, nFrame, nClass, olsThrs, recThrs).Ok?
    ensures EvalShaped(AccumulateSpec(evalImgs, nFrame, nClass, olsThrs, recThrs).value, |olsThrs|, |recThrs|, nClass)
  {
  }

  /** Every stored precision is -1 (a class without records) or in [0, 1]. */
  lemma PrecisionInRange(evalImgs: seq<Option<EvalImg>>, nFrame: nat, nClass: nat, olsThrs: seq<real>, recThrs: seq<real>,
                         t: nat, q: nat, c: nat)
    requires RecordsShaped(evalImgs, |olsThrs|)
    requires AccumulateSpec(evalImgs, nFrame, nClass, olsThrs, recThrs).Ok?
    requires t < |olsThrs| && q < |recThrs| && c < nClass
    ensures var acc := AccumulateSpec(evalImgs, nFrame, nClass, olsThrs, recThrs).value;
      t < |acc.precision| && q < |acc.precision[t]| && c < |acc.precision[t][q]| &&
      (acc.precision[t][q][c] == -1.0 || 0.0 <= acc.precision[t][q][c] <= 1.0)
  {
    var E := ClassRecords(evalImgs, nFrame, nClass, c, |olsThrs|);
    SummariesUpToAt(evalImgs, nFrame, nClass, nClass, olsThrs, recThrs, c);
    if E != [] {
      ShapedRowAt(E, |olsThrs|, t);
      ClassCurveInUnit(E, t, recThrs);
    }
  }
}
