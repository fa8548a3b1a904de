/** `summarize`: reduces the accumulated evaluation to object-count
    weighted AP (mean precision) and AR (mean recall) statistics, overall
    and at single OLS thresholds.  numpy's NaN is `None`. */
module RodSummarize {
  import opened Wrappers
  import opened RodMatch
  import opened RodAccumulate

  /** `np.where(olsThr == olsThrs)[0]` among the first n thresholds, or all
      of them when no threshold is given. */
  function SelectUpTo(olsThrs: seq<real>, thr: Option<real>, n: nat): (r: seq<nat>)
    requires n <= |olsThrs|
    ensures forall k :: 0 <= k < |r| ==> r[k] < n
    ensures forall i, j :: 0 <= i < j < |r| ==> r[i] < r[j]
    ensures forall t: nat :: t in r <==> t < n && (thr.None? || olsThrs[t] == thr.value)
  {
    if n == 0 then []
    else
      SelectUpTo(olsThrs, thr, n - 1) + (if thr.None? || olsThrs[n - 1] == thr.value then [n - 1] else [])
  }

  /** The thresholds `_summarize` reads: `s[t]` for the matching indices,
      or the whole array. */
  function Selected(olsThrs: seq<real>, thr: Option<real>): (r: seq<nat>)
    ensures forall k :: 0 <= k < |r| ==> r[k] < |olsThrs|
    ensures forall i, j :: 0 <= i < j < |r| ==> r[i] < r[j]
    ensures forall t: nat :: t in r <==> t < |olsThrs| && (thr.None? || olsThrs[t] == thr.value)
  {
    SelectUpTo(olsThrs, thr, |olsThrs|)
  }

  /** Without a threshold every threshold is read, in order. */
  lemma {:induction false} SelectAll(olsThrs: seq<real>, n: nat)
    requires n <= |olsThrs|
    ensures SelectUpTo(olsThrs, None, n) == seq(n, i requires 0 <= i < n => i)
  {
    if n > 0 {
      SelectAll(olsThrs, n - 1);
    }
  }

  /** The entries of `s[:, :, classid]` row by row, for the selected
      thresholds `sel`. */
  function PrecisionValues(acc: AccEval, sel: seq<nat>, nThr: nat, nRec: nat, nClass: nat, c: nat): (r: seq<real>)
    requires EvalShaped(acc, nThr, nRec, nClass) && c < nClass
    requires forall k :: 0 <= k < |sel| ==> sel[k] < nThr
    ensures |r| == |sel| * nRec
  {
    if |sel| == 0 then []
    else
      PrecisionValues(acc, sel[..|sel| - 1], nThr, nRec, nClass, c) +
        seq(nRec, q requires 0 <= q < nRec => acc.precision[sel[|sel| - 1]][q][c])
  }

  /** Every precision entry read for class c is one stored in the array. */
  lemma {:induction false} PrecisionValuesFrom(acc: AccEval, sel: seq<nat>, nThr: nat, nRec: nat, nClass: nat, c: nat, x: real)
    requires EvalShaped(acc, nThr, nRec, nClass) && c < nClass
    requires forall k :: 0 <= k < |sel| ==> sel[k] < nThr
    requires x in PrecisionValues(acc, sel, nThr, nRec, nClass, c)
    ensures exists t, q :: 0 <= t < nThr && 0 <= q < nRec && x == acc.precision[t][q][c]
  {
    var init := PrecisionValues(acc, sel[..|sel| - 1], nThr, nRec, nClass, c);
    var t := sel[|sel| - 1];
    var row := seq(nRec, q requires 0 <= q < nRec => acc.precision[t][q][c]);
    if x in init {
      PrecisionValuesFrom(acc, sel[..|sel| - 1], nThr, nRec, nClass, c, x);
    } else {
      assert x in row;
      var q :| 0 <= q < nRec && row[q] == x;
    }
  }

  /** The entries of `s[:, classid]` for the selected thresholds. */
  function RecallValues(acc: AccEval, sel: seq<nat>, nThr: nat, nRec: nat, nClass: nat, c: nat): (r: seq<real>)
    requires EvalShaped(acc, nThr, nRec, nClass) && c < nClass
    requires forall k :: 0 <= k < |sel| ==> sel[k] < nThr
    ensures |r| == |sel|
    ensures forall k :: 0 <= k < |sel| ==> r[k] == acc.recall[sel[k]][c]
  {
    seq(|sel|, k requires 0 <= k < |sel| => acc.recall[sel[k]][c])
  }

  /** `s_class`: precision entries when `ap == 1`, recall entries otherwise. */
  function ClassValues(acc: AccEval, sel: seq<nat>, ap: bool, nThr: nat, nRec: nat, nClass: nat, c: nat): seq<real>
    requires EvalShaped(acc, nThr, nRec, nClass) && c < nClass
    requires forall k :: 0 <= k < |sel| ==> sel[k] < nThr
  {
    if ap then PrecisionValues(acc, sel, nThr, nRec, nClass, c) else RecallValues(acc, sel, nThr, nRec, nClass, c)
  }

  /** `s_class[s_class > -1]`. */
  function Kept(vals: seq<real>): (r: seq<real>)
    ensures |r| <= |vals|
  {
    if |vals| == 0 then []
    else
      var rest := Kept(vals[..|vals| - 1]);
      if vals[|vals| - 1] > -1.0 then rest + [vals[|vals| - 1]] else rest
  }

  /** The kept values are exactly the values above -1. */
  lemma {:induction false} KeptMembers(vals: seq<real>)
    ensures forall x :: x in Kept(vals) <==> x in vals && x > -1.0
  {
    if |vals| > 0 {
      KeptMembers(vals[..|vals| - 1]);
      assert vals == vals[..|vals| - 1] + [vals[|vals| - 1]];
    }
  }

  /** Nothing is dropped when every value is above -1. */
  lemma {:induction false} KeptAll(vals: seq<real>)
    requires forall k :: 0 <= k < |vals| ==> vals[k] > -1.0
    ensures Kept(vals) == vals
  {
    if |vals| > 0 {
      KeptAll(vals[..|vals| - 1]);
      assert vals == vals[..|vals| - 1] + [vals[|vals| - 1]];
    }
  }

  function Sum(xs: seq<real>): real
  {
    if |xs| == 0 then 0.0 else Sum(xs[..|xs| - 1]) + xs[|xs| - 1]
  }

  /** `np.mean`. */
  function Mean(xs: seq<real>): real
    requires |xs| > 0
  {
    Sum(xs) / (|xs| as real)
  }

  lemma {:induction false} SumBounds(xs: seq<real>)
    requires forall i :: 0 <= i < |xs| ==> 0.0 <= xs[i] <= 1.0
    ensures 0.0 <= Sum(xs) <= |xs| as real
  {
    if |xs| > 0 {
      SumBounds(xs[..|xs| - 1]);
    }
  }

  /** The mean of values in [0, 1] is in [0, 1]. */
  lemma MeanInUnit(xs: seq<real>)
    requires |xs| > 0
    requires forall x :: x in xs ==> 0.0 <= x <= 1.0
    ensures 0.0 <= Mean(xs) <= 1.0
  {
    assert forall i :: 0 <= i < |xs| ==> xs[i] in xs;
    SumBounds(xs);
    DivInUnit(Sum(xs), |xs| as real);
  }

  /** `np.sum(object_counts)`. */
  function Total(counts: seq<nat>): nat
  {
    if |counts| == 0 then 0 else Total(counts[..|counts| - 1]) + counts[|counts| - 1]
  }

  /** `object_counts[classid] / n_objects * np.mean(kept)`. */
  function Share(count: nat, total: nat, kept: seq<real>): real
    requires total > 0 && |kept| > 0
  {
    (count as real) / (total as real) * Mean(kept)
  }

  /** `s_class[s_class > -1]` for class c with the thresholds read. */
  function ClassKept(acc: AccEval, olsThrs: seq<real>, nRec: nat, nClass: nat, ap: bool, thr: Option<real>, c: nat): (r: seq<real>)
    requires EvalShaped(acc, |olsThrs|, nRec, nClass) && c < nClass
  {
    Kept(ClassValues(acc, Selected(olsThrs, thr), ap, |olsThrs|, nRec, nClass, c))
  }

  /** Class c has some entry above -1 among the ones read. */
  predicate HasEntries(acc: AccEval, olsThrs: seq<real>, nRec: nat, nClass: nat, ap: bool, thr: Option<real>, c: nat)
    requires EvalShaped(acc, |olsThrs|, nRec, nClass) && c < nClass
  {
    |ClassKept(acc, olsThrs, nRec, nClass, ap, thr, c)| > 0
  }

  /** One pass of the class loop: a class without entries leaves `mean_s`
      as it is; otherwise it adds `count / total * mean(kept)`, and 0 / 0
      (or an earlier NaN) makes it NaN. */
  function AddClass(m: Option<real>, kept: seq<real>, count: nat, total: nat): (r: Option<real>)
    ensures |kept| == 0 ==> r == m
    ensures |kept| > 0 ==> (r.None? <==> total == 0 || m.None?)
  {
    if |kept| == 0 then m
    else if total == 0 || m.None? then None
    else Some(m.value + Share(count, total, kept))
  }

  /** `mean_s` after the class loop has run over the first n classes,
      class c contributing the kept values `ks[c]` and weight `counts[c]`. */
  function Fold(ks: seq<seq<real>>, counts: seq<nat>, total: nat, n: nat): Option<real>
    requires n <= |ks| && n <= |counts|
  {
    if n == 0 then Some(0.0)
    else AddClass(Fold(ks, counts, total, n - 1), ks[n - 1], counts[n - 1], total)
  }

  /** The kept values of every class. */
  function AllKept(acc: AccEval, olsThrs: seq<real>, nRec: nat, nClass: nat, ap: bool, thr: Option<real>): (r: seq<seq<real>>)
    requires EvalShaped(acc, |olsThrs|, nRec, nClass)
    ensures |r| == nClass
    ensures forall c :: 0 <= c < nClass ==> r[c] == ClassKept(acc, olsThrs, nRec, nClass, ap, thr, c)
  {
    seq(nClass, c requires 0 <= c < nClass => ClassKept(acc, olsThrs, nRec, nClass, ap, thr, c))
  }

  /** `mean_s` after the first n classes of the `_summarize` loop. */
  function Partial(acc: AccEval, olsThrs: seq<real>, nRec: nat, nClass: nat, ap: bool, thr: Option<real>, n: nat): Option<real>
    requires EvalShaped(acc, |olsThrs|, nRec, nClass) && n <= nClass
  {
    Fold(AllKept(acc, olsThrs, nRec, nClass, ap, thr), acc.objectCounts, Total(acc.objectCounts), n)
  }

  /** The body of the `_summarize` class loop for class `classid`. */
  method AddClassStat(acc: AccEval, olsThrs: seq<real>, nRec: nat, nClass: nat, ap: bool, thr: Option<real>,
                      classid: nat, nObjects: nat, meanS: Option<real>)
    returns (r: Option<real>)
    requires EvalShaped(acc, |olsThrs|, nRec, nClass) && classid < nClass
    requires nObjects == Total(acc.objectCounts)
    ensures r == AddClass(meanS, ClassKept(acc, olsThrs, nRec, nClass, ap, thr, classid), acc.objectCounts[classid], nObjects)
  {
    var kept := ClassKept(acc, olsThrs, nRec, nClass, ap, thr, classid);
    if |kept| == 0 {
      return meanS;
    }
    if nObjects == 0 || meanS.None? {
      r := None;
    } else {
      r := Some(meanS.value + Share(acc.objectCounts[classid], nObjects, kept));
    }
  }

  /** One more class adds that class's kept values to `mean_s`. */
  lemma PartialStep(acc: AccEval, olsThrs: seq<real>, nRec: nat, nClass: nat, ap: bool, thr: Option<real>, n: nat)
    requires EvalShaped(acc, |olsThrs|, nRec, nClass) && n < nClass
    ensures Partial(acc, olsThrs, nRec, nClass, ap, thr, n + 1)
         == AddClass(Partial(acc, olsThrs, nRec, nClass, ap, thr, n), ClassKept(acc, olsThrs, nRec, nClass, ap, thr, n),
                     acc.objectCounts[n], Total(acc.objectCounts))
  {
    var ks := AllKept(acc, olsThrs, nRec, nClass, ap, thr);
    assert ks[n] == ClassKept(acc, olsThrs, nRec, nClass, ap, thr, n);
  }

  /** `_summarize(ap, olsThr)` with its accumulating class loop. */
  method SummarizeStat(acc: AccEval, olsThrs: seq<real>, recThrs: seq<real>, nClass: nat, ap: bool, thr: Option<real>)
    returns (r: Option<real>)
    requires EvalShaped(acc, |olsThrs|, |recThrs|, nClass)
    ensures r == Partial(acc, olsThrs, |recThrs|, nClass, ap, thr, nClass)
  {
    var nObjects := Total(acc.objectCounts);
    var meanS: Option<real> := Some(0.0);
    for classid := 0 to nClass
      invariant meanS == Partial(acc, olsThrs, |recThrs|, nClass, ap, thr, classid)
    {
      meanS := AddClassStat(acc, olsThrs, |recThrs|, nClass, ap, thr, classid, nObjects, meanS);
      PartialStep(acc, olsThrs, |recThrs|, nClass, ap, thr, classid);
    }
    r := meanS;
  }

  // ---------------------------------------------------------------------
  // What a statistic is

  /** After n classes `mean_s` is NaN exactly when the total is 0 and one
      of those classes has values to average. */
  lemma {:induction false} FoldNaN(ks: seq<seq<real>>, counts: seq<nat>, total: nat, n: nat)
    requires n <= |ks| && n <= |counts|
    ensures Fold(ks, counts, total, n).None? <==> total == 0 && exists c :: 0 <= c < n && |ks[c]| > 0
  {
    if n > 0 {
      FoldNaN(ks, counts, total, n - 1);
      if total == 0 && |ks[n - 1]| > 0 {
        assert 0 <= n - 1 < n && |ks[n - 1]| > 0;
      }
      if exists c :: 0 <= c < n && |ks[c]| > 0 {
        var c :| 0 <= c < n && |ks[c]| > 0;
        assert c == n - 1 || (0 <= c < n - 1 && |ks[c]| > 0);
      }
    }
  }

  /** A statistic is NaN exactly when there are no objects at all but some
      class has entries to average. */
  lemma PartialNaN(acc: AccEval, olsThrs: seq<real>, nRec: nat, nClass: nat, ap: bool, thr: Option<real>, n: nat)
    requires EvalShaped(acc, |olsThrs|, nRec, nClass) && n <= nClass
    ensures Partial(acc, olsThrs, nRec, nClass, ap, thr, n).None? <==>
      Total(acc.objectCounts) == 0 && exists c :: 0 <= c < n && HasEntries(acc, olsThrs, nRec, nClass, ap, thr, c)
  {
    var ks := AllKept(acc, olsThrs, nRec, nClass, ap, thr);
    FoldNaN(ks, acc.objectCounts, Total(acc.objectCounts), n);
    assert forall c :: 0 <= c < n ==> (HasEntries(acc, olsThrs, nRec, nClass, ap, thr, c) <==> |ks[c]| > 0);
  }

  /** A class without entries above -1 does not take part. */
  lemma AbsentClassAddsNothing(acc: AccEval, olsThrs: seq<real>, nRec: nat, nClass: nat, ap: bool, thr: Option<real>, n: nat)
    requires EvalShaped(acc, |olsThrs|, nRec, nClass) && 0 < n <= nClass
    requires !HasEntries(acc, olsThrs, nRec, nClass, ap, thr, n - 1)
    ensures Partial(acc, olsThrs, nRec, nClass, ap, thr, n) == Partial(acc, olsThrs, nRec, nClass, ap, thr, n - 1)
  {
    var ks := AllKept(acc, olsThrs, nRec, nClass, ap, thr);
    assert |ks[n - 1]| == 0;
  }

  /** The read entries are -1 or in [0, 1]. */
  predicate EntriesInUnit(acc: AccEval, nThr: nat, nRec: nat, nClass: nat, ap: bool)
    requires EvalShaped(acc, nThr, nRec, nClass)
  {
    if ap then
      forall t, q, c :: 0 <= t < nThr && 0 <= q < nRec && 0 <= c < nClass ==>
        acc.precision[t][q][c] == -1.0 || 0.0 <= acc.precision[t][q][c] <= 1.0
    else
      forall t, c :: 0 <= t < nThr && 0 <= c < nClass ==>
        acc.recall[t][c] == -1.0 || 0.0 <= acc.recall[t][c] <= 1.0
  }

  lemma KeptInUnit(acc: AccEval, olsThrs: seq<real>, nRec: nat, nClass: nat, ap: bool, thr: Option<real>, c: nat)
    requires EvalShaped(acc, |olsThrs|, nRec, nClass) && c < nClass
    requires EntriesInUnit(acc, |olsThrs|, nRec, nClass, ap)
    ensures forall x :: x in ClassKept(acc, olsThrs, nRec, nClass, ap, thr, c) ==> 0.0 <= x <= 1.0
  {
    var sel := Selected(olsThrs, thr);
    var vals := ClassValues(acc, sel, ap, |olsThrs|, nRec, nClass, c);
    KeptMembers(vals);
    forall x | x in vals
      ensures x == -1.0 || 0.0 <= x <= 1.0
    {
      if ap {
        PrecisionValuesFrom(acc, sel, |olsThrs|, nRec, nClass, c, x);
      } else {
        var k :| 0 <= k < |vals| && vals[k] == x;
      }
    }
  }

  lemma WeightStep(a: real, b: real, total: real, m: real)
    requires total > 0.0 && b >= 0.0 && 0.0 <= m <= 1.0
    requires 0.0 <= a
    ensures 0.0 <= a + b / total * m <= a + b / total
  {
    var w := b / total;
    assert w >= 0.0;
    assert w * m <= w * 1.0;
  }

  lemma DivAdd(a: real, b: real, total: real)
    requires total > 0.0
    ensures a / total + b / total == (a + b) / total
  {
  }

  /** A class step keeps `mean_s` a number, adding at most its weight. */
  lemma AddClassBound(m: Option<real>, kept: seq<real>, count: nat, total: nat, hi: real)
    requires total > 0 && m.Some? && 0.0 <= m.value <= hi
    requires forall x :: x in kept ==> 0.0 <= x <= 1.0
    ensures AddClass(m, kept, count, total).Some?
    ensures 0.0 <= AddClass(m, kept, count, total).value <= hi + (count as real) / (total as real)
  {
    assert (count as real) / (total as real) >= 0.0;
    if |kept| > 0 {
      MeanInUnit(kept);
      WeightStep(m.value, count as real, total as real, Mean(kept));
    }
  }

  lemma TotalStep(counts: seq<nat>, n: nat)
    requires 0 < n <= |counts|
    ensures Total(counts[..n]) == Total(counts[..n - 1]) + counts[n - 1]
  {
    assert counts[..n][..n - 1] == counts[..n - 1];
  }

  /** With a positive total and kept values in [0, 1], `mean_s` after n
      classes is a number between 0 and the share of those classes in the
      total. */
  lemma {:induction false} FoldBound(ks: seq<seq<real>>, counts: seq<nat>, total: nat, n: nat)
    requires n <= |ks| && n <= |counts| && total > 0
    requires forall c :: 0 <= c < n ==> forall x :: x in ks[c] ==> 0.0 <= x <= 1.0
    ensures Fold(ks, counts, total, n).Some?
    ensures 0.0 <= Fold(ks, counts, total, n).value <= (Total(counts[..n]) as real) / (total as real)
  {
    if n > 0 {
      FoldBound(ks, counts, total, n - 1);
      var hi := (Total(counts[..n - 1]) as real) / (total as real);
      AddClassBound(Fold(ks, counts, total, n - 1), ks[n - 1], counts[n - 1], total, hi);
      TotalStep(counts, n);
      DivAdd(Total(counts[..n - 1]) as real, counts[n - 1] as real, total as real);
    }
  }

  /** With objects present and entries in [0, 1], the statistic after n
      classes is at most the share of the first n classes in the total. */
  lemma PartialBound(acc: AccEval, olsThrs: seq<real>, nRec: nat, nClass: nat, ap: bool, thr: Option<real>, n: nat)
    requires EvalShaped(acc, |olsThrs|, nRec, nClass) && n <= nClass
    requires EntriesInUnit(acc, |olsThrs|, nRec, nClass, ap)
    requires Total(acc.objectCounts) > 0
    ensures Partial(acc, olsThrs, nRec, nClass, ap, thr, n).Some?
    ensures 0.0 <= Partial(acc, olsThrs, nRec, nClass, ap, thr, n).value
              <= (Total(acc.objectCounts[..n]) as real) / (Total(acc.objectCounts) as real)
  {
    var ks := AllKept(acc, olsThrs, nRec, nClass, ap, thr);
    forall c | 0 <= c < n
      ensures forall x :: x in ks[c] ==> 0.0 <= x <= 1.0
    {
      KeptInUnit(acc, olsThrs, nRec, nClass, ap, thr, c);
    }
    FoldBound(ks, acc.objectCounts, Total(acc.objectCounts), n);
  }

  lemma TotalPrefix(counts: seq<nat>)
    ensures counts[..|counts|] == counts
  {
  }

  /** With objects present and entries in [0, 1] (as `accumulate` leaves
      them), every statistic is a number in [0, 1]. */
  lemma StatInUnit(acc: AccEval, olsThrs: seq<real>, nRec: nat, nClass: nat, ap: bool, thr: Option<real>)
    requires EvalShaped(acc, |olsThrs|, nRec, nClass)
    requires EntriesInUnit(acc, |olsThrs|, nRec, nClass, ap)
    requires Total(acc.objectCounts) > 0
    ensures Partial(acc, olsThrs, nRec, nClass, ap, thr, nClass).Some?
    ensures 0.0 <= Partial(acc, olsThrs, nRec, nClass, ap, thr, nClass).value <= 1.0
  {
    PartialBound(acc, olsThrs, nRec, nClass, ap, thr, nClass);
    TotalPrefix(acc.objectCounts);
    assert acc.objectCounts[..nClass] == acc.objectCounts;
    var T := Total(acc.objectCounts) as real;
    assert T / T == 1.0;
  }

  /** For AR over all thresholds, a class whose recall is stored at every
      threshold (a class with records) averages its recall over all of
      them. */
  lemma RecallMeanOverThresholds(acc: AccEval, olsThrs: seq<real>, nRec: nat, nClass: nat, c: nat)
    requires EvalShaped(acc, |olsThrs|, nRec, nClass) && c < nClass
    requires forall t :: 0 <= t < |olsThrs| ==> acc.recall[t][c] >= 0.0
    ensures Kept(ClassValues(acc, Selected(olsThrs, None), false, |olsThrs|, nRec, nClass, c)) ==
      seq(|olsThrs|, t requires 0 <= t < |olsThrs| => acc.recall[t][c])
  {
    SelectAll(olsThrs, |olsThrs|);
    var sel := Selected(olsThrs, None);
    var vals := RecallValues(acc, sel, |olsThrs|, nRec, nClass, c);
    assert ClassValues(acc, sel, false, |olsThrs|, nRec, nClass, c) == vals;
    assert forall k :: 0 <= k < |vals| ==> vals[k] == acc.recall[k][c];
    KeptAll(vals);
  }

  /** The AP statistics of a successful `accumulate` lie in [0, 1] once
      some ground truth exists. */
  lemma AccumulatedAPInUnit(evalImgs: seq<Option<EvalImg>>, nFrame: nat, nClass: nat, olsThrs: seq<real>, recThrs: seq<real>, thr: Option<real>)
    requires RecordsShaped(evalImgs, |olsThrs|)
    requires AccumulateSpec(evalImgs, nFrame, nClass, olsThrs, recThrs).Ok?
    requires Total(AccumulateSpec(evalImgs, nFrame, nClass, olsThrs, recThrs).value.objectCounts) > 0
    ensures EvalShaped(AccumulateSpec(evalImgs, nFrame, nClass, olsThrs, recThrs).value, |olsThrs|, |recThrs|, nClass)
    ensures var v := Partial(AccumulateSpec(evalImgs, nFrame, nClass, olsThrs, recThrs).value, olsThrs, |recThrs|, nClass, true, thr, nClass);
      v.Some? && 0.0 <= v.value <= 1.0
  {
    var acc := AccumulateSpec(evalImgs, nFrame, nClass, olsThrs, recThrs).value;
    AccumulateShaped(evalImgs, nFrame, nClass, olsThrs, recThrs);
    forall t, q, c | 0 <= t < |olsThrs| && 0 <= q < |recThrs| && 0 <= c < nClass
      ensures acc.precision[t][q][c] == -1.0 || 0.0 <= acc.precision[t][q][c] <= 1.0
    {
      PrecisionInRange(evalImgs, nFrame, nClass, olsThrs, recThrs, t, q, c);
    }
    StatInUnit(acc, olsThrs, |recThrs|, nClass, true, thr);
  }

  // ---------------------------------------------------------------------
  // summarize

  /** The statistics `summarize` returns: `_summarizeKps` (AP, then AR,
      each overall and at OLS 0.5, 0.6, 0.7, 0.8, 0.9) when `gl`,
      `_summarizeKps_cur` (overall AP and AR) otherwise. */
  function Stats(acc: AccEval, olsThrs: seq<real>, nRec: nat, nClass: nat, gl: bool): (r: seq<Option<real>>)
    requires EvalShaped(acc, |olsThrs|, nRec, nClass)
    ensures |r| == if gl then 12 else 2
  {
    var ap := (thr: Option<real>) requires EvalShaped(acc, |olsThrs|, nRec, nClass) => Partial(acc, olsThrs, nRec, nClass, true, thr, nClass);
    var ar := (thr: Option<real>) requires EvalShaped(acc, |olsThrs|, nRec, nClass) => Partial(acc, olsThrs, nRec, nClass, false, thr, nClass);
    if gl then
      [ap(None), ap(Some(0.5)), ap(Some(0.6)), ap(Some(0.7)), ap(Some(0.8)), ap(Some(0.9)),
       ar(None), ar(Some(0.5)), ar(Some(0.6)), ar(Some(0.7)), ar(Some(0.8)), ar(Some(0.9))]
    else [ap(None), ar(None)]
  }

  /** `_summarizeKps`. */
  method SummarizeKps(acc: AccEval, olsThrs: seq<real>, recThrs: seq<real>, nClass: nat) returns (stats: seq<Option<real>>)
    requires EvalShaped(acc, |olsThrs|, |recThrs|, nClass)
    ensures stats == Stats(acc, olsThrs, |recThrs|, nClass, true)
  {
    var s0 := SummarizeStat(acc, olsThrs, recThrs, nClass, true, None);
    var s1 := SummarizeStat(acc, olsThrs, recThrs, nClass, true, Some(0.5));
    var s2 := SummarizeStat(acc, olsThrs, recThrs, nClass, true, Some(0.6));
    var s3 := SummarizeStat(acc, olsThrs, recThrs, nClass, true, Some(0.7));
    var s4 := SummarizeStat(acc, olsThrs, recThrs, nClass, true, Some(0.8));
    var s5 := SummarizeStat(acc, olsThrs, recThrs, nClass, true, Some(0.9));
    var s6 := SummarizeStat(acc, olsThrs, recThrs, nClass, false, None);
    var s7 := SummarizeStat(acc, olsThrs, recThrs, nClass, false, Some(0.5));
    var s8 := SummarizeStat(acc, olsThrs, recThrs, nClass, false, Some(0.6));
    var s9 := SummarizeStat(acc, olsThrs, recThrs, nClass, false, Some(0.7));
    var s10 := SummarizeStat(acc, olsThrs, recThrs, nClass, false, Some(0.8));
    var s11 := SummarizeStat(acc, olsThrs, recThrs, nClass, false, Some(0.9));
    stats := [s0, s1, s2, s3, s4, s5, s6, s7, s8, s9, s10, s11];
  }

  /** `_summarizeKps_cur`. */
  method SummarizeKpsCur(acc: AccEval, olsThrs: seq<real>, recThrs: seq<real>, nClass: nat) returns (stats: seq<Option<real>>)
    requires EvalShaped(acc, |olsThrs|, |recThrs|, nClass)
    ensures stats == Stats(acc, olsThrs, |recThrs|, nClass, false)
  {
    var s0 := SummarizeStat(acc, olsThrs, recThrs, nClass, true, None);
    var s1 := SummarizeStat(acc, olsThrs, recThrs, nClass, false, None);
    stats := [s0, s1];
  }

  /** `summarize(eval, olsThrs, recThrs, dataset, gl)`: 12 statistics (AP
      and AR, overall and at OLS 0.5, 0.6, 0.7, 0.8, 0.9) when `gl`, else
      the overall AP and AR. */
  method Summarize(acc: AccEval, olsThrs: seq<real>, recThrs: seq<real>, nClass: nat, gl: bool) returns (stats: seq<Option<real>>)
    requires EvalShaped(acc, |olsThrs|, |recThrs|, nClass)
    ensures |stats| == if gl then 12 else 2
    ensures stats == Stats(acc, olsThrs, |recThrs|, nClass, gl)
  {
    if gl {
      stats := SummarizeKps(acc, olsThrs, recThrs, nClass);
    } else {
      stats := SummarizeKpsCur(acc, olsThrs, recThrs, nClass);
    }
  }
}
