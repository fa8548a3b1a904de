/** Object Location Similarity (OLS): a Gaussian fall-off of the distance
    between two objects, scaled by the first object's distance from the
    sensor and by its class's size prior. */
module Metrics {
  import opened Wrappers
  import opened Numerics
  import opened Objects
  import CoorTransform

  /** The exponent of `ols`: dist^2 / 2 / (scale^2 * kappa). */
  function OlsExponent(dist: real, scale: real, kappa: real): real
    requires Sq(scale) * kappa != 0.0
  {
    Sq(dist) / 2.0 / (Sq(scale) * kappa)
  }

  /** `ols(dist, scale, kappa) = exp(-dist^2 / 2 / (scale^2 kappa))` on
      Python floats, where division by a zero denominator raises
      ZeroDivisionError. */
  function Ols(dist: real, scale: real, kappa: real, m: Math): (r: Result<real>)
    ensures r.Err? <==> Sq(scale) * kappa == 0.0
    ensures r.Err? ==> r.error == ZeroDivisionError
  {
    if Sq(scale) * kappa == 0.0 then Err(ZeroDivisionError)
    else Ok(m.exp(-OlsExponent(dist, scale, kappa)))
  }

  /** `ols` on numpy float64 operands, as the range-angle paths call it (the
      points come out of `np.sin`/`np.cos`): a zero denominator does not
      raise. A non-zero dist^2/2 over +0.0 is +inf and `exp(-inf)` is 0.0;
      over -0.0 (scale 0 times a negative kappa) it is -inf and `exp(inf)`
      is +inf; 0/0 is NaN and `exp(NaN)` is NaN. */
  function OlsNumpy(dist: real, scale: real, kappa: real, m: Math): (r: Float)
    ensures Ols(dist, scale, kappa, m).Ok? ==> r == Finite(Ols(dist, scale, kappa, m).value)
    ensures r.NaN? <==> Sq(scale) * kappa == 0.0 && dist == 0.0
    ensures r.PosInf? <==> Sq(scale) * kappa == 0.0 && dist != 0.0 && kappa < 0.0
    ensures Sq(scale) * kappa == 0.0 && dist != 0.0 && kappa >= 0.0 ==> r == Finite(0.0)
  {
    SqPos(dist);
    if Sq(scale) * kappa != 0.0 then Finite(m.exp(-OlsExponent(dist, scale, kappa)))
    else if Sq(dist) == 0.0 then NaN
    else if kappa < 0.0 then PosInf
    else Finite(0.0)
  }

  lemma SqPos(x: real)
    ensures Sq(x) >= 0.0
    ensures Sq(x) == 0.0 <==> x == 0.0
  {
    if x > 0.0 {
      MulPos(x, x);
    } else if x < 0.0 {
      MulPos(-x, -x);
      assert (-x) * (-x) == x * x;
      assert Sq(x) == x * x;
    }
  }

  lemma SqMonotone(a: real, b: real)
    requires 0.0 <= a < b
    ensures Sq(a) < Sq(b)
  {
    MulMonotone(a, b, b);
    assert a * b < b * b;
    if a > 0.0 {
      MulMonotone(a, b, a);
      assert a * a < a * b;
    } else {
      assert a == 0.0;
      assert a * a == 0.0 && a * b == 0.0;
    }
    assert Sq(a) == a * a && Sq(b) == b * b;
  }

  /** A non-degenerate scale with a positive size prior never divides by 0. */
  lemma DenominatorPositive(scale: real, kappa: real)
    requires scale != 0.0 && kappa > 0.0
    ensures Sq(scale) * kappa > 0.0
  {
    SqPos(scale);
    MulPos(Sq(scale), kappa);
  }

  lemma MulPos(a: real, b: real)
    requires a > 0.0 && b > 0.0
    ensures a * b > 0.0
  {
  }

  /** OLS of a perfect hit is exactly 1. */
  lemma OlsAtZeroDistance(scale: real, kappa: real, m: Math)
    requires ExpAtZero(m) && Sq(scale) * kappa != 0.0
    ensures Ols(0.0, scale, kappa, m) == Ok(1.0)
  {
    assert Sq(0.0) == 0.0;
  }

  lemma ExponentNonNegative(dist: real, scale: real, kappa: real)
    requires scale != 0.0 && kappa > 0.0
    ensures Sq(scale) * kappa > 0.0
    ensures OlsExponent(dist, scale, kappa) >= 0.0
    ensures OlsExponent(dist, scale, kappa) == 0.0 <==> dist == 0.0
  {
    DenominatorPositive(scale, kappa);
    SqPos(dist);
  }

  /** With a positive size prior and a non-degenerate scale, OLS lies in
      (0, 1], and equals 1 exactly when the distance is 0. */
  lemma OlsInUnitInterval(dist: real, scale: real, kappa: real, m: Math)
    requires ExpAtZero(m) && ExpMonotone(m)
    requires scale != 0.0 && kappa > 0.0
    ensures Ols(dist, scale, kappa, m).Ok?
    ensures 0.0 < Ols(dist, scale, kappa, m).value <= 1.0
    ensures Ols(dist, scale, kappa, m).value == 1.0 <==> dist == 0.0
  {
    ExponentNonNegative(dist, scale, kappa);
    var e := OlsExponent(dist, scale, kappa);
    if e > 0.0 {
      assert m.exp(-e) < m.exp(0.0);
    } else {
      assert -e == 0.0;
    }
  }

  /** OLS strictly decreases as the (non-negative) distance grows. */
  lemma OlsDecreasesWithDistance(d1: real, d2: real, scale: real, kappa: real, m: Math)
    requires ExpMonotone(m)
    requires 0.0 <= d1 < d2 && scale != 0.0 && kappa > 0.0
    ensures Ols(d1, scale, kappa, m).Ok? && Ols(d2, scale, kappa, m).Ok?
    ensures Ols(d1, scale, kappa, m).value > Ols(d2, scale, kappa, m).value
  {
    DenominatorPositive(scale, kappa);
    SqMonotone(d1, d2);
    assert OlsExponent(d1, scale, kappa) < OlsExponent(d2, scale, kappa);
  }

  /** OLS strictly increases with the size prior, at any non-zero distance. */
  lemma OlsIncreasesWithKappa(dist: real, scale: real, k1: real, k2: real, m: Math)
    requires ExpMonotone(m)
    requires dist != 0.0 && scale != 0.0 && 0.0 < k1 < k2
    ensures Ols(dist, scale, k1, m).Ok? && Ols(dist, scale, k2, m).Ok?
    ensures Ols(dist, scale, k1, m).value < Ols(dist, scale, k2, m).value
  {
    DenominatorPositive(scale, k1);
    DenominatorPositive(scale, k2);
    SqPos(dist);
    SqPos(scale);
    MulMonotone(k1, k2, Sq(scale));
    DivAntitone(Sq(dist) / 2.0, Sq(scale) * k1, Sq(scale) * k2);
    assert OlsExponent(dist, scale, k2) < OlsExponent(dist, scale, k1);
  }

  lemma MulMonotone(a: real, b: real, c: real)
    requires a < b && c > 0.0
    ensures c * a < c * b
  {
  }

  lemma DivAntitone(n: real, d1: real, d2: real)
    requires n > 0.0 && 0.0 < d1 < d2
    ensures n / d2 < n / d1
  {
  }

  /** `object_sizes[classes[classid]] / 100`, with Python's indexing and
      dictionary lookup errors. */
  function Kappa(cfg: ClassConfig, classId: int): (r: Result<real>)
    ensures r.Ok? <==> PyGet(cfg.classes, classId).Ok? && PyGet(cfg.classes, classId).value in cfg.sizes
    ensures r.Err? ==> r.error == (if PyGet(cfg.classes, classId).Err? then IndexError else KeyError)
    ensures r.Ok? ==> r.value * 100.0 == cfg.sizes[PyGet(cfg.classes, classId).value]
  {
    match PyGet(cfg.classes, classId)
    case Err(e) => Err(e)
    case Ok(name) => if name in cfg.sizes then Ok(cfg.sizes[name] / 100.0) else Err(KeyError)
  }

  /** `(dx ** 2 + dy ** 2) ** 0.5`: the Euclidean distance of two points. */
  function Distance(x1: real, y1: real, x2: real, y2: real, m: Math): (r: real)
    ensures SqrtLaws(m) ==> r >= 0.0 && Sq(r) == Sq(x1 - x2) + Sq(y1 - y2)
    ensures SqrtLaws(m) ==> (r == 0.0 <==> x1 == x2 && y1 == y2)
  {
    SqPos(x1 - x2);
    SqPos(y1 - y2);
    var d := m.sqrt(Sq(x1 - x2) + Sq(y1 - y2));
    SqPos(d);
    d
  }

  /** The shared tail of the three metric entry points on Python floats:
      Euclidean distance of the two points, norm of the FIRST point (its
      distance from the origin) as the scale. */
  function OlsBetweenPoints(x1: real, y1: real, x2: real, y2: real, kappa: real, m: Math): (r: Result<real>)
    ensures r.Err? <==> Sq(Distance(x1, y1, 0.0, 0.0, m)) * kappa == 0.0
  {
    Ols(Distance(x1, y1, x2, y2, m), Distance(x1, y1, 0.0, 0.0, m), kappa, m)
  }

  /** The same tail on numpy float64 points. */
  function OlsBetweenPointsNumpy(x1: real, y1: real, x2: real, y2: real, kappa: real, m: Math): (r: Float)
    ensures OlsBetweenPoints(x1, y1, x2, y2, kappa, m).Ok? ==>
      r == Finite(OlsBetweenPoints(x1, y1, x2, y2, kappa, m).value)
  {
    OlsNumpy(Distance(x1, y1, x2, y2, m), Distance(x1, y1, 0.0, 0.0, m), kappa, m)
  }

  /** `get_ols_xy` on `[x, y, class_id]` triples: a class mismatch is not an
      error, the larger class id is used. */
  function GetOlsXy(o1: (real, real, int), o2: (real, real, int), cfg: ClassConfig, m: Math): (r: Result<real>)
    ensures r.Err? ==> r.error != TypeError
    ensures var c := if o1.2 >= o2.2 then o1.2 else o2.2;
            Kappa(cfg, c).Ok? ==> r == OlsBetweenPoints(o1.0, o1.1, o2.0, o2.1, Kappa(cfg, c).value, m)
  {
    var classId := if o1.2 != o2.2 then (if o1.2 > o2.2 then o1.2 else o2.2) else o1.2;
    match Kappa(cfg, classId)
    case Err(e) => Err(e)
    case Ok(kappa) => OlsBetweenPoints(o1.0, o1.1, o2.0, o2.1, kappa, m)
  }

  /** `get_ols_ra` on `[range, angle, class_id]` triples: both points are
      mapped with the sensor-forward convention first, so the arithmetic is
      numpy's and a zero denominator gives 0.0, +inf or NaN. */
  function GetOlsRa(o1: (real, real, int), o2: (real, real, int), cfg: ClassConfig, m: Math): (r: Result<Float>)
    ensures r.Err? ==> r.error != TypeError && r.error != ZeroDivisionError
  {
    var classId := if o1.2 != o2.2 then (if o1.2 > o2.2 then o1.2 else o2.2) else o1.2;
    var p1 := CoorTransform.Pol2CartRamap(o1.0, o1.1, m);
    var p2 := CoorTransform.Pol2CartRamap(o2.0, o2.1, m);
    match Kappa(cfg, classId)
    case Err(e) => Err(e)
    case Ok(kappa) => Ok(OlsBetweenPointsNumpy(p1.0, p1.1, p2.0, p2.1, kappa, m))
  }

  /** `get_ols_btw_objects(obj1, obj2)`: raises TypeError when the classes
      differ or when obj1's score is below obj2's; otherwise the metric of
      the two mapped positions in obj1's class, in numpy arithmetic. */
  function GetOlsBtwObjects(o1: RadarObject, o2: RadarObject, cfg: ClassConfig, m: Math): (r: Result<Float>)
    ensures o1.classId != o2.classId ==> r == Err(TypeError)
    ensures o1.classId == o2.classId && o1.score < o2.score ==> r == Err(TypeError)
    ensures r == Err(TypeError) ==> o1.classId != o2.classId || o1.score < o2.score
    ensures r.Err? ==> r.error != ZeroDivisionError
  {
    if o1.classId != o2.classId then Err(TypeError)
    else if o1.score < o2.score then Err(TypeError)
    else
      var p1 := CoorTransform.Pol2CartRamap(o1.range, o1.angle, m);
      var p2 := CoorTransform.Pol2CartRamap(o2.range, o2.angle, m);
      match Kappa(cfg, o1.classId)
      case Err(e) => Err(e)
      case Ok(kappa) => Ok(OlsBetweenPointsNumpy(p1.0, p1.1, p2.0, p2.1, kappa, m))
  }

  /** The evaluation calls the metric as (ground truth, detection) with the
      ground truth's score 1.0, so the score guard fires exactly on a
      detection scored above 1. */
  lemma ScoreGuardOnGroundTruth(gt: RadarObject, dt: RadarObject, cfg: ClassConfig, m: Math)
    requires gt.score == 1.0 && gt.classId == dt.classId
    ensures GetOlsBtwObjects(gt, dt, cfg, m) == Err(TypeError) <==> dt.score > 1.0
  {
  }

  /** With matching classes and the score guard passed, the object form is
      the range-angle form. */
  lemma BtwObjectsIsRa(o1: RadarObject, o2: RadarObject, cfg: ClassConfig, m: Math)
    requires o1.classId == o2.classId && o1.score >= o2.score
    ensures GetOlsBtwObjects(o1, o2, cfg, m)
         == GetOlsRa((o1.range, o1.angle, o1.classId), (o2.range, o2.angle, o2.classId), cfg, m)
  {
  }

  /** On a class mismatch the range-angle form behaves as if both objects had
      the larger class id. */
  lemma RaUsesLargerClass(o1: (real, real, int), o2: (real, real, int), cfg: ClassConfig, m: Math)
    ensures var c := if o1.2 >= o2.2 then o1.2 else o2.2;
            GetOlsRa(o1, o2, cfg, m) == GetOlsRa((o1.0, o1.1, c), (o2.0, o2.1, c), cfg, m)
  {
  }

  /** The range-angle form is the Cartesian form after the sensor-forward
      polar-to-Cartesian mapping wherever the Cartesian form on Python
      floats has a value or fails on the class lookup; where that form
      divides by zero the numpy form yields 0.0, +inf or NaN instead. */
  lemma RaIsXyOfRamapPoints(o1: (real, real, int), o2: (real, real, int), cfg: ClassConfig, m: Math)
    ensures var p1 := CoorTransform.Pol2CartRamap(o1.0, o1.1, m);
            var p2 := CoorTransform.Pol2CartRamap(o2.0, o2.1, m);
            var xy := GetOlsXy((p1.0, p1.1, o1.2), (p2.0, p2.1, o2.2), cfg, m);
            var ra := GetOlsRa(o1, o2, cfg, m);
            && (xy.Ok? ==> ra == Ok(Finite(xy.value)))
            && (xy.Err? && xy.error != ZeroDivisionError ==> ra == Err(xy.error))
            && (xy == Err(ZeroDivisionError) ==> ra.Ok? && (ra.value.Finite? ==> ra.value.v == 0.0))
  {
  }

  /** Under sin^2 + cos^2 = 1 and a true square root, the scale of the
      range-angle form is the first object's own range. */
  lemma RaScaleIsFirstRange(o1: (real, real, int), o2: (real, real, int), cfg: ClassConfig, m: Math)
    requires Pythagorean(m) && SqrtLaws(m) && o1.0 >= 0.0
    requires Kappa(cfg, if o1.2 >= o2.2 then o1.2 else o2.2).Ok?
    ensures GetOlsRa(o1, o2, cfg, m)
         == Ok(OlsNumpy(RamapDistance(o1, o2, m), o1.0, Kappa(cfg, if o1.2 >= o2.2 then o1.2 else o2.2).value, m))
  {
    var p1 := CoorTransform.Pol2CartRamap(o1.0, o1.1, m);
    var n2 := Sq(p1.0 - 0.0) + Sq(p1.1 - 0.0);
    assert n2 == Sq(o1.0);
    SqPos(p1.0);
    SqPos(p1.1);
    assert Sq(m.sqrt(n2)) == n2;
    SquareRootUnique(m.sqrt(n2), o1.0);
  }

  /** A ground truth at range 0 has scale 0, so past the guards its OLS with
      any detection is NaN when the two mapped points coincide, and 0.0
      otherwise for a non-negative size prior (+inf for a negative one). */
  lemma GroundTruthAtOrigin(gt: RadarObject, dt: RadarObject, cfg: ClassConfig, m: Math)
    requires Pythagorean(m) && SqrtLaws(m) && gt.range == 0.0
    requires gt.classId == dt.classId && gt.score >= dt.score && Kappa(cfg, gt.classId).Ok?
    ensures var d := RamapDistance((gt.range, gt.angle, gt.classId), (dt.range, dt.angle, dt.classId), m);
            && (d == 0.0 ==> GetOlsBtwObjects(gt, dt, cfg, m) == Ok(NaN))
            && (d != 0.0 && Kappa(cfg, gt.classId).value >= 0.0 ==> GetOlsBtwObjects(gt, dt, cfg, m) == Ok(Finite(0.0)))
            && (d != 0.0 && Kappa(cfg, gt.classId).value < 0.0 ==> GetOlsBtwObjects(gt, dt, cfg, m) == Ok(PosInf))
  {
    BtwObjectsIsRa(gt, dt, cfg, m);
    RaScaleIsFirstRange((gt.range, gt.angle, gt.classId), (dt.range, dt.angle, dt.classId), cfg, m);
    assert Sq(gt.range) == 0.0;
  }

  /** With a ground truth off the origin and a positive size prior, past the
      guards the OLS is a finite number in (0, 1]. */
  lemma BtwObjectsFinite(gt: RadarObject, dt: RadarObject, cfg: ClassConfig, m: Math)
    requires Pythagorean(m) && SqrtLaws(m) && ExpAtZero(m) && ExpMonotone(m) && gt.range > 0.0
    requires gt.classId == dt.classId && gt.score >= dt.score
    requires Kappa(cfg, gt.classId).Ok? && Kappa(cfg, gt.classId).value > 0.0
    ensures GetOlsBtwObjects(gt, dt, cfg, m).Ok?
    ensures GetOlsBtwObjects(gt, dt, cfg, m).value.Finite?
    ensures 0.0 < GetOlsBtwObjects(gt, dt, cfg, m).value.v <= 1.0
  {
    var o1 := (gt.range, gt.angle, gt.classId);
    var o2 := (dt.range, dt.angle, dt.classId);
    var kappa := Kappa(cfg, gt.classId).value;
    BtwObjectsIsRa(gt, dt, cfg, m);
    RaScaleIsFirstRange(o1, o2, cfg, m);
    OlsInUnitInterval(RamapDistance(o1, o2, m), gt.range, kappa, m);
  }

  /** Euclidean distance of two range-angle points after the mapping. */
  function RamapDistance(o1: (real, real, int), o2: (real, real, int), m: Math): (r: real)
    ensures SqrtLaws(m) ==> r >= 0.0
  {
    var p1 := CoorTransform.Pol2CartRamap(o1.0, o1.1, m);
    var p2 := CoorTransform.Pol2CartRamap(o2.0, o2.1, m);
    SqPos(p1.0 - p2.0);
    SqPos(p1.1 - p2.1);
    Distance(p1.0, p1.1, p2.0, p2.1, m)
  }

  lemma SquareRootUnique(a: real, b: real)
    requires a >= 0.0 && b >= 0.0 && Sq(a) == Sq(b)
    ensures a == b
  {
    if a < b {
      SqMonotone(a, b);
    } else if a > b {
      SqMonotone(b, a);
    }
  }

  /** An illustration that the metric is not symmetric: swapping the two
      points changes the scale. Points (0, 1) and (0, 2) of one class with
      size prior 100 (kappa 1) give exp(-1/2) one way and exp(-1/8) the
      other. */
  lemma GetOlsXyNotSymmetric(m: Math)
    requires ExpMonotone(m) && SqrtLaws(m)
    ensures var cfg := ClassConfig(1, ["car"], map["car" := 100.0]);
            GetOlsXy((0.0, 1.0, 0), (0.0, 2.0, 0), cfg, m) != GetOlsXy((0.0, 2.0, 0), (0.0, 1.0, 0), cfg, m)
  {
    var cfg := ClassConfig(1, ["car"], map["car" := 100.0]);
    assert Kappa(cfg, 0) == Ok(1.0);
    assert Sq(m.sqrt(1.0)) == 1.0;
    SquareRootUnique(m.sqrt(1.0), 1.0);
    assert Sq(m.sqrt(4.0)) == 4.0;
    SquareRootUnique(m.sqrt(4.0), 2.0);
    assert OlsExponent(1.0, 1.0, 1.0) == 0.5;
    assert OlsExponent(1.0, 2.0, 1.0) == 0.125;
    assert m.exp(-0.5) < m.exp(-0.125);
  }
}
