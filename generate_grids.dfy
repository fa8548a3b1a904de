/** Range, angle and bird's-eye-view grids built from the radar front-end
    configuration. */
module GenerateGrids {
  import opened Wrappers
  import opened Numerics

  /** The entries of a radar configuration dictionary that the grid builders
      read. */
  datatype RadarConfig = RadarConfig(
    sampleFreq: real,
    sweepSlope: real,
    cropNum: nat,
    ramapRsize: nat,
    ramapAsize: nat,
    raMin: real,
    raMax: real,
    ramapRsizeLabel: nat,
    ramapAsizeLabel: nat,
    raMinLabel: real,
    raMaxLabel: real)

  /** `scipy.constants.speed_of_light`, in m/s. */
  const SpeedOfLight: real := 299792458.0

  /** Distance of FFT bin `bin`: beat frequency bin * Fs / fftSize, times
      c / sweepSlope / 2. */
  function BinDistance(fs: real, sweepSlope: real, fftSize: nat, bin: nat): real
    requires fftSize > 0 && sweepSlope != 0.0
  {
    (bin as real) * (fs / (fftSize as real)) * SpeedOfLight / sweepSlope / 2.0
  }

  /** The range construction shared by both grid families: `rsize + 2*crop`
      FFT bins, of which `crop` are dropped at each end. `Fs / 0` raises. */
  function CroppedRangeGrid(fs: real, sweepSlope: real, crop: nat, rsize: nat): (r: Result<seq<real>>)
    requires sweepSlope != 0.0
    ensures r.Err? <==> rsize + 2 * crop == 0
    ensures r.Err? ==> r.error == ZeroDivisionError
    ensures r.Ok? ==> |r.value| == rsize
    ensures r.Ok? ==> forall i :: 0 <= i < rsize ==>
      r.value[i] == ((i + crop) as real) * fs / ((rsize + 2 * crop) as real) * SpeedOfLight / sweepSlope / 2.0
  {
    var fft := rsize + 2 * crop;
    if fft == 0 then Err(ZeroDivisionError)
    else
      var full := seq(fft, b requires 0 <= b < fft => BinDistance(fs, sweepSlope, fft, b));
      Ok(full[crop..fft - crop])
  }

  /** With positive sample frequency and sweep slope, the cropped range grid
      is strictly increasing. */
  lemma {:induction false} CroppedRangeGridIncreasing(fs: real, sweepSlope: real, crop: nat, rsize: nat)
    requires fs > 0.0 && sweepSlope > 0.0 && rsize > 0
    ensures CroppedRangeGrid(fs, sweepSlope, crop, rsize).Ok?
    ensures var g := CroppedRangeGrid(fs, sweepSlope, crop, rsize).value;
            forall i, j :: 0 <= i < j < |g| ==> g[i] < g[j]
  {
    var g := CroppedRangeGrid(fs, sweepSlope, crop, rsize).value;
    var fft := (rsize + 2 * crop) as real;
    var k := fs / fft * SpeedOfLight / sweepSlope / 2.0;
    assert k > 0.0 by {
      assert fs / fft > 0.0;
      assert fs / fft * SpeedOfLight > 0.0;
      assert fs / fft * SpeedOfLight / sweepSlope > 0.0;
    }
    forall i, j | 0 <= i < j < |g|
      ensures g[i] < g[j]
    {
      assert g[i] == ((i + crop) as real) * k;
      assert g[j] == ((j + crop) as real) * k;
      assert ((i + crop) as real) < ((j + crop) as real);
    }
  }

  /** `confmap2ra`. `name` selects the grid ("range" or "angle"; anything
      else gives None). The angle grid samples sin(angle) evenly between the
      sines of `ra_min` and `ra_max` and maps back with arcsin; `radordeg`
      other than "rad" or "deg" raises TypeError there. */
  function Confmap2Ra(cfg: RadarConfig, name: string, radordeg: string, m: Math): (r: Result<Option<seq<real>>>)
    requires cfg.sweepSlope != 0.0
    ensures name != "range" && name != "angle" ==> r == Ok(None)
    ensures name == "range" ==> r.Ok? == (cfg.ramapRsize + 2 * cfg.cropNum > 0)
    ensures name == "range" && r.Ok? ==>
      r.value == Some(CroppedRangeGrid(cfg.sampleFreq, cfg.sweepSlope, cfg.cropNum, cfg.ramapRsize).value)
    ensures name == "angle" ==> (r.Err? <==> radordeg != "rad" && radordeg != "deg")
    ensures name == "angle" && r.Err? ==> r.error == TypeError
    ensures name == "angle" && r.Ok? ==> r.value.Some? && |r.value.value| == cfg.ramapAsize
    ensures name == "angle" && r.Ok? ==>
      var w := Linspace(m.sin(Radians(cfg.raMin)), m.sin(Radians(cfg.raMax)), cfg.ramapAsize);
      forall i :: 0 <= i < cfg.ramapAsize ==>
        r.value.value[i] == (if radordeg == "deg" then Degrees(m.arcsin(w[i])) else m.arcsin(w[i]))
  {
    if name == "range" then
      match CroppedRangeGrid(cfg.sampleFreq, cfg.sweepSlope, cfg.cropNum, cfg.ramapRsize)
      case Ok(g) => Ok(Some(g))
      case Err(e) => Err(e)
    else if name == "angle" then
      var w := Linspace(m.sin(Radians(cfg.raMin)), m.sin(Radians(cfg.raMax)), cfg.ramapAsize);
      if radordeg == "deg" then Ok(Some(seq(|w|, i requires 0 <= i < |w| => Degrees(m.arcsin(w[i])))))
      else if radordeg == "rad" then Ok(Some(seq(|w|, i requires 0 <= i < |w| => m.arcsin(w[i]))))
      else Err(TypeError)
    else Ok(None)
  }

  /** `labelmap2ra`. The range grid is the cropped construction on
      `ramap_rsize_label` bins, reversed; the angle grid is uniform between
      `ra_min_label` and `ra_max_label` (converted to radians for "rad"). */
  function Labelmap2Ra(cfg: RadarConfig, name: string, radordeg: string): (r: Result<Option<seq<real>>>)
    requires cfg.sweepSlope != 0.0
    ensures name != "range" && name != "angle" ==> r == Ok(None)
    ensures name == "range" ==> r.Ok? == (cfg.ramapRsizeLabel + 2 * cfg.cropNum > 0)
    ensures name == "range" && r.Ok? ==>
      var g := CroppedRangeGrid(cfg.sampleFreq, cfg.sweepSlope, cfg.cropNum, cfg.ramapRsizeLabel).value;
      r.value.Some? && |r.value.value| == |g| &&
      forall i :: 0 <= i < |g| ==> r.value.value[i] == g[|g| - 1 - i]
    ensures name == "angle" ==> (r.Err? <==> radordeg != "rad" && radordeg != "deg")
    ensures name == "angle" && r.Err? ==> r.error == TypeError
    ensures name == "angle" && radordeg == "rad" ==>
      r == Ok(Some(Linspace(Radians(cfg.raMinLabel), Radians(cfg.raMaxLabel), cfg.ramapAsizeLabel)))
    ensures name == "angle" && radordeg == "deg" ==>
      r == Ok(Some(Linspace(cfg.raMinLabel, cfg.raMaxLabel, cfg.ramapAsizeLabel)))
  {
    if name == "range" then
      match CroppedRangeGrid(cfg.sampleFreq, cfg.sweepSlope, cfg.cropNum, cfg.ramapRsizeLabel)
      case Ok(g) => Ok(Some(Reverse(g)))
      case Err(e) => Err(e)
    else if name == "angle" then
      if radordeg == "rad" then
        Ok(Some(Linspace(Radians(cfg.raMinLabel), Radians(cfg.raMaxLabel), cfg.ramapAsizeLabel)))
      else if radordeg == "deg" then
        Ok(Some(Linspace(cfg.raMinLabel, cfg.raMaxLabel, cfg.ramapAsizeLabel)))
      else Err(TypeError)
    else Ok(None)
  }

  /** The label-map range grid runs the other way: strictly decreasing. */
  lemma LabelRangeGridDecreasing(cfg: RadarConfig)
    requires cfg.sampleFreq > 0.0 && cfg.sweepSlope > 0.0 && cfg.ramapRsizeLabel > 0
    ensures Labelmap2Ra(cfg, "range", "rad").Ok?
    ensures var g := Labelmap2Ra(cfg, "range", "rad").value;
            g.Some? && |g.value| == cfg.ramapRsizeLabel &&
            forall i, j :: 0 <= i < j < |g.value| ==> g.value[i] > g.value[j]
  {
    CroppedRangeGridIncreasing(cfg.sampleFreq, cfg.sweepSlope, cfg.cropNum, cfg.ramapRsizeLabel);
    var g := CroppedRangeGrid(cfg.sampleFreq, cfg.sweepSlope, cfg.cropNum, cfg.ramapRsizeLabel).value;
    var lg := Labelmap2Ra(cfg, "range", "rad").value.value;
    forall i, j | 0 <= i < j < |lg|
      ensures lg[i] > lg[j]
    {
      assert lg[i] == g[|g| - 1 - i] && lg[j] == g[|g| - 1 - j];
    }
  }

  /** The label-map angle grid has the configured number of bins, runs from
      `ra_min_label` to `ra_max_label` inclusive, and is evenly spaced. */
  lemma LabelAngleGridShape(cfg: RadarConfig, radordeg: string)
    requires cfg.sweepSlope != 0.0 && cfg.ramapAsizeLabel >= 2
    requires radordeg == "rad" || radordeg == "deg"
    ensures Labelmap2Ra(cfg, "angle", radordeg).Ok?
    ensures var g := Labelmap2Ra(cfg, "angle", radordeg).value.value;
            var lo := if radordeg == "rad" then Radians(cfg.raMinLabel) else cfg.raMinLabel;
            var hi := if radordeg == "rad" then Radians(cfg.raMaxLabel) else cfg.raMaxLabel;
            && |g| == cfg.ramapAsizeLabel
            && g[0] == lo && g[|g| - 1] == hi
            && forall i :: 0 <= i < |g| - 1 ==> g[i + 1] - g[i] == (hi - lo) / ((|g| - 1) as real)
  {
    if radordeg == "rad" {
      LinspaceShape(Radians(cfg.raMinLabel), Radians(cfg.raMaxLabel), cfg.ramapAsizeLabel);
    } else {
      LinspaceShape(cfg.raMinLabel, cfg.raMaxLabel, cfg.ramapAsizeLabel);
    }
  }

  /** `np.linspace(0, stop, num, endpoint=False)`. */
  function OpenLinspace(stop: real, num: nat): (r: seq<real>)
    requires num > 0
    ensures |r| == num
  {
    seq(num, j requires 0 <= j < num => (j as real) * (stop / (num as real)))
  }

  lemma CancelFactor(a: real, n: real)
    requires n > 0.0
    ensures (a * n) / n == a
  {
  }

  /** `-xline[1:]`. */
  function NegatedTail(half: seq<real>): (r: seq<real>)
    requires |half| > 0
    ensures |r| == |half| - 1
    ensures forall j :: 0 <= j < |r| ==> r[j] == -half[j + 1]
  {
    seq(|half| - 1, j requires 0 <= j < |half| - 1 => -half[j + 1])
  }

  /** `xline` of `get_xzgrid`: `origin` + 1 points from 0 in steps of
      `zreso`, with their mirror images prepended. */
  function XLine(origin: nat, zreso: real): (r: seq<real>)
  {
    var half := OpenLinspace(zreso * ((origin + 1) as real), origin + 1);
    Reverse(NegatedTail(half)) + half
  }

  /** `get_xzgrid`: the x line (lateral, symmetric about the sensor) and z
      line (forward) of the bird's-eye-view image of size `nz` x `nx`. */
  function XzGrid(nz: nat, nx: nat, zrange: real): (r: (seq<real>, seq<real>))
    requires nz > 0
  {
    (XLine(nx / 2, zrange / (nz as real)), OpenLinspace(zrange, nz))
  }

  /** The z line has `nz` entries i*zrange/nz, starting at 0 and stopping one
      step short of `zrange`. */
  lemma XzGridZLine(nz: nat, nx: nat, zrange: real)
    requires nz > 0
    ensures var z := XzGrid(nz, nx, zrange).1;
            && |z| == nz
            && z[0] == 0.0
            && (forall i :: 0 <= i < nz ==> z[i] == (i as real) * zrange / (nz as real))
            && z[nz - 1] == zrange - zrange / (nz as real)
  {
    var z := XzGrid(nz, nx, zrange).1;
    forall i | 0 <= i < nz
      ensures z[i] == (i as real) * zrange / (nz as real)
    {
      assert z[i] == (i as real) * (zrange / (nz as real));
    }
    assert z[nz - 1] == ((nz - 1) as real) * (zrange / (nz as real));
  }

  lemma XLineValues(o: nat, zreso: real)
    ensures |XLine(o, zreso)| == 2 * o + 1
    ensures forall k :: 0 <= k < 2 * o + 1 ==> XLine(o, zreso)[k] == ((k - o) as real) * zreso
  {
    var xmax := zreso * ((o + 1) as real);
    var half := OpenLinspace(xmax, o + 1);
    var x := XLine(o, zreso);
    var negated := NegatedTail(half);
    assert x == Reverse(negated) + half;
    CancelFactor(zreso, (o + 1) as real);
    forall j | 0 <= j <= o
      ensures half[j] == (j as real) * zreso
    {
    }
    forall k | 0 <= k < |x|
      ensures x[k] == ((k - o) as real) * zreso
    {
      if k < o {
        assert x[k] == -half[o - k];
      } else {
        assert x[k] == half[k - o];
      }
    }
  }

  /** The x line has 2*floor(nx/2)+1 entries (k - floor(nx/2)) * zrange/nz. */
  lemma XzGridXValues(nz: nat, nx: nat, zrange: real)
    requires nz > 0
    ensures var x := XzGrid(nz, nx, zrange).0;
            var o := nx / 2;
            && |x| == 2 * o + 1
            && forall k :: 0 <= k < |x| ==> x[k] == ((k - o) as real) * (zrange / (nz as real))
  {
    XLineValues(nx / 2, zrange / (nz as real));
  }

  /** The x line is 0 at its centre and symmetric about it. */
  lemma XzGridXSymmetric(nz: nat, nx: nat, zrange: real)
    requires nz > 0
    ensures var x := XzGrid(nz, nx, zrange).0;
            var o := nx / 2;
            && |x| == 2 * o + 1
            && x[o] == 0.0
            && forall k :: 0 <= k < |x| ==> x[k] == -x[2 * o - k]
  {
    XzGridXValues(nz, nx, zrange);
    var o := nx / 2;
    var zreso := zrange / (nz as real);
    var x := XzGrid(nz, nx, zrange).0;
    forall k | 0 <= k < |x|
      ensures x[k] == -x[2 * o - k]
    {
      var a := (k - o) as real;
      assert x[k] == a * zreso;
      assert x[2 * o - k] == (-a) * zreso;
    }
  }
}
