/** Coordinate conversions: the sensor-forward polar-to-Cartesian mapping used
    by the similarity metric, and the in-place translation of bird's-eye-view
    (x, z) points between the radar and camera frames. */
module CoorTransform {
  import opened Wrappers
  import opened Numerics

  /** `pol2cart_ramap`: x = rho*sin(phi), y = rho*cos(phi). */
  function Pol2CartRamap(rho: real, phi: real, m: Math): (r: (real, real))
    ensures Pythagorean(m) ==> Sq(r.0) + Sq(r.1) == Sq(rho)
  {
    var s := m.sin(phi);
    var c := m.cos(phi);
    assert Pythagorean(m) ==> Sq(rho * s) + Sq(rho * c) == Sq(rho) by {
      if Pythagorean(m) {
        assert Sq(s) + Sq(c) == 1.0;
        calc {
          Sq(rho * s) + Sq(rho * c);
          rho * rho * (s * s + c * c);
          Sq(rho) * (Sq(s) + Sq(c));
          Sq(rho);
        }
      }
    }
    (rho * s, rho * c)
  }

  /** The rows of an n x k matrix. */
  ghost function Rows(a: array2<real>): (r: seq<seq<real>>)
    reads a
    ensures |r| == a.Length0
    ensures forall i :: 0 <= i < a.Length0 ==> |r[i]| == a.Length1
  {
    seq(a.Length0, i requires 0 <= i < a.Length0 reads a =>
      seq(a.Length1, j requires 0 <= j < a.Length1 reads a => a[i, j]))
  }

  lemma RowsAre(a: array2<real>, s: seq<seq<real>>)
    requires |s| == a.Length0
    requires forall i :: 0 <= i < |s| ==> |s[i]| == a.Length1
    requires forall i, j :: 0 <= i < a.Length0 && 0 <= j < a.Length1 ==> a[i, j] == s[i][j]
    ensures Rows(a) == s
  {
    var r := Rows(a);
    forall i | 0 <= i < |s|
      ensures r[i] == s[i]
    {
    }
  }

  /** `xz_mat[:, col] += d` on the rows of a matrix (rows too short are left
      as they are). */
  function ShiftColumn(rows: seq<seq<real>>, col: nat, d: real): (r: seq<seq<real>>)
    ensures |r| == |rows|
    ensures forall i :: 0 <= i < |rows| ==> |r[i]| == |rows[i]|
    ensures forall i, j :: 0 <= i < |rows| && 0 <= j < |rows[i]| ==>
      r[i][j] == if j == col then rows[i][j] + d else rows[i][j]
  {
    seq(|rows|, i requires 0 <= i < |rows| =>
      if col < |rows[i]| then rows[i][col := rows[i][col] + d] else rows[i])
  }

  /** Add `dx` to column 0 and `dz` to column 1. */
  function Translate(rows: seq<seq<real>>, dx: real, dz: real): seq<seq<real>>
  {
    ShiftColumn(ShiftColumn(rows, 0, dx), 1, dz)
  }

  /** A translation keeps the row count and the row lengths, moves columns 0
      and 1 by exactly `dx` and `dz`, and leaves every other column alone. */
  lemma TranslateEffect(rows: seq<seq<real>>, dx: real, dz: real)
    requires forall i :: 0 <= i < |rows| ==> |rows[i]| >= 2
    ensures var t := Translate(rows, dx, dz);
            && |t| == |rows|
            && (forall i :: 0 <= i < |rows| ==> |t[i]| == |rows[i]|)
            && (forall i :: 0 <= i < |rows| ==> t[i][0] == rows[i][0] + dx && t[i][1] == rows[i][1] + dz)
            && (forall i, j :: 0 <= i < |rows| && 2 <= j < |rows[i]| ==> t[i][j] == rows[i][j])
  {
  }

  /** Translating back by the same vector restores the matrix. */
  lemma TranslateRoundTrip(rows: seq<seq<real>>, dx: real, dz: real)
    ensures Translate(Translate(rows, dx, dz), -dx, -dz) == rows
  {
    var t := Translate(Translate(rows, dx, dz), -dx, -dz);
    assert |t| == |rows|;
    forall i | 0 <= i < |rows|
      ensures t[i] == rows[i]
    {
      assert |t[i]| == |rows[i]|;
      forall j | 0 <= j < |rows[i]|
        ensures t[i][j] == rows[i][j]
      {
      }
    }
  }

  /** `xz_mat[:, col] += d`, in place. */
  method ShiftColumnInPlace(xz: array2<real>, col: nat, d: real)
    requires col < xz.Length1
    modifies xz
    ensures Rows(xz) == ShiftColumn(old(Rows(xz)), col, d)
  {
    ghost var before := Rows(xz);
    forall i | 0 <= i < xz.Length0 {
      xz[i, col] := xz[i, col] + d;
    }
    RowsAre(xz, ShiftColumn(before, col, d));
  }

  /** `radar2camera_xz`: `tx, ty, tz = translations` (anything but three
      components raises ValueError before the matrix is touched), then
      column 0 gets `+= tx` and column 1 `+= tz` in place; `ty` is ignored.
      The same matrix object is returned. A matrix without a column 1 raises
      IndexError after column 0 has been shifted. */
  method Radar2CameraXz(xz: array2<real>, translations: seq<real>) returns (r: Result<array2<real>>)
    modifies xz
    ensures |translations| != 3 ==> r == Err(ValueError) && Rows(xz) == old(Rows(xz))
    ensures |translations| == 3 && xz.Length1 == 0 ==> r == Err(IndexError) && Rows(xz) == old(Rows(xz))
    ensures |translations| == 3 && xz.Length1 == 1 ==>
      r == Err(IndexError) && Rows(xz) == ShiftColumn(old(Rows(xz)), 0, translations[0])
    ensures |translations| == 3 && xz.Length1 >= 2 ==>
      r == Ok(xz) && Rows(xz) == Translate(old(Rows(xz)), translations[0], translations[2])
  {
    if |translations| != 3 {
      return Err(ValueError);
    }
    var tx, tz := translations[0], translations[2];
    if xz.Length1 < 1 {
      return Err(IndexError);
    }
    ShiftColumnInPlace(xz, 0, tx);
    if xz.Length1 < 2 {
      return Err(IndexError);
    }
    ShiftColumnInPlace(xz, 1, tz);
    r := Ok(xz);
  }

  /** `camera2radar_xz`: the inverse shift, `-= tx` on column 0 and `-= tz`
      on column 1, with the same error behaviour. */
  method Camera2RadarXz(xz: array2<real>, translations: seq<real>) returns (r: Result<array2<real>>)
    modifies xz
    ensures |translations| != 3 ==> r == Err(ValueError) && Rows(xz) == old(Rows(xz))
    ensures |translations| == 3 && xz.Length1 == 0 ==> r == Err(IndexError) && Rows(xz) == old(Rows(xz))
    ensures |translations| == 3 && xz.Length1 == 1 ==>
      r == Err(IndexError) && Rows(xz) == ShiftColumn(old(Rows(xz)), 0, -translations[0])
    ensures |translations| == 3 && xz.Length1 >= 2 ==>
      r == Ok(xz) && Rows(xz) == Translate(old(Rows(xz)), -translations[0], -translations[2])
  {
    if |translations| != 3 {
      return Err(ValueError);
    }
    var tx, tz := translations[0], translations[2];
    if xz.Length1 < 1 {
      return Err(IndexError);
    }
    ShiftColumnInPlace(xz, 0, -tx);
    if xz.Length1 < 2 {
      return Err(IndexError);
    }
    ShiftColumnInPlace(xz, 1, -tz);
    r := Ok(xz);
  }

  /** A client: translating to the camera frame and back restores every
      entry of the matrix. */
  method RoundTrip(xz: array2<real>, translations: seq<real>)
    requires |translations| == 3 && xz.Length1 >= 2
    modifies xz
    ensures Rows(xz) == old(Rows(xz))
  {
    var r1 := Radar2CameraXz(xz, translations);
    var r2 := Camera2RadarXz(xz, translations);
    TranslateRoundTrip(old(Rows(xz)), translations[0], translations[2]);
  }
}
