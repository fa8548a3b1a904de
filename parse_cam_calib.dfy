/** `parse_cam_matrices`: the four camera matrices of a calibration file,
    each stored as `rows`, `cols` and a flat row-major `data` list, turned into
    arrays with `np.reshape`; the distortion coefficients are squeezed. */
module ParseCamCalib {
  import opened Wrappers
  import opened Json

  /** An array after `np.squeeze` of a two-dimensional one. */
  datatype NdArray =
    | Scalar(x: Json)
    | Vector(xs: seq<Json>)
    | Matrix(m: seq<seq<Json>>)

  /** `value[key]`: KeyError on a dictionary without the key, TypeError on
      anything that is not a dictionary. */
  function Subscript(value: Json, key: string): (r: Result<Json>)
    ensures r.Ok? <==> value.JObj? && key in value.fields
    ensures r.Ok? ==> r.value == value.fields[key]
    ensures r.Err? ==> r.error == (if value.JObj? then KeyError else TypeError)
  {
    match value
    case JObj(fields) => if key in fields then Ok(fields[key]) else Err(KeyError)
    case _ => Err(TypeError)
  }

  /** The elements of `np.array(value)`: a list gives its items, any other
      value a zero-dimensional array of one element. */
  function Elements(value: Json): seq<Json>
  {
    if value.JArr? then value.items else [value]
  }

  /** A shape entry: an int (a bool counts as 0 or 1), else TypeError. */
  function Dim(value: Json): (r: Result<int>)
    ensures r.Ok? <==> value.JInt? || value.JBool?
    ensures r.Err? ==> r.error == TypeError
  {
    match value
    case JInt(i) => Ok(i)
    case JBool(b) => Ok(if b then 1 else 0)
    case _ => Err(TypeError)
  }

  /** The shape `np.reshape` settles on for `size` elements and the shape
      `(rows, cols)`, where one entry may be -1 for "whatever fits"; a
      negative entry other than that, two unknown entries, or a size that
      does not fit is a ValueError. */
  function ResolveShape(size: nat, rows: int, cols: int): (r: Result<(nat, nat)>)
    ensures r.Ok? ==> r.value.0 * r.value.1 == size
    ensures r.Ok? && rows >= 0 ==> r.value.0 == rows
    ensures r.Ok? && cols >= 0 ==> r.value.1 == cols
    ensures r.Err? ==> r.error == ValueError
    ensures rows >= 0 && cols >= 0 ==> (r.Ok? <==> rows * cols == size)
    ensures rows < -1 || cols < -1 || (rows == -1 && cols == -1) ==> r.Err?
  {
    if rows < -1 || cols < -1 || (rows == -1 && cols == -1) then Err(ValueError)
    else if rows == -1 then
      if cols == 0 || size % cols != 0 then Err(ValueError) else Ok((size / cols, cols as nat))
    else if cols == -1 then
      if rows == 0 || size % rows != 0 then Err(ValueError) else Ok((rows as nat, size / rows))
    else if rows * cols == size then Ok((rows as nat, cols as nat))
    else Err(ValueError)
  }

  lemma MulStep(rows: nat, cols: nat)
    requires rows > 0
    ensures rows * cols - cols == (rows - 1) * cols
    ensures rows * cols >= cols
  {
  }

  /** `items` cut into `rows` consecutive rows of `cols` elements. */
  function RowsOf(items: seq<Json>, rows: nat, cols: nat): (r: seq<seq<Json>>)
    requires |items| == rows * cols
    ensures |r| == rows
    ensures forall i :: 0 <= i < rows ==> |r[i]| == cols
  {
    if rows == 0 then []
    else
      MulStep(rows, cols);
      [items[..cols]] + RowsOf(items[cols..], rows - 1, cols)
  }

  /** Row-major order: entry (i, j) is element `i * cols + j`. */
  lemma {:induction false} RowsOfRowMajor(items: seq<Json>, rows: nat, cols: nat, i: nat, j: nat)
    requires |items| == rows * cols && i < rows && j < cols
    ensures i * cols + j < |items|
    ensures RowsOf(items, rows, cols)[i][j] == items[i * cols + j]
  {
    MulStep(rows, cols);
    if i > 0 {
      RowsOfRowMajor(items[cols..], rows - 1, cols, i - 1, j);
      assert (i - 1) * cols + j + cols == i * cols + j;
    }
  }

  /** The rows laid end to end. */
  function Flatten(m: seq<seq<Json>>): seq<Json>
  {
    if |m| == 0 then [] else m[0] + Flatten(m[1..])
  }

  /** Flattening the rows gives the elements back. */
  lemma {:induction false} FlattenRowsOf(items: seq<Json>, rows: nat, cols: nat)
    requires |items| == rows * cols
    ensures Flatten(RowsOf(items, rows, cols)) == items
  {
    if rows > 0 {
      MulStep(rows, cols);
      FlattenRowsOf(items[cols..], rows - 1, cols);
      assert RowsOf(items, rows, cols)[1..] == RowsOf(items[cols..], rows - 1, cols);
      assert items == items[..cols] + items[cols..];
    }
  }

  /** `np.reshape(np.array(data), (rows, cols))`. */
  function Reshape(items: seq<Json>, rows: int, cols: int): (r: Result<seq<seq<Json>>>)
    ensures r.Ok? <==> ResolveShape(|items|, rows, cols).Ok?
    ensures r.Err? ==> r.error == ValueError
    ensures r.Ok? ==> var (nr, nc) := ResolveShape(|items|, rows, cols).value;
      |r.value| == nr && (forall i :: 0 <= i < nr ==> |r.value[i]| == nc) && Flatten(r.value) == items
  {
    match ResolveShape(|items|, rows, cols)
    case Err(e) => Err(e)
    case Ok((nr, nc)) =>
      FlattenRowsOf(items, nr, nc);
      Ok(RowsOf(items, nr, nc))
  }

  /** Entry (i, j) of a reshaped array is element `i * cols + j`. */
  lemma ReshapeRowMajor(items: seq<Json>, rows: int, cols: int, i: nat, j: nat)
    requires Reshape(items, rows, cols).Ok?
    requires i < ResolveShape(|items|, rows, cols).value.0 && j < ResolveShape(|items|, rows, cols).value.1
    ensures i * ResolveShape(|items|, rows, cols).value.1 + j < |items|
    ensures Reshape(items, rows, cols).value[i][j] == items[i * ResolveShape(|items|, rows, cols).value.1 + j]
  {
    var (nr, nc) := ResolveShape(|items|, rows, cols).value;
    RowsOfRowMajor(items, nr, nc, i, j);
  }

  /** `np.squeeze` of an array of shape (rows, cols): every axis of
      length 1 is dropped. */
  function Squeeze(m: seq<seq<Json>>, rows: nat, cols: nat): (r: NdArray)
    requires |m| == rows && forall i :: 0 <= i < rows ==> |m[i]| == cols
    ensures r.Scalar? <==> rows == 1 && cols == 1
    ensures r.Vector? ==> |r.xs| == (if rows == 1 then cols else rows) && |r.xs| != 1
    ensures r.Matrix? ==> rows != 1 && cols != 1 && r.m == m
  {
    if rows == 1 && cols == 1 then Scalar(m[0][0])
    else if rows == 1 then Vector(m[0])
    else if cols == 1 then Vector(seq(rows, i requires 0 <= i < rows => m[i][0]))
    else Matrix(m)
  }

  /** The elements of an array in row-major order. */
  function Ravel(a: NdArray): seq<Json>
  {
    match a
    case Scalar(x) => [x]
    case Vector(xs) => xs
    case Matrix(m) => Flatten(m)
  }

  lemma {:induction false} FlattenColumn(m: seq<seq<Json>>)
    requires forall i :: 0 <= i < |m| ==> |m[i]| == 1
    ensures Flatten(m) == seq(|m|, i requires 0 <= i < |m| => m[i][0])
  {
    if |m| > 0 {
      FlattenColumn(m[1..]);
      assert m[0] == [m[0][0]];
    }
  }

  /** Squeezing keeps the elements and their order. */
  lemma SqueezeKeepsElements(m: seq<seq<Json>>, rows: nat, cols: nat)
    requires |m| == rows && forall i :: 0 <= i < rows ==> |m[i]| == cols
    ensures Ravel(Squeeze(m, rows, cols)) == Flatten(m)
  {
    if rows == 1 {
      assert m[1..] == [];
      assert Flatten(m) == m[0] + [];
      if cols == 1 {
        assert m[0] == [m[0][0]];
      }
    } else if cols == 1 {
      FlattenColumn(m);
    }
  }

  /** One calibration matrix entry `{rows, cols, data}` as an array: the
      entries are read in the order `data`, `rows`, `cols`. */
  function ReadMatrix(entry: Json): (r: Result<(seq<seq<Json>>, nat, nat)>)
    ensures r.Ok? ==> entry.JObj? && "data" in entry.fields && "rows" in entry.fields && "cols" in entry.fields
    ensures r.Ok? ==> var items := Elements(entry.fields["data"]);
      var rows := Dim(entry.fields["rows"]);
      var cols := Dim(entry.fields["cols"]);
      && rows.Ok? && cols.Ok?
      && Reshape(items, rows.value, cols.value) == Ok(r.value.0)
      && ResolveShape(|items|, rows.value, cols.value) == Ok((r.value.1, r.value.2))
  {
    match Subscript(entry, "data")
    case Err(e) => Err(e)
    case Ok(data) =>
      match Subscript(entry, "rows")
      case Err(e) => Err(e)
      case Ok(rowsValue) =>
        match Subscript(entry, "cols")
        case Err(e) => Err(e)
        case Ok(colsValue) =>
          match Dim(rowsValue)
          case Err(e) => Err(e)
          case Ok(rows) =>
            match Dim(colsValue)
            case Err(e) => Err(e)
            case Ok(cols) =>
              match Reshape(Elements(data), rows, cols)
              case Err(e) => Err(e)
              case Ok(m) => Ok((m, ResolveShape(|Elements(data)|, rows, cols).value.0,
                                ResolveShape(|Elements(data)|, rows, cols).value.1))
  }

  /** The calibration matrices: camera matrix K, distortion coefficients
      D, rectification matrix R, projection matrix P. */
  datatype CamMatrices = CamMatrices(k: seq<seq<Json>>, d: NdArray, r: seq<seq<Json>>, p: seq<seq<Json>>)

  /** The four calibration entries are present. */
  predicate HasMatrixKeys(fields: map<string, Json>)
  {
    && "camera_matrix" in fields && "distortion_coefficients" in fields
    && "rectification_matrix" in fields && "projection_matrix" in fields
  }

  /** Lines 5-8 of the source: the four entries, looked up in order. */
  function MatrixEntries(data: Json): (r: Result<(Json, Json, Json, Json)>)
    ensures r.Ok? <==> data.JObj? && HasMatrixKeys(data.fields)
    ensures r.Ok? ==> r.value == (data.fields["camera_matrix"], data.fields["distortion_coefficients"],
                                  data.fields["rectification_matrix"], data.fields["projection_matrix"])
    ensures r.Err? ==> r.error == (if data.JObj? then KeyError else TypeError)
  {
    match Subscript(data, "camera_matrix")
    case Err(e) => Err(e)
    case Ok(cm) =>
      match Subscript(data, "distortion_coefficients")
      case Err(e) => Err(e)
      case Ok(dc) =>
        match Subscript(data, "rectification_matrix")
        case Err(e) => Err(e)
        case Ok(rm) =>
          match Subscript(data, "projection_matrix")
          case Err(e) => Err(e)
          case Ok(pm) => Ok((cm, dc, rm, pm))
  }

  /** K, D (squeezed), R and P built in that order from the four entries;
      the first failure is the result. */
  function BuildMatrices(cm: Json, dc: Json, rm: Json, pm: Json): (r: Result<CamMatrices>)
    ensures r.Ok? <==> ReadMatrix(cm).Ok? && ReadMatrix(dc).Ok? && ReadMatrix(rm).Ok? && ReadMatrix(pm).Ok?
    ensures r.Ok? ==> r.value.k == ReadMatrix(cm).value.0 && r.value.r == ReadMatrix(rm).value.0
                      && r.value.p == ReadMatrix(pm).value.0
    ensures r.Ok? ==> var dm := ReadMatrix(dc).value; r.value.d == Squeeze(dm.0, dm.1, dm.2)
    ensures r.Err? ==> r.error == (if ReadMatrix(cm).Err? then ReadMatrix(cm).error
                                   else if ReadMatrix(dc).Err? then ReadMatrix(dc).error
                                   else if ReadMatrix(rm).Err? then ReadMatrix(rm).error
                                   else ReadMatrix(pm).error)
  {
    match ReadMatrix(cm)
    case Err(e) => Err(e)
    case Ok((k, _, _)) =>
      match ReadMatrix(dc)
      case Err(e) => Err(e)
      case Ok((d, dRows, dCols)) =>
        match ReadMatrix(rm)
        case Err(e) => Err(e)
        case Ok((r, _, _)) =>
          match ReadMatrix(pm)
          case Err(e) => Err(e)
          case Ok((p, _, _)) => Ok(CamMatrices(k, Squeeze(d, dRows, dCols), r, p))
  }

  /** `parse_cam_matrices(data)`: returns (K, D, R, P). A missing entry is
      a KeyError raised before any matrix is built. */
  function ParseCamMatrices(data: Json): (r: Result<CamMatrices>)
    ensures !data.JObj? ==> r == Err(TypeError)
    ensures data.JObj? && !HasMatrixKeys(data.fields) ==> r == Err(KeyError)
    ensures data.JObj? && HasMatrixKeys(data.fields) ==>
      r == BuildMatrices(data.fields["camera_matrix"], data.fields["distortion_coefficients"],
                         data.fields["rectification_matrix"], data.fields["projection_matrix"])
  {
    match MatrixEntries(data)
    case Err(e) => Err(e)
    case Ok((cm, dc, rm, pm)) => BuildMatrices(cm, dc, rm, pm)
  }

  /** A 1 x 5 distortion row, as calibration files store it, becomes a
      vector of its five coefficients. */
  lemma DistortionRowSqueezed(entry: Json)
    requires ReadMatrix(entry).Ok?
    requires ReadMatrix(entry).value.1 == 1 && ReadMatrix(entry).value.2 == 5
    ensures var (m, rows, cols) := ReadMatrix(entry).value;
      Squeeze(m, rows, cols) == Vector(Elements(entry.fields["data"]))
  {
    var (m, rows, cols) := ReadMatrix(entry).value;
    var items := Elements(entry.fields["data"]);
    assert Flatten(m) == items;
    assert m[1..] == [];
    assert Flatten(m) == m[0] + [];
  }
}
