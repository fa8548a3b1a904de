/** The readers of ground-truth, submission and network-output files, on
    lines that are already split into their fields. Each reader fills the
    dense (frame, class) bucket map, drops objects outside the field of view
    and numbers the objects it keeps. */
module LoadTxt {
  import opened Wrappers
  import opened Numerics
  import opened Objects

  /** `frame_id range angle class_name` of a ground-truth file. */
  datatype GtLine = GtLine(frameId: int, range: real, angle: real, className: string)

  /** `frame_id range angle class_name score` of a submission file. */
  datatype SubLine = SubLine(frameId: int, range: real, angle: real, className: string, score: real)

  /** `frame_id class range_bin angle_bin conf` of a network-output file. */
  datatype RodnetLine = RodnetLine(frameId: int, classStr: string, rangeBin: int, angleBin: int, conf: real)

  /** A ground-truth or submission line; ground truth is scored 1.0. */
  datatype TextLine = TextLine(frameId: int, range: real, angle: real, className: string, score: real)

  function GtAsText(l: GtLine): TextLine { TextLine(l.frameId, l.range, l.angle, l.className, 1.0) }

  function SubAsText(l: SubLine): TextLine { TextLine(l.frameId, l.range, l.angle, l.className, l.score) }

  /** The field of view: neither `rng > 25 or rng < 1` nor
      `agl > radians(60) or agl < radians(-60)`. */
  predicate InFov(range: real, angle: real)
  {
    !(range > 25.0 || range < 1.0) && !(angle > Radians(60.0) || angle < Radians(-60.0))
  }

  /** `list.index`: the first position of `x`, ValueError when absent. */
  function IndexOf(xs: seq<string>, x: string): (r: Result<nat>)
    ensures r.Ok? <==> x in xs
    ensures r.Err? ==> r.error == ValueError
    ensures r.Ok? ==> r.value < |xs| && xs[r.value] == x && x !in xs[..r.value]
  {
    if |xs| == 0 then Err(ValueError)
    else if xs[0] == x then Ok(0)
    else
      match IndexOf(xs[1..], x)
      case Err(e) => Err(e)
      case Ok(i) =>
        assert xs[..i + 1] == [xs[0]] + xs[1..][..i];
        Ok(i + 1)
  }

  // ---------------------------------------------------------------------
  // First pass of the text readers: lines grouped by frame.

  /** The object of a line before it is numbered (id 0 until then). */
  function ParseText(l: TextLine, cfg: ClassConfig): (r: Result<RadarObject>)
    ensures r.Ok? <==> l.className in cfg.classes
    ensures r.Ok? ==> r.value.classId == IndexOf(cfg.classes, l.className).value
    ensures r.Ok? ==> r.value.frameId == l.frameId && r.value.range == l.range && r.value.angle == l.angle
    ensures r.Ok? ==> r.value.className == Some(l.className) && r.value.score == l.score
  {
    match IndexOf(cfg.classes, l.className)
    case Err(e) => Err(e)
    case Ok(c) => Ok(RadarObject(0, l.frameId, l.range, l.angle, Some(l.className), c, l.score, None))
  }

  /** The exception a line raises in the first pass: an unknown class name
      (ValueError) before a frame id out of the list's range (IndexError). */
  function LineError(l: TextLine, cfg: ClassConfig, nFrame: nat): (r: Option<Error>)
    ensures r.None? <==> l.className in cfg.classes && PyIndex(l.frameId, nFrame).Some?
  {
    if IndexOf(cfg.classes, l.className).Err? then Some(ValueError)
    else if PyIndex(l.frameId, nFrame).None? then Some(IndexError)
    else None
  }

  /** The exception of the first line that raises one. */
  function FirstError(lines: seq<TextLine>, cfg: ClassConfig, nFrame: nat): (r: Option<Error>)
    ensures r.None? <==> forall i :: 0 <= i < |lines| ==> LineError(lines[i], cfg, nFrame).None?
    ensures r.Some? ==> exists i :: 0 <= i < |lines| && r == LineError(lines[i], cfg, nFrame)
  {
    if |lines| == 0 then None
    else
      var prev := FirstError(lines[..|lines| - 1], cfg, nFrame);
      assert forall i :: 0 <= i < |lines| - 1 ==> lines[..|lines| - 1][i] == lines[i];
      if prev.Some? then prev else LineError(lines[|lines| - 1], cfg, nFrame)
  }

  lemma {:induction false} FirstErrorPrefix(lines: seq<TextLine>, i: nat, cfg: ClassConfig, nFrame: nat)
    requires i <= |lines|
    requires FirstError(lines[..i], cfg, nFrame).Some?
    ensures FirstError(lines, cfg, nFrame) == FirstError(lines[..i], cfg, nFrame)
    decreases |lines| - i
  {
    if i < |lines| {
      assert lines[..i + 1][..i] == lines[..i];
      FirstErrorPrefix(lines, i + 1, cfg, nFrame);
    } else {
      assert lines[..i] == lines;
    }
  }

  /** The objects slot `f` of `dets` holds after the first pass, in file
      order: the lines whose frame id indexes slot `f`. */
  function SlotContents(lines: seq<TextLine>, cfg: ClassConfig, nFrame: nat, f: nat): (r: seq<RadarObject>)
    ensures forall o :: o in r ==>
      exists i :: (0 <= i < |lines| && LineError(lines[i], cfg, nFrame).None?
        && PyIndex(lines[i].frameId, nFrame) == Some(f) && ParseText(lines[i], cfg) == Ok(o))
  {
    if |lines| == 0 then []
    else
      var prefix := lines[..|lines| - 1];
      var l := lines[|lines| - 1];
      assert forall i :: 0 <= i < |prefix| ==> prefix[i] == lines[i];
      SlotContents(prefix, cfg, nFrame, f)
        + (if LineError(l, cfg, nFrame).None? && PyIndex(l.frameId, nFrame) == Some(f) then [ParseText(l, cfg).value] else [])
  }

  function Slots(lines: seq<TextLine>, cfg: ClassConfig, nFrame: nat): (r: seq<seq<RadarObject>>)
    ensures |r| == nFrame
    ensures forall f :: 0 <= f < nFrame ==> r[f] == SlotContents(lines, cfg, nFrame, f)
  {
    seq(nFrame, f requires 0 <= f < nFrame => SlotContents(lines, cfg, nFrame, f))
  }

  /** `dets = [None] * n_frame` filled line by line; a slot never reached
      (None in the source) is the empty list. */
  method GroupByFrame(lines: seq<TextLine>, cfg: ClassConfig, nFrame: nat) returns (r: Result<seq<seq<RadarObject>>>)
    ensures r.Err? <==> FirstError(lines, cfg, nFrame).Some?
    ensures r.Err? ==> r.error == FirstError(lines, cfg, nFrame).value
    ensures r.Ok? ==> r.value == Slots(lines, cfg, nFrame)
  {
    var dets: seq<seq<RadarObject>> := seq(nFrame, _ => []);
    var i := 0;
    while i < |lines|
      invariant 0 <= i <= |lines|
      invariant FirstError(lines[..i], cfg, nFrame).None?
      invariant |dets| == nFrame
      invariant forall f :: 0 <= f < nFrame ==> dets[f] == SlotContents(lines[..i], cfg, nFrame, f)
    {
      var l := lines[i];
      assert lines[..i + 1][..i] == lines[..i];
      assert lines[..i + 1][i] == l;
      var cls := IndexOf(cfg.classes, l.className);
      if cls.Err? {
        FirstErrorPrefix(lines, i + 1, cfg, nFrame);
        return Err(ValueError);
      }
      var slot := PyIndex(l.frameId, nFrame);
      if slot.None? {
        FirstErrorPrefix(lines, i + 1, cfg, nFrame);
        return Err(IndexError);
      }
      dets := dets[slot.value := dets[slot.value] + [ParseText(l, cfg).value]];
      i := i + 1;
    }
    assert lines[..|lines|] == lines;
    return Ok(dets);
  }

  // ---------------------------------------------------------------------
  // Second pass of the text readers: numbering and bucketing.

  function Tag(f: nat, objs: seq<RadarObject>): (r: seq<(nat, RadarObject)>)
    ensures |r| == |objs|
    ensures forall i :: 0 <= i < |r| ==> r[i] == (f, objs[i])
  {
    seq(|objs|, i requires 0 <= i < |objs| => (f, objs[i]))
  }

  /** The objects of `dets` frame by frame, each with its slot: slots never
      decrease along the result (`FlattenAt` places each object exactly). */
  function Flatten(dets: seq<seq<RadarObject>>): (r: seq<(nat, RadarObject)>)
    ensures forall i :: 0 <= i < |r| ==> r[i].0 < |dets| && r[i].1 in dets[r[i].0]
    ensures forall i, j :: 0 <= i < j < |r| ==> r[i].0 <= r[j].0
  {
    if |dets| == 0 then []
    else
      var prefix := dets[..|dets| - 1];
      assert forall f :: 0 <= f < |prefix| ==> prefix[f] == dets[f];
      Flatten(prefix) + Tag(|dets| - 1, dets[|dets| - 1])
  }

  /** Entries of a bucket map in append order: (key, object). */
  type Keyed = seq<((int, int), RadarObject)>

  /** The objects in the field of view, numbered 1, 2, ... in order and keyed
      by (their slot, their class id). */
  function Number(flat: seq<(nat, RadarObject)>): (t: Keyed)
    ensures |t| <= |flat|
    ensures forall i :: 0 <= i < |t| ==> t[i].1.id == i + 1
    ensures forall i :: 0 <= i < |t| ==> InFov(t[i].1.range, t[i].1.angle)
    ensures forall i :: 0 <= i < |t| ==>
      exists j :: (0 <= j < |flat|
        && t[i].0 == (flat[j].0 as int, flat[j].1.classId) && t[i].1 == flat[j].1.(id := i + 1))
  {
    if |flat| == 0 then []
    else
      var prefix := flat[..|flat| - 1];
      var p := flat[|flat| - 1];
      var prev := Number(prefix);
      assert forall j :: 0 <= j < |prefix| ==> prefix[j] == flat[j];
      if InFov(p.1.range, p.1.angle) then prev + [((p.0 as int, p.1.classId), p.1.(id := |prev| + 1))]
      else prev
  }

  lemma {:induction false} NumberPrefix(a: seq<(nat, RadarObject)>, b: seq<(nat, RadarObject)>)
    ensures |Number(a)| <= |Number(a + b)|
    ensures Number(a) == Number(a + b)[..|Number(a)|]
    decreases |b|
  {
    if |b| == 0 {
      assert a + b == a;
    } else {
      var b' := b[..|b| - 1];
      NumberPrefix(a, b');
      assert (a + b)[..|a + b| - 1] == a + b';
    }
  }

  /** The objects appended under key `k`, in append order. */
  function Select(t: Keyed, k: (int, int)): (r: seq<RadarObject>)
    ensures |r| <= |t|
    ensures forall o :: o in r ==> (k, o) in t
  {
    if |t| == 0 then []
    else
      var prefix := t[..|t| - 1];
      assert forall x :: x in prefix ==> x in t;
      Select(prefix, k) + (if t[|t| - 1].0 == k then [t[|t| - 1].1] else [])
  }

  lemma {:induction false} SelectComplete(t: Keyed, i: nat)
    requires i < |t|
    ensures t[i].1 in Select(t, t[i].0)
    decreases |t|
  {
    if i < |t| - 1 {
      var prefix := t[..|t| - 1];
      assert prefix[i] == t[i];
      SelectComplete(prefix, i);
    }
  }

  /** The dense bucket map after appending the entries of `t` in order. */
  function BucketsOf(t: Keyed, nFrame: nat, nClass: nat): (b: Buckets)
    ensures DenseKeys(b, nFrame, nClass)
    ensures forall k :: k in b ==> b[k] == Select(t, k)
  {
    map k | k in KeySet(nFrame, nClass) :: Select(t, k)
  }

  lemma BucketsOfEmpty(nFrame: nat, nClass: nat)
    ensures BucketsOf([], nFrame, nClass) == EmptyBuckets(nFrame, nClass)
  {
  }

  /** Appending one entry to one bucket. */
  lemma BucketsOfSnoc(t: Keyed, x: ((int, int), RadarObject), nFrame: nat, nClass: nat)
    requires x.0 in KeySet(nFrame, nClass)
    ensures BucketsOf(t + [x], nFrame, nClass)
         == BucketsOf(t, nFrame, nClass)[x.0 := BucketsOf(t, nFrame, nClass)[x.0] + [x.1]]
  {
    var t' := t + [x];
    assert t'[..|t'| - 1] == t;
    var lhs := BucketsOf(t', nFrame, nClass);
    var rhs := BucketsOf(t, nFrame, nClass)[x.0 := BucketsOf(t, nFrame, nClass)[x.0] + [x.1]];
    assert lhs.Keys == rhs.Keys;
    forall k | k in lhs.Keys ensures lhs[k] == rhs[k] {
      assert Select(t', k) == Select(t, k) + (if x.0 == k then [x.1] else []);
    }
  }

  /** Every entry's key is a key of the dense map. */
  predicate KeysDense(t: Keyed, nFrame: nat, nClass: nat)
  {
    forall i :: 0 <= i < |t| ==> t[i].0 in KeySet(nFrame, nClass)
  }

  lemma KeysDenseSnoc(t: Keyed, x: ((int, int), RadarObject), nFrame: nat, nClass: nat)
    requires KeysDense(t, nFrame, nClass) && x.0 in KeySet(nFrame, nClass)
    ensures KeysDense(t + [x], nFrame, nClass)
  {
  }

  /** The second pass: KeyError when a kept object's class id has no bucket
      (a class list longer than `n_class`), the bucket map otherwise. */
  function AssignSpec(dets: seq<seq<RadarObject>>, nClass: nat): (r: Result<Buckets>)
    ensures r.Err? ==> r.error == KeyError
  {
    var t := Number(Flatten(dets));
    if KeysDense(t, |dets|, nClass) then Ok(BucketsOf(t, |dets|, nClass)) else Err(KeyError)
  }

  lemma FlattenSnoc(dets: seq<seq<RadarObject>>, f: nat)
    requires f < |dets|
    ensures Flatten(dets[..f + 1]) == Flatten(dets[..f]) + Tag(f, dets[f])
  {
    assert dets[..f + 1][..f] == dets[..f];
  }

  lemma NumberSnoc(flat: seq<(nat, RadarObject)>, p: (nat, RadarObject))
    ensures Number(flat + [p])
         == if InFov(p.1.range, p.1.angle)
            then Number(flat) + [((p.0 as int, p.1.classId), p.1.(id := |Number(flat)| + 1))]
            else Number(flat)
  {
    assert (flat + [p])[..|flat|] == flat;
  }

  /** The numbering pass over the frames: `id` runs over the kept objects
      and each is appended to bucket (frame, class). */
  method AssignIds(dets: seq<seq<RadarObject>>, nClass: nat) returns (r: Result<Buckets>)
    ensures r == AssignSpec(dets, nClass)
  {
    var nFrame := |dets|;
    var b := EmptyBuckets(nFrame, nClass);
    var id := 1;
    ghost var t: Keyed := [];
    BucketsOfEmpty(nFrame, nClass);
    var f := 0;
    while f < nFrame
      invariant 0 <= f <= nFrame
      invariant t == Number(Flatten(dets[..f]))
      invariant KeysDense(t, nFrame, nClass)
      invariant id == |t| + 1
      invariant b == BucketsOf(t, nFrame, nClass)
    {
      var objs := dets[f];
      var k := 0;
      assert Flatten(dets[..f]) + Tag(f, objs[..0]) == Flatten(dets[..f]);
      while k < |objs|
        invariant 0 <= k <= |objs|
        invariant t == Number(Flatten(dets[..f]) + Tag(f, objs[..k]))
        invariant KeysDense(t, nFrame, nClass)
        invariant id == |t| + 1
        invariant b == BucketsOf(t, nFrame, nClass)
      {
        var o := objs[k];
        InnerStep(dets, f, k);
        NumberSnoc(Flatten(dets[..f]) + Tag(f, objs[..k]), (f, o));
        if InFov(o.range, o.angle) {
          var key := (f, o.classId);
          var entry := (key, o.(id := id));
          if key !in b {
            EarlyKeyError(dets, f, k, nClass);
            return Err(KeyError);
          }
          assert key in KeySet(nFrame, nClass);
          BucketsOfSnoc(t, entry, nFrame, nClass);
          KeysDenseSnoc(t, entry, nFrame, nClass);
          b := b[key := b[key] + [o.(id := id)]];
          t := t + [entry];
          id := id + 1;
        }
        k := k + 1;
      }
      assert objs[..|objs|] == objs;
      FlattenSnoc(dets, f);
      f := f + 1;
    }
    assert dets[..nFrame] == dets;
    return Ok(b);
  }

  lemma TagAppend(f: nat, a: seq<RadarObject>, b: seq<RadarObject>)
    ensures Tag(f, a + b) == Tag(f, a) + Tag(f, b)
  {
  }

  lemma InnerStep(dets: seq<seq<RadarObject>>, f: nat, k: nat)
    requires f < |dets| && k < |dets[f]|
    ensures Flatten(dets[..f]) + Tag(f, dets[f][..k + 1])
         == (Flatten(dets[..f]) + Tag(f, dets[f][..k])) + [(f, dets[f][k])]
  {
    assert Tag(f, dets[f][..k + 1]) == Tag(f, dets[f][..k]) + [(f, dets[f][k])];
  }

  /** The objects up to and including `dets[f][k]` start the flattening. */
  lemma UptoIsPrefix(dets: seq<seq<RadarObject>>, f: nat, k: nat) returns (rest: seq<(nat, RadarObject)>)
    requires f < |dets| && k < |dets[f]|
    ensures Flatten(dets) == (Flatten(dets[..f]) + Tag(f, dets[f][..k + 1])) + rest
  {
    var objs := dets[f];
    var upto := Flatten(dets[..f]) + Tag(f, objs[..k + 1]);
    var after := Tag(f, objs[k + 1..]);
    assert objs == objs[..k + 1] + objs[k + 1..];
    TagAppend(f, objs[..k + 1], objs[k + 1..]);
    FlattenSnoc(dets, f);
    assert Flatten(dets[..f + 1]) == upto + after;
    FlattenPrefix(dets, f + 1);
    var tail := Flatten(dets)[|Flatten(dets[..f + 1])|..];
    rest := after + tail;
  }

  /** A kept object without a bucket makes the whole numbering fail the
      key test. */
  lemma EarlyKeyError(dets: seq<seq<RadarObject>>, f: nat, k: nat, nClass: nat)
    requires f < |dets| && k < |dets[f]|
    requires InFov(dets[f][k].range, dets[f][k].angle)
    requires (f as int, dets[f][k].classId) !in KeySet(|dets|, nClass)
    ensures !KeysDense(Number(Flatten(dets)), |dets|, nClass)
  {
    var objs := dets[f];
    var before := Flatten(dets[..f]) + Tag(f, objs[..k]);
    var upto := Flatten(dets[..f]) + Tag(f, objs[..k + 1]);
    InnerStep(dets, f, k);
    NumberSnoc(before, (f, objs[k]));
    var n := |Number(upto)|;
    assert Number(upto)[n - 1].0 == (f as int, objs[k].classId);
    var rest := UptoIsPrefix(dets, f, k);
    NumberPrefix(upto, rest);
    assert Number(Flatten(dets))[n - 1] == Number(upto)[n - 1];
  }

  lemma FlattenPrefix(dets: seq<seq<RadarObject>>, f: nat)
    requires f <= |dets|
    ensures |Flatten(dets[..f])| <= |Flatten(dets)|
    ensures Flatten(dets) == Flatten(dets[..f]) + Flatten(dets)[|Flatten(dets[..f])|..]
    ensures Flatten(dets[..f]) == Flatten(dets)[..|Flatten(dets[..f])|]
    decreases |dets| - f
  {
    if f == |dets| {
      assert dets[..f] == dets;
    } else {
      FlattenPrefix(dets, f + 1);
      FlattenSnoc(dets, f);
      var a, b, c := Flatten(dets[..f]), Flatten(dets[..f + 1]), Flatten(dets);
      assert a == b[..|a|];
      assert b[..|a|] == c[..|b|][..|a|] == c[..|a|];
      assert c == c[..|a|] + c[|a|..];
    }
  }

  /** Where slot `f` starts in the flattening: the objects of the earlier
      slots. */
  function Offset(dets: seq<seq<RadarObject>>, f: nat): nat
    requires f <= |dets|
  {
    |Flatten(dets[..f])|
  }

  lemma OffsetStep(dets: seq<seq<RadarObject>>, f: nat)
    requires f < |dets|
    ensures Offset(dets, f + 1) == Offset(dets, f) + |dets[f]|
  {
    FlattenSnoc(dets, f);
  }

  lemma {:induction false} OffsetMonotone(dets: seq<seq<RadarObject>>, f: nat, g: nat)
    requires f <= g <= |dets|
    ensures Offset(dets, f) <= Offset(dets, g)
    decreases g - f
  {
    if f < g {
      OffsetStep(dets, f);
      OffsetMonotone(dets, f + 1, g);
    }
  }

  /** Object k of slot f is entry `Offset(dets, f) + k` of the flattening:
      the flattening is `dets` in (slot, position) order. */
  lemma FlattenAt(dets: seq<seq<RadarObject>>, f: nat, k: nat)
    requires f < |dets| && k < |dets[f]|
    ensures Offset(dets, f) + k < |Flatten(dets)|
    ensures Flatten(dets)[Offset(dets, f) + k] == (f, dets[f][k])
  {
    FlattenSnoc(dets, f);
    FlattenPrefix(dets, f + 1);
    var b := Flatten(dets[..f + 1]);
    assert b[Offset(dets, f) + k] == (f, dets[f][k]);
    assert Flatten(dets)[..|b|][Offset(dets, f) + k] == b[Offset(dets, f) + k];
  }

  /** (slot, position) order is flattening order. */
  lemma FlattenOrder(dets: seq<seq<RadarObject>>, f1: nat, k1: nat, f2: nat, k2: nat)
    requires f1 < |dets| && k1 < |dets[f1]| && f2 < |dets| && k2 < |dets[f2]|
    ensures Offset(dets, f1) + k1 < Offset(dets, f2) + k2 <==> f1 < f2 || (f1 == f2 && k1 < k2)
  {
    if f1 < f2 {
      OffsetStep(dets, f1);
      OffsetMonotone(dets, f1 + 1, f2);
    } else if f2 < f1 {
      OffsetStep(dets, f2);
      OffsetMonotone(dets, f2 + 1, f1);
    }
  }

  /** An in-view entry q of the flattening is numbered after the in-view
      entries before it: it is entry `|Number(flat[..q])|` of the numbering,
      with that count plus one as its id. */
  lemma NumberAt(flat: seq<(nat, RadarObject)>, q: nat)
    requires q < |flat| && InFov(flat[q].1.range, flat[q].1.angle)
    ensures |Number(flat[..q])| < |Number(flat)|
    ensures Number(flat)[|Number(flat[..q])|]
         == ((flat[q].0 as int, flat[q].1.classId), flat[q].1.(id := |Number(flat[..q])| + 1))
  {
    NumberStep(flat, q);
    NumberTake(flat, q + 1);
    ExtendedAt(Number(flat[..q]), Number(flat[..q + 1]), Number(flat),
               ((flat[q].0 as int, flat[q].1.classId), flat[q].1.(id := |Number(flat[..q])| + 1)));
  }

  /** Entry q of the flattening extends the numbering of the entries before it. */
  lemma NumberStep(flat: seq<(nat, RadarObject)>, q: nat)
    requires q < |flat|
    ensures Number(flat[..q + 1])
         == if InFov(flat[q].1.range, flat[q].1.angle)
            then Number(flat[..q]) + [((flat[q].0 as int, flat[q].1.classId), flat[q].1.(id := |Number(flat[..q])| + 1))]
            else Number(flat[..q])
  {
    assert flat[..q + 1][..q] == flat[..q];
  }

  /** The numbering of a prefix is a prefix of the numbering. */
  lemma NumberTake(flat: seq<(nat, RadarObject)>, k: nat)
    requires k <= |flat|
    ensures |Number(flat[..k])| <= |Number(flat)|
    ensures Number(flat[..k]) == Number(flat)[..|Number(flat[..k])|]
  {
    NumberPrefix(flat[..k], flat[k..]);
    assert flat[..k] + flat[k..] == flat;
  }

  /** If b is a with e appended, and b starts c, then e is entry |a| of c. */
  lemma ExtendedAt<T>(a: seq<T>, b: seq<T>, c: seq<T>, e: T)
    requires b == a + [e] && |b| <= |c| && b == c[..|b|]
    ensures |a| < |c| && c[|a|] == e
  {
    assert c[|a|] == c[..|b|][|a|];
  }

  /** An in-view entry before position q' raises the count before q'. */
  lemma NumberCountIncreases(flat: seq<(nat, RadarObject)>, q: nat, q': nat)
    requires q < q' <= |flat| && InFov(flat[q].1.range, flat[q].1.angle)
    ensures |Number(flat[..q])| < |Number(flat[..q'])|
  {
    NumberStep(flat, q);
    NumberTake(flat[..q'], q + 1);
    assert flat[..q'][..q + 1] == flat[..q + 1];
  }

  /** Slot `f` after the first n lines is the start of slot `f` after all. */
  lemma {:induction false} SlotPrefix(lines: seq<TextLine>, cfg: ClassConfig, nFrame: nat, f: nat, n: nat)
    requires n <= |lines|
    ensures |SlotContents(lines[..n], cfg, nFrame, f)| <= |SlotContents(lines, cfg, nFrame, f)|
    ensures SlotContents(lines[..n], cfg, nFrame, f)
         == SlotContents(lines, cfg, nFrame, f)[..|SlotContents(lines[..n], cfg, nFrame, f)|]
    decreases |lines| - n
  {
    if n == |lines| {
      assert lines[..n] == lines;
    } else {
      SlotPrefix(lines, cfg, nFrame, f, n + 1);
      assert lines[..n + 1][..n] == lines[..n];
      var a := SlotContents(lines[..n], cfg, nFrame, f);
      var b := SlotContents(lines[..n + 1], cfg, nFrame, f);
      var c := SlotContents(lines, cfg, nFrame, f);
      assert a == b[..|a|];
      assert b == c[..|b|];
      assert c[..|b|][..|a|] == c[..|a|];
    }
  }

  /** The slot a line's object lands in, and its position there: after the
      earlier lines of the same slot. */
  function SlotOf(lines: seq<TextLine>, cfg: ClassConfig, nFrame: nat, n: nat): (f: nat)
    requires n < |lines| && LineError(lines[n], cfg, nFrame).None?
    ensures f < nFrame
  {
    PyIndex(lines[n].frameId, nFrame).value
  }

  function SlotPos(lines: seq<TextLine>, cfg: ClassConfig, nFrame: nat, n: nat): nat
    requires n < |lines| && LineError(lines[n], cfg, nFrame).None?
  {
    |SlotContents(lines[..n], cfg, nFrame, SlotOf(lines, cfg, nFrame, n))|
  }

  /** One more line appends its object to its own slot. */
  lemma SlotSnoc(lines: seq<TextLine>, cfg: ClassConfig, nFrame: nat, n: nat)
    requires n < |lines| && LineError(lines[n], cfg, nFrame).None?
    ensures SlotContents(lines[..n + 1], cfg, nFrame, SlotOf(lines, cfg, nFrame, n))
         == SlotContents(lines[..n], cfg, nFrame, SlotOf(lines, cfg, nFrame, n)) + [ParseText(lines[n], cfg).value]
  {
    var pre := lines[..n + 1];
    assert pre[..|pre| - 1] == lines[..n];
    assert pre[|pre| - 1] == lines[n];
  }

  /** Every accepted line's object is in its slot, at `SlotPos`. */
  lemma SlotAt(lines: seq<TextLine>, cfg: ClassConfig, nFrame: nat, n: nat)
    requires n < |lines| && LineError(lines[n], cfg, nFrame).None?
    ensures SlotPos(lines, cfg, nFrame, n) < |SlotContents(lines, cfg, nFrame, SlotOf(lines, cfg, nFrame, n))|
    ensures SlotContents(lines, cfg, nFrame, SlotOf(lines, cfg, nFrame, n))[SlotPos(lines, cfg, nFrame, n)]
         == ParseText(lines[n], cfg).value
  {
    var f := SlotOf(lines, cfg, nFrame, n);
    SlotSnoc(lines, cfg, nFrame, n);
    SlotPrefix(lines, cfg, nFrame, f, n + 1);
    var a := SlotContents(lines[..n], cfg, nFrame, f);
    var b := SlotContents(lines[..n + 1], cfg, nFrame, f);
    var c := SlotContents(lines, cfg, nFrame, f);
    assert b == a + [ParseText(lines[n], cfg).value];
    assert |a| < |b| <= |c|;
    assert c[|a|] == c[..|b|][|a|] == b[|a|];
  }

  /** Within a slot, positions follow the file order of the lines. */
  lemma SlotPosOrder(lines: seq<TextLine>, cfg: ClassConfig, nFrame: nat, n1: nat, n2: nat)
    requires n1 < |lines| && LineError(lines[n1], cfg, nFrame).None?
    requires n2 < |lines| && LineError(lines[n2], cfg, nFrame).None?
    requires SlotOf(lines, cfg, nFrame, n1) == SlotOf(lines, cfg, nFrame, n2)
    ensures SlotPos(lines, cfg, nFrame, n1) < SlotPos(lines, cfg, nFrame, n2) <==> n1 < n2
  {
    if n1 < n2 {
      SlotPosBefore(lines, cfg, nFrame, n1, n2);
    } else if n2 < n1 {
      SlotPosBefore(lines, cfg, nFrame, n2, n1);
    }
  }

  lemma SlotPosBefore(lines: seq<TextLine>, cfg: ClassConfig, nFrame: nat, n1: nat, n2: nat)
    requires n1 < n2 < |lines| && LineError(lines[n1], cfg, nFrame).None?
    ensures |SlotContents(lines[..n1], cfg, nFrame, SlotOf(lines, cfg, nFrame, n1))|
          < |SlotContents(lines[..n2], cfg, nFrame, SlotOf(lines, cfg, nFrame, n1))|
  {
    var f := SlotOf(lines, cfg, nFrame, n1);
    SlotSnoc(lines, cfg, nFrame, n1);
    var pre := lines[..n2];
    assert pre[..n1 + 1] == lines[..n1 + 1];
    SlotPrefix(pre, cfg, nFrame, f, n1 + 1);
  }

  /** The flattening position of an accepted line's object. */
  function FlatPos(lines: seq<TextLine>, nFrame: nat, cfg: ClassConfig, n: nat): (q: nat)
    requires n < |lines| && LineError(lines[n], cfg, nFrame).None?
    ensures q < |Flatten(Slots(lines, cfg, nFrame))|
    ensures Flatten(Slots(lines, cfg, nFrame))[q] == (SlotOf(lines, cfg, nFrame, n), ParseText(lines[n], cfg).value)
  {
    var dets := Slots(lines, cfg, nFrame);
    var f := SlotOf(lines, cfg, nFrame, n);
    var k := SlotPos(lines, cfg, nFrame, n);
    SlotAt(lines, cfg, nFrame, n);
    assert dets[f] == SlotContents(lines, cfg, nFrame, f);
    FlattenAt(dets, f, k);
    Offset(dets, f) + k
  }

  /** The id an accepted line's object receives when it is kept: one more
      than the number of kept objects before it in (slot, file) order. */
  function LineId(lines: seq<TextLine>, nFrame: nat, cfg: ClassConfig, n: nat): nat
    requires n < |lines| && LineError(lines[n], cfg, nFrame).None?
  {
    |Number(Flatten(Slots(lines, cfg, nFrame))[..FlatPos(lines, nFrame, cfg, n)])| + 1
  }

  // ---------------------------------------------------------------------
  // The text readers.

  /** `read_gt_txt` / `read_sub_txt`: the first pass, then the second. */
  function ReadTextSpec(lines: seq<TextLine>, nFrame: nat, cfg: ClassConfig): (r: Result<Buckets>)
    ensures r.Err? ==> r.error in {ValueError, IndexError, KeyError}
    ensures FirstError(lines, cfg, nFrame).Some? ==> r == Err(FirstError(lines, cfg, nFrame).value)
  {
    match FirstError(lines, cfg, nFrame)
    case Some(e) => Err(e)
    case None => AssignSpec(Slots(lines, cfg, nFrame), cfg.nClass)
  }

  /** The kept objects of a successful read, in numbering order. */
  function Kept(lines: seq<TextLine>, nFrame: nat, cfg: ClassConfig): Keyed
  {
    Number(Flatten(Slots(lines, cfg, nFrame)))
  }

  function GtTexts(lines: seq<GtLine>): (r: seq<TextLine>)
    ensures |r| == |lines| && forall i :: 0 <= i < |lines| ==> r[i] == GtAsText(lines[i])
  {
    seq(|lines|, i requires 0 <= i < |lines| => GtAsText(lines[i]))
  }

  function SubTexts(lines: seq<SubLine>): (r: seq<TextLine>)
    ensures |r| == |lines| && forall i :: 0 <= i < |lines| ==> r[i] == SubAsText(lines[i])
  {
    seq(|lines|, i requires 0 <= i < |lines| => SubAsText(lines[i]))
  }

  method ReadText(lines: seq<TextLine>, nFrame: nat, cfg: ClassConfig) returns (r: Result<Buckets>)
    ensures r == ReadTextSpec(lines, nFrame, cfg)
  {
    var grouped := GroupByFrame(lines, cfg, nFrame);
    if grouped.Err? {
      return Err(grouped.error);
    }
    r := AssignIds(grouped.value, cfg.nClass);
  }

  /** `read_gt_txt(txt_path, n_frame, dataset)` on the file's lines. */
  method ReadGtTxt(lines: seq<GtLine>, nFrame: nat, cfg: ClassConfig) returns (r: Result<Buckets>)
    ensures r == ReadTextSpec(GtTexts(lines), nFrame, cfg)
  {
    r := ReadText(GtTexts(lines), nFrame, cfg);
  }

  /** `read_sub_txt(txt_path, n_frame, dataset)` on the file's lines. */
  method ReadSubTxt(lines: seq<SubLine>, nFrame: nat, cfg: ClassConfig) returns (r: Result<Buckets>)
    ensures r == ReadTextSpec(SubTexts(lines), nFrame, cfg)
  {
    r := ReadText(SubTexts(lines), nFrame, cfg);
  }

  /** A successful read has one bucket per (frame, class), and the buckets
      hold exactly the kept objects, in numbering order. */
  lemma TextReadBuckets(lines: seq<TextLine>, nFrame: nat, cfg: ClassConfig)
    requires ReadTextSpec(lines, nFrame, cfg).Ok?
    ensures DenseKeys(ReadTextSpec(lines, nFrame, cfg).value, nFrame, cfg.nClass)
    ensures ReadTextSpec(lines, nFrame, cfg).value == BucketsOf(Kept(lines, nFrame, cfg), nFrame, cfg.nClass)
    ensures KeysDense(Kept(lines, nFrame, cfg), nFrame, cfg.nClass)
  {
  }

  /** Where a numbered entry comes from: an object of one slot. */
  lemma KeptEntry(dets: seq<seq<RadarObject>>, i: nat) returns (f: nat, p: RadarObject)
    requires i < |Number(Flatten(dets))|
    ensures f < |dets| && p in dets[f]
    ensures Number(Flatten(dets))[i] == ((f as int, p.classId), p.(id := i + 1))
  {
    var flat := Flatten(dets);
    var j :| 0 <= j < |flat| && Number(flat)[i].0 == (flat[j].0 as int, flat[j].1.classId)
      && Number(flat)[i].1 == flat[j].1.(id := i + 1);
    f, p := flat[j].0, flat[j].1;
  }

  /** Where an object of a slot comes from: a line whose frame id indexes
      that slot. */
  lemma SlotEntry(lines: seq<TextLine>, cfg: ClassConfig, nFrame: nat, f: nat, p: RadarObject) returns (n: nat)
    requires f < nFrame && p in Slots(lines, cfg, nFrame)[f]
    ensures n < |lines| && LineError(lines[n], cfg, nFrame).None?
    ensures PyIndex(lines[n].frameId, nFrame) == Some(f) && ParseText(lines[n], cfg) == Ok(p)
  {
    assert p in SlotContents(lines, cfg, nFrame, f);
    n :| 0 <= n < |lines| && LineError(lines[n], cfg, nFrame).None?
      && PyIndex(lines[n].frameId, nFrame) == Some(f) && ParseText(lines[n], cfg) == Ok(p);
  }

  /** A kept object traced back to its line. */
  lemma KeptLine(lines: seq<TextLine>, nFrame: nat, cfg: ClassConfig, i: nat) returns (n: nat)
    requires i < |Kept(lines, nFrame, cfg)|
    ensures n < |lines| && lines[n].className in cfg.classes
    ensures var e := Kept(lines, nFrame, cfg)[i];
            && PyIndex(lines[n].frameId, nFrame) == Some(e.0.0)
            && e.0.1 == e.1.classId
            && ParseText(lines[n], cfg) == Ok(e.1.(id := 0))
  {
    var f, p := KeptEntry(Slots(lines, cfg, nFrame), i);
    n := SlotEntry(lines, cfg, nFrame, f, p);
  }

  /** The read fails with KeyError exactly when some kept object's class id
      is not below `n_class`. */
  lemma TextReadKeyError(lines: seq<TextLine>, nFrame: nat, cfg: ClassConfig)
    requires FirstError(lines, cfg, nFrame).None?
    ensures ReadTextSpec(lines, nFrame, cfg) == Err(KeyError)
        <==> exists i :: 0 <= i < |Kept(lines, nFrame, cfg)| && !(Kept(lines, nFrame, cfg)[i].1.classId < cfg.nClass)
  {
    var t := Kept(lines, nFrame, cfg);
    forall i | 0 <= i < |t|
      ensures t[i].0 in KeySet(nFrame, cfg.nClass) <==> t[i].1.classId < cfg.nClass
    {
      var n := KeptLine(lines, nFrame, cfg, i);
    }
  }

  /** Every stored object lies in the field of view, sits in the bucket of
      its slot and of `classes.index` of its class name, and is the object
      of one of the lines (only its id is new). */
  lemma TextReadProvenance(lines: seq<TextLine>, nFrame: nat, cfg: ClassConfig, k: (int, int), o: RadarObject)
      returns (n: nat)
    requires ReadTextSpec(lines, nFrame, cfg).Ok?
    requires k in ReadTextSpec(lines, nFrame, cfg).value && o in ReadTextSpec(lines, nFrame, cfg).value[k]
    ensures 1.0 <= o.range <= 25.0 && -Radians(60.0) <= o.angle <= Radians(60.0)
    ensures o.className.Some?
    ensures k.1 == o.classId == IndexOf(cfg.classes, o.className.value).value
    ensures n < |lines| && PyIndex(lines[n].frameId, nFrame) == Some(k.0)
    ensures ParseText(lines[n], cfg) == Ok(o.(id := 0))
  {
    var t := Kept(lines, nFrame, cfg);
    assert o in Select(t, k);
    var i :| 0 <= i < |t| && t[i] == (k, o);
    n := KeptLine(lines, nFrame, cfg, i);
    assert o.(id := 0) == t[i].1.(id := 0);
  }

  /** Conversely, a successful read accepted every line, and each line in
      the field of view is stored, with id `LineId`, in the bucket of its
      slot and of `classes.index` of its class name. */
  lemma TextReadComplete(lines: seq<TextLine>, nFrame: nat, cfg: ClassConfig, n: nat)
    requires ReadTextSpec(lines, nFrame, cfg).Ok?
    requires n < |lines| && InFov(lines[n].range, lines[n].angle)
    ensures LineError(lines[n], cfg, nFrame).None?
    ensures var b := ReadTextSpec(lines, nFrame, cfg).value;
            var k := (SlotOf(lines, cfg, nFrame, n) as int, IndexOf(cfg.classes, lines[n].className).value);
            k in b && ParseText(lines[n], cfg).value.(id := LineId(lines, nFrame, cfg, n)) in b[k]
  {
    var flat := Flatten(Slots(lines, cfg, nFrame));
    var q := FlatPos(lines, nFrame, cfg, n);
    NumberAt(flat, q);
    TextReadBuckets(lines, nFrame, cfg);
    BucketsHoldEntries(Kept(lines, nFrame, cfg), nFrame, cfg.nClass);
    var i := |Number(flat[..q])|;
    assert Kept(lines, nFrame, cfg)[i].1 == ParseText(lines[n], cfg).value.(id := LineId(lines, nFrame, cfg, n));
  }

  /** Ids follow (slot, file) order: of two kept lines, the one in the
      earlier slot, or in the same slot and earlier in the file, has the
      smaller id; so distinct kept lines get distinct ids. */
  lemma TextReadOrder(lines: seq<TextLine>, nFrame: nat, cfg: ClassConfig, n1: nat, n2: nat)
    requires ReadTextSpec(lines, nFrame, cfg).Ok?
    requires n1 < |lines| && InFov(lines[n1].range, lines[n1].angle)
    requires n2 < |lines| && InFov(lines[n2].range, lines[n2].angle)
    ensures LineId(lines, nFrame, cfg, n1) < LineId(lines, nFrame, cfg, n2) <==>
      (SlotOf(lines, cfg, nFrame, n1) < SlotOf(lines, cfg, nFrame, n2) ||
       (SlotOf(lines, cfg, nFrame, n1) == SlotOf(lines, cfg, nFrame, n2) && n1 < n2))
    ensures n1 != n2 ==> LineId(lines, nFrame, cfg, n1) != LineId(lines, nFrame, cfg, n2)
  {
    var dets := Slots(lines, cfg, nFrame);
    var f1, f2 := SlotOf(lines, cfg, nFrame, n1), SlotOf(lines, cfg, nFrame, n2);
    var k1, k2 := SlotPos(lines, cfg, nFrame, n1), SlotPos(lines, cfg, nFrame, n2);
    var q1, q2 := FlatPos(lines, nFrame, cfg, n1), FlatPos(lines, nFrame, cfg, n2);
    assert q1 == Offset(dets, f1) + k1 && q2 == Offset(dets, f2) + k2;
    SlotAt(lines, cfg, nFrame, n1);
    SlotAt(lines, cfg, nFrame, n2);
    assert dets[f1] == SlotContents(lines, cfg, nFrame, f1) && dets[f2] == SlotContents(lines, cfg, nFrame, f2);
    FlattenOrder(dets, f1, k1, f2, k2);
    FlattenOrder(dets, f2, k2, f1, k1);
    if f1 == f2 {
      SlotPosOrder(lines, cfg, nFrame, n1, n2);
      SlotPosOrder(lines, cfg, nFrame, n2, n1);
    }
    NumberedOrder(Flatten(dets), q1, q2);
    NumberedOrder(Flatten(dets), q2, q1);
  }

  /** Of two in-view entries of the flattening, the earlier one is numbered
      first. */
  lemma NumberedOrder(flat: seq<(nat, RadarObject)>, q1: nat, q2: nat)
    requires q1 < |flat| && InFov(flat[q1].1.range, flat[q1].1.angle)
    requires q2 < |flat| && InFov(flat[q2].1.range, flat[q2].1.angle)
    ensures |Number(flat[..q1])| < |Number(flat[..q2])| <==> q1 < q2
  {
    if q1 < q2 {
      NumberCountIncreases(flat, q1, q2);
    } else if q2 < q1 {
      NumberCountIncreases(flat, q2, q1);
    }
  }

  /** Ids are 1, 2, ..., K over the kept objects, the i-th kept object is
      stored in its bucket, each id is stored exactly once in the whole map,
      and ids increase along every bucket. */
  lemma TextReadIds(lines: seq<TextLine>, nFrame: nat, cfg: ClassConfig)
    requires ReadTextSpec(lines, nFrame, cfg).Ok?
    ensures var b := ReadTextSpec(lines, nFrame, cfg).value;
            var t := Kept(lines, nFrame, cfg);
            && (forall i :: 0 <= i < |t| ==> t[i].1.id == i + 1 && t[i].0 in b && t[i].1 in b[t[i].0])
            && (forall k, o :: k in b && o in b[k] ==> 1 <= o.id <= |t|)
            && (forall k1, o1, k2, o2 :: k1 in b && o1 in b[k1] && k2 in b && o2 in b[k2] && o1.id == o2.id
                  ==> k1 == k2 && o1 == o2)
            && (forall k :: k in b ==> forall i, j :: 0 <= i < j < |b[k]| ==> b[k][i].id < b[k][j].id)
  {
    var t := Kept(lines, nFrame, cfg);
    TextReadBuckets(lines, nFrame, cfg);
    BucketsHoldEntries(t, nFrame, cfg.nClass);
    BucketsIdsUnique(t, nFrame, cfg.nClass);
    BucketsIdsIncrease(t, nFrame, cfg.nClass);
  }

  /** Every entry is stored in its bucket, and only entries are. */
  lemma BucketsHoldEntries(t: Keyed, nFrame: nat, nClass: nat)
    requires KeysDense(t, nFrame, nClass)
    ensures var b := BucketsOf(t, nFrame, nClass);
            && (forall i :: 0 <= i < |t| ==> t[i].0 in b && t[i].1 in b[t[i].0])
            && (forall k, o :: k in b && o in b[k] ==> (k, o) in t)
  {
    var b: Buckets := BucketsOf(t, nFrame, nClass);
    forall i | 0 <= i < |t| ensures t[i].0 in b && t[i].1 in b[t[i].0] {
      SelectComplete(t, i);
    }
    forall k: (int, int), o: RadarObject | k in b && o in b[k] ensures (k, o) in t {
      assert o in Select(t, k);
    }
  }

  /** With entries numbered by position, an id names one stored object. */
  lemma BucketsIdsUnique(t: Keyed, nFrame: nat, nClass: nat)
    requires forall i :: 0 <= i < |t| ==> t[i].1.id == i + 1
    ensures var b := BucketsOf(t, nFrame, nClass);
            forall k1, o1, k2, o2 :: k1 in b && o1 in b[k1] && k2 in b && o2 in b[k2] && o1.id == o2.id
              ==> k1 == k2 && o1 == o2
  {
    var b: Buckets := BucketsOf(t, nFrame, nClass);
    forall k1: (int, int), o1: RadarObject, k2: (int, int), o2: RadarObject
      | k1 in b && o1 in b[k1] && k2 in b && o2 in b[k2] && o1.id == o2.id
      ensures k1 == k2 && o1 == o2
    {
      assert o1 in Select(t, k1) && o2 in Select(t, k2);
      var i1 :| 0 <= i1 < |t| && t[i1] == (k1, o1);
      var i2 :| 0 <= i2 < |t| && t[i2] == (k2, o2);
    }
  }

  /** With entries numbered by position, ids increase along each bucket. */
  lemma BucketsIdsIncrease(t: Keyed, nFrame: nat, nClass: nat)
    requires forall i :: 0 <= i < |t| ==> t[i].1.id == i + 1
    ensures var b := BucketsOf(t, nFrame, nClass);
            && (forall k, o :: k in b && o in b[k] ==> 1 <= o.id <= |t|)
            && (forall k :: k in b ==> forall i, j :: 0 <= i < j < |b[k]| ==> b[k][i].id < b[k][j].id)
  {
    var b: Buckets := BucketsOf(t, nFrame, nClass);
    forall k: (int, int) | k in b
      ensures forall o :: o in b[k] ==> 1 <= o.id <= |t|
      ensures forall i: int, j: int :: 0 <= i < j < |b[k]| ==> b[k][i].id < b[k][j].id
    {
      SelectIncreasing(t, k);
    }
  }

  /** Along a bucket, entries keep the order of `t`: with ids numbered by
      position, the ids increase. */
  lemma {:induction false} SelectIncreasing(t: Keyed, k: (int, int))
    requires forall i :: 0 <= i < |t| ==> t[i].1.id == i + 1
    ensures forall o :: o in Select(t, k) ==> 1 <= o.id <= |t|
    ensures forall i, j :: 0 <= i < j < |Select(t, k)| ==> Select(t, k)[i].id < Select(t, k)[j].id
    decreases |t|
  {
    if |t| > 0 {
      var prefix := t[..|t| - 1];
      SelectIncreasing(prefix, k);
      forall o | o in Select(t, k) ensures 1 <= o.id <= |t| {
        var i :| 0 <= i < |t| && t[i] == (k, o);
      }
    }
  }

  /** Every ground-truth object is scored 1.0. */
  lemma GtScoreIsOne(lines: seq<GtLine>, nFrame: nat, cfg: ClassConfig, k: (int, int), o: RadarObject)
    requires ReadTextSpec(GtTexts(lines), nFrame, cfg).Ok?
    requires k in ReadTextSpec(GtTexts(lines), nFrame, cfg).value && o in ReadTextSpec(GtTexts(lines), nFrame, cfg).value[k]
    ensures o.score == 1.0
  {
    var n := TextReadProvenance(GtTexts(lines), nFrame, cfg, k, o);
  }

  /** A submission object keeps the score of its line, unclamped. */
  lemma SubScoreIsLineScore(lines: seq<SubLine>, nFrame: nat, cfg: ClassConfig, k: (int, int), o: RadarObject)
    requires ReadTextSpec(SubTexts(lines), nFrame, cfg).Ok?
    requires k in ReadTextSpec(SubTexts(lines), nFrame, cfg).value && o in ReadTextSpec(SubTexts(lines), nFrame, cfg).value[k]
    ensures exists i :: (0 <= i < |lines| && o.score == lines[i].score && o.range == lines[i].range
      && o.angle == lines[i].angle && PyIndex(lines[i].frameId, nFrame) == Some(k.0))
  {
    var n := TextReadProvenance(SubTexts(lines), nFrame, cfg, k, o);
  }

  // ---------------------------------------------------------------------
  // The network-output reader.

  datatype Outcome = Drop | Keep(key: (int, int), obj: RadarObject)

  /** Line `index` (0-based) of the network output: the class lookup, the
      confidence clamp, the grid lookups (IndexError) and the field-of-view
      filter. */
  function RodnetOutcome(l: RodnetLine, index: nat, rangeGrid: seq<real>, angleGrid: seq<real>, classOf: string -> int): (r: Result<Outcome>)
    ensures r.Err? <==> PyGet(rangeGrid, l.rangeBin).Err? || PyGet(angleGrid, l.angleBin).Err?
    ensures r.Err? ==> r.error == IndexError
    ensures r.Ok? ==> (r.value.Keep? <==> InFov(PyGet(rangeGrid, l.rangeBin).value, PyGet(angleGrid, l.angleBin).value))
    ensures r.Ok? && r.value.Keep? ==>
      && r.value.key == (l.frameId, classOf(l.classStr))
      && r.value.obj.id == index + 1
      && r.value.obj.frameId == l.frameId
      && r.value.obj.classId == classOf(l.classStr)
      && r.value.obj.range == PyGet(rangeGrid, l.rangeBin).value
      && r.value.obj.angle == PyGet(angleGrid, l.angleBin).value
      && r.value.obj.score == (if l.conf > 1.0 then 1.0 else l.conf)
      && r.value.obj.bins == Some((l.rangeBin, l.angleBin))
  {
    var classId := classOf(l.classStr);
    var conf := if l.conf > 1.0 then 1.0 else l.conf;
    match PyGet(rangeGrid, l.rangeBin)
    case Err(e) => Err(e)
    case Ok(rng) =>
      match PyGet(angleGrid, l.angleBin)
      case Err(e) => Err(e)
      case Ok(agl) =>
        if !InFov(rng, agl) then Ok(Drop)
        else Ok(Keep((l.frameId, classId),
                     RadarObject(index + 1, l.frameId, rng, agl, None, classId, conf, Some((l.rangeBin, l.angleBin)))))
  }

  /** The appended entries after the lines of `lines`, or the exception of
      the first line that raises: an index error of a grid lookup, or a
      KeyError for a kept line whose (frame, class) is not a bucket. */
  function RodnetEntries(lines: seq<RodnetLine>, rangeGrid: seq<real>, angleGrid: seq<real>, classOf: string -> int,
                         nFrame: nat, nClass: nat): (r: Result<Keyed>)
    ensures r.Err? ==> r.error in {IndexError, KeyError}
    ensures r.Ok? ==> KeysDense(r.value, nFrame, nClass)
    ensures r.Ok? ==> forall i :: 0 <= i < |r.value| ==>
      && 1 <= r.value[i].1.id <= |lines|
      && RodnetOutcome(lines[r.value[i].1.id - 1], r.value[i].1.id - 1, rangeGrid, angleGrid, classOf)
         == Ok(Keep(r.value[i].0, r.value[i].1))
    ensures r.Ok? ==> forall i, j :: 0 <= i < j < |r.value| ==> r.value[i].1.id < r.value[j].1.id
  {
    if |lines| == 0 then Ok([])
    else
      var n := |lines| - 1;
      var prefix := lines[..n];
      assert forall i :: 0 <= i < n ==> prefix[i] == lines[i];
      match RodnetEntries(prefix, rangeGrid, angleGrid, classOf, nFrame, nClass)
      case Err(e) => Err(e)
      case Ok(t) =>
        match RodnetOutcome(lines[n], n, rangeGrid, angleGrid, classOf)
        case Err(e) => Err(e)
        case Ok(Drop) => Ok(t)
        case Ok(Keep(key, obj)) =>
          if key in KeySet(nFrame, nClass) then Ok(t + [(key, obj)]) else Err(KeyError)
  }

  lemma {:induction false} RodnetErrorPrefix(lines: seq<RodnetLine>, i: nat, rangeGrid: seq<real>, angleGrid: seq<real>,
                                             classOf: string -> int, nFrame: nat, nClass: nat)
    requires i <= |lines|
    requires RodnetEntries(lines[..i], rangeGrid, angleGrid, classOf, nFrame, nClass).Err?
    ensures RodnetEntries(lines, rangeGrid, angleGrid, classOf, nFrame, nClass)
         == RodnetEntries(lines[..i], rangeGrid, angleGrid, classOf, nFrame, nClass)
    decreases |lines| - i
  {
    if i < |lines| {
      assert lines[..i + 1][..i] == lines[..i];
      RodnetErrorPrefix(lines, i + 1, rangeGrid, angleGrid, classOf, nFrame, nClass);
    } else {
      assert lines[..i] == lines;
    }
  }

  /** Conversely, a successful pass met no grid error on any line, and every
      line whose outcome is Keep appended its entry. */
  lemma RodnetEntriesComplete(lines: seq<RodnetLine>, rangeGrid: seq<real>, angleGrid: seq<real>,
                              classOf: string -> int, nFrame: nat, nClass: nat)
    requires RodnetEntries(lines, rangeGrid, angleGrid, classOf, nFrame, nClass).Ok?
    ensures forall n :: 0 <= n < |lines| ==> RodnetOutcome(lines[n], n, rangeGrid, angleGrid, classOf).Ok?
    ensures forall n :: (0 <= n < |lines| && RodnetOutcome(lines[n], n, rangeGrid, angleGrid, classOf).Ok? &&
                         RodnetOutcome(lines[n], n, rangeGrid, angleGrid, classOf).value.Keep?) ==>
        (RodnetOutcome(lines[n], n, rangeGrid, angleGrid, classOf).value.key,
         RodnetOutcome(lines[n], n, rangeGrid, angleGrid, classOf).value.obj)
        in RodnetEntries(lines, rangeGrid, angleGrid, classOf, nFrame, nClass).value
  {
    forall n | 0 <= n < |lines|
      ensures RodnetOutcome(lines[n], n, rangeGrid, angleGrid, classOf).Ok?
      ensures RodnetOutcome(lines[n], n, rangeGrid, angleGrid, classOf).value.Keep? ==>
        (RodnetOutcome(lines[n], n, rangeGrid, angleGrid, classOf).value.key,
         RodnetOutcome(lines[n], n, rangeGrid, angleGrid, classOf).value.obj)
        in RodnetEntries(lines, rangeGrid, angleGrid, classOf, nFrame, nClass).value
    {
      RodnetLineStored(lines, n, rangeGrid, angleGrid, classOf, nFrame, nClass);
    }
  }

  /** One line of a successful pass: its outcome is Ok, and its entry is
      among the pass's entries when the outcome is Keep. */
  lemma {:induction false} RodnetLineStored(lines: seq<RodnetLine>, n: nat, rangeGrid: seq<real>, angleGrid: seq<real>,
                                            classOf: string -> int, nFrame: nat, nClass: nat)
    requires n < |lines|
    requires RodnetEntries(lines, rangeGrid, angleGrid, classOf, nFrame, nClass).Ok?
    ensures var o := RodnetOutcome(lines[n], n, rangeGrid, angleGrid, classOf);
      o.Ok? && (o.value.Keep? ==> (o.value.key, o.value.obj) in RodnetEntries(lines, rangeGrid, angleGrid, classOf, nFrame, nClass).value)
    decreases |lines|
  {
    var last := |lines| - 1;
    RodnetEntriesStep(lines, rangeGrid, angleGrid, classOf, nFrame, nClass);
    if n < last {
      var prefix := lines[..last];
      assert prefix[n] == lines[n];
      RodnetLineStored(prefix, n, rangeGrid, angleGrid, classOf, nFrame, nClass);
      var o := RodnetOutcome(prefix[n], n, rangeGrid, angleGrid, classOf);
      if o.value.Keep? {
        var e := (o.value.key, o.value.obj);
        assert e in RodnetEntries(prefix, rangeGrid, angleGrid, classOf, nFrame, nClass).value;
      }
    }
  }

  /** One step of `RodnetEntries`: a successful pass extends the successful
      pass over all but the last line, and the last line's outcome is Ok and
      appended when it is Keep. */
  lemma RodnetEntriesStep(lines: seq<RodnetLine>, rangeGrid: seq<real>, angleGrid: seq<real>,
                          classOf: string -> int, nFrame: nat, nClass: nat)
    requires |lines| > 0
    requires RodnetEntries(lines, rangeGrid, angleGrid, classOf, nFrame, nClass).Ok?
    ensures var n := |lines| - 1;
      var t := RodnetEntries(lines, rangeGrid, angleGrid, classOf, nFrame, nClass).value;
      var o := RodnetOutcome(lines[n], n, rangeGrid, angleGrid, classOf);
      && RodnetEntries(lines[..n], rangeGrid, angleGrid, classOf, nFrame, nClass).Ok?
      && (forall e :: e in RodnetEntries(lines[..n], rangeGrid, angleGrid, classOf, nFrame, nClass).value ==> e in t)
      && o.Ok?
      && (o.value.Keep? ==> (o.value.key, o.value.obj) in t)
  {
  }

  /** The ids of a successful pass are exactly the 1-based numbers of the
      lines whose outcome is Keep: a dropped line still uses up its number. */
  lemma RodnetIdsAreKeptLines(lines: seq<RodnetLine>, rangeGrid: seq<real>, angleGrid: seq<real>,
                              classOf: string -> int, nFrame: nat, nClass: nat)
    requires RodnetEntries(lines, rangeGrid, angleGrid, classOf, nFrame, nClass).Ok?
    ensures var t := RodnetEntries(lines, rangeGrid, angleGrid, classOf, nFrame, nClass).value;
      forall n :: 0 <= n < |lines| ==>
        (RodnetOutcome(lines[n], n, rangeGrid, angleGrid, classOf).Ok? &&
         RodnetOutcome(lines[n], n, rangeGrid, angleGrid, classOf).value.Keep?
         <==> exists i :: 0 <= i < |t| && t[i].1.id == n + 1)
  {
    RodnetEntriesComplete(lines, rangeGrid, angleGrid, classOf, nFrame, nClass);
  }

  /** Every kept line's object is stored in the bucket of its (frame, class)
      key of the map `read_rodnet_res` returns. */
  lemma RodnetReadComplete(lines: seq<RodnetLine>, nFrame: nat, cfg: ClassConfig, rangeGrid: seq<real>,
                           angleGrid: seq<real>, classOf: string -> int, n: nat)
    requires RodnetEntries(lines, rangeGrid, angleGrid, classOf, nFrame, cfg.nClass).Ok?
    requires n < |lines| && RodnetOutcome(lines[n], n, rangeGrid, angleGrid, classOf).Ok?
    requires RodnetOutcome(lines[n], n, rangeGrid, angleGrid, classOf).value.Keep?
    ensures var o := RodnetOutcome(lines[n], n, rangeGrid, angleGrid, classOf).value;
            var b := BucketsOf(RodnetEntries(lines, rangeGrid, angleGrid, classOf, nFrame, cfg.nClass).value, nFrame, cfg.nClass);
            o.key in b && o.obj in b[o.key]
  {
    var t := RodnetEntries(lines, rangeGrid, angleGrid, classOf, nFrame, cfg.nClass).value;
    RodnetEntriesComplete(lines, rangeGrid, angleGrid, classOf, nFrame, cfg.nClass);
    BucketsHoldEntries(t, nFrame, cfg.nClass);
    var o := RodnetOutcome(lines[n], n, rangeGrid, angleGrid, classOf).value;
    var i :| 0 <= i < |t| && t[i] == (o.key, o.obj);
  }

  /** `read_rodnet_res(filename, n_frame, dataset)` on the file's lines:
      None for an empty file, the bucket map otherwise. */
  method ReadRodnetRes(lines: seq<RodnetLine>, nFrame: nat, cfg: ClassConfig, rangeGrid: seq<real>,
                       angleGrid: seq<real>, classOf: string -> int) returns (r: Result<Option<Buckets>>)
    ensures |lines| == 0 ==> r == Ok(None)
    ensures |lines| > 0 ==>
      r == match RodnetEntries(lines, rangeGrid, angleGrid, classOf, nFrame, cfg.nClass)
           case Err(e) => Err(e)
           case Ok(t) => Ok(Some(BucketsOf(t, nFrame, cfg.nClass)))
  {
    if |lines| == 0 {
      return Ok(None);
    }
    var b := EmptyBuckets(nFrame, cfg.nClass);
    ghost var t: Keyed := [];
    BucketsOfEmpty(nFrame, cfg.nClass);
    for i := 0 to |lines|
      invariant RodnetEntries(lines[..i], rangeGrid, angleGrid, classOf, nFrame, cfg.nClass) == Ok(t)
      invariant b == BucketsOf(t, nFrame, cfg.nClass)
    {
      var l := lines[i];
      assert lines[..i + 1][..i] == lines[..i];
      assert lines[..i + 1][i] == l;
      var classId := classOf(l.classStr);
      var conf := l.conf;
      if conf > 1.0 {
        conf := 1.0;
      }
      var rng := PyGet(rangeGrid, l.rangeBin);
      if rng.Err? {
        RodnetErrorPrefix(lines, i + 1, rangeGrid, angleGrid, classOf, nFrame, cfg.nClass);
        return Err(rng.error);
      }
      var agl := PyGet(angleGrid, l.angleBin);
      if agl.Err? {
        RodnetErrorPrefix(lines, i + 1, rangeGrid, angleGrid, classOf, nFrame, cfg.nClass);
        return Err(agl.error);
      }
      if !InFov(rng.value, agl.value) {
        continue;
      }
      var obj := RadarObject(i + 1, l.frameId, rng.value, agl.value, None, classId, conf, Some((l.rangeBin, l.angleBin)));
      var key := (l.frameId, classId);
      if key !in b {
        RodnetErrorPrefix(lines, i + 1, rangeGrid, angleGrid, classOf, nFrame, cfg.nClass);
        return Err(KeyError);
      }
      BucketsOfSnoc(t, (key, obj), nFrame, cfg.nClass);
      b := b[key := b[key] + [obj]];
      t := t + [(key, obj)];
    }
    assert lines[..|lines|] == lines;
    return Ok(Some(b));
  }

  /** An illustration of `RodnetIdsAreKeptLines`: a line dropped by the
      filter still uses up its line number, so a dropped first line followed
      by one in view gives that object id 2. */
  lemma RodnetIdsSkipDroppedLines(classOf: string -> int)
    requires classOf("car") == 0
    ensures RodnetEntries([RodnetLine(0, "car", 0, 0, 0.5), RodnetLine(0, "car", 1, 0, 0.5)], [0.5, 10.0], [0.0],
                          classOf, 1, 1)
         == Ok([((0, 0), RadarObject(2, 0, 10.0, 0.0, None, 0, 0.5, Some((1, 0))))])
  {
    var lines := [RodnetLine(0, "car", 0, 0, 0.5), RodnetLine(0, "car", 1, 0, 0.5)];
    var rg := [0.5, 10.0];
    var ag := [0.0];
    assert PyIndex(0, 2) == Some(0) && PyIndex(1, 2) == Some(1) && PyIndex(0, 1) == Some(0);
    assert !InFov(0.5, 0.0);
    assert InFov(10.0, 0.0) by {
      assert Radians(60.0) > 0.0 && Radians(-60.0) < 0.0;
    }
    assert RodnetOutcome(lines[0], 0, rg, ag, classOf) == Ok(Drop);
    assert RodnetOutcome(lines[1], 1, rg, ag, classOf)
        == Ok(Keep((0, 0), RadarObject(2, 0, 10.0, 0.0, None, 0, 0.5, Some((1, 0)))));
    assert lines[..1] == [lines[0]];
    assert [lines[0]][..0] == [];
    assert RodnetEntries(lines[..1], rg, ag, classOf, 1, 1) == Ok([]);
    assert (0, 0) in KeySet(1, 1);
    var e := ((0, 0), RadarObject(2, 0, 10.0, 0.0, None, 0, 0.5, Some((1, 0))));
    assert |lines| - 1 == 1 && lines[1] == lines[|lines| - 1];
    assert RodnetEntries(lines, rg, ag, classOf, 1, 1) == Ok([] + [e]);
    assert [] + [e] == [e];
    assert RodnetEntries(lines, rg, ag, classOf, 1, 1) == Ok([e]);
  }
}
