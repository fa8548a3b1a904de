/** The records that flow through the evaluation: detected or annotated
    objects, the object configuration they are classified against, and the
    (frame, class) bucket map the readers produce. */
module Objects {
  import opened Wrappers

  /** One ground-truth or detected object of a frame. `className` is set by
      the text readers, `bins` (range and angle bin) by the network-output
      reader. Ground truth carries score 1.0. */
  datatype RadarObject = RadarObject(
    id: int,
    frameId: int,
    range: real,
    angle: real,
    className: Option<string>,
    classId: int,
    score: real,
    bins: Option<(int, int)>)

  /** `dataset.object_cfg` as the evaluation reads it: the class count, the
      class names (class id = list index) and the per-class size prior
      (stored x100). */
  datatype ClassConfig = ClassConfig(nClass: nat, classes: seq<string>, sizes: map<string, real>)

  /** The dictionary keyed by (frame id, class id). */
  type Buckets = map<(int, int), seq<RadarObject>>

  /** Every (frame < nFrame, class < nClass) pair is a key, and nothing else. */
  ghost predicate DenseKeys(b: Buckets, nFrame: nat, nClass: nat)
  {
    forall f: int, c: int :: (f, c) in b <==> 0 <= f < nFrame && 0 <= c < nClass
  }

  function KeySet(nFrame: nat, nClass: nat): (s: set<(int, int)>)
    ensures forall f: int, c: int :: (f, c) in s <==> 0 <= f < nFrame && 0 <= c < nClass
  {
    set f: int, c: int | 0 <= f < nFrame && 0 <= c < nClass :: (f, c)
  }

  /** The bucket map with every key bound to an empty list. */
  function EmptyBuckets(nFrame: nat, nClass: nat): (b: Buckets)
    ensures DenseKeys(b, nFrame, nClass)
    ensures forall k :: k in b ==> b[k] == []
  {
    map k | k in KeySet(nFrame, nClass) :: []
  }
}
