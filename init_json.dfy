/** The annotation skeletons: per-sensor templates, the per-frame metadata
    list built by a loop over frames and sensors, and the sequence-level
    annotation dictionary. */
module InitJson {
  import opened Wrappers
  import opened Json

  /** `FOLDER_NAME_DICT`: sensor key to image folder, in insertion order. */
  const FolderNameDict: seq<(string, Json)> :=
    [("cam_0", JStr("IMAGES_0")), ("cam_1", JStr("IMAGES_1")), ("rad_h", JStr("RADAR_RA_H"))]

  /** The defaults of `init_meta_json`. */
  const ImWidth: int := 1440
  const ImHeight: int := 864
  const RaRange: int := 128
  const RaAzimuth: int := 128
  const NChirps: int := 255

  /** The sensor sizes `init_meta_json` passes on to the templates. */
  datatype Sizes = Sizes(imwidth: Json, imheight: Json, rarange: Json, raazimuth: Json, nChirps: Json)

  const DefaultSizes: Sizes := Sizes(JInt(ImWidth), JInt(ImHeight), JInt(RaRange), JInt(RaAzimuth), JInt(NChirps))

  /** `init_camera_json`. */
  function CameraJson(folderName: Json, width: Json, height: Json): Json
  {
    JObj(map["folder_name" := folderName, "frame_name" := JNull, "width" := width, "height" := height,
             "n_objects" := JInt(0),
             "obj_info" := JObj(map["anno_source" := JNull, "categories" := JArr([]), "bboxes" := JArr([]),
                                    "scores" := JArr([]), "masks" := JArr([])])])
  }

  /** `init_radar_json`. */
  function RadarJson(folderName: Json, range: Json, azimuth: Json, nChirps: Json): Json
  {
    JObj(map["folder_name" := folderName, "frame_name" := JNull, "range" := range, "azimuth" := azimuth,
             "n_chirps" := nChirps, "n_objects" := JInt(0),
             "obj_info" := JObj(map["anno_source" := JNull, "categories" := JArr([]), "centers" := JArr([]),
                                    "center_ids" := JArr([]), "scores" := JArr([])])])
  }

  /** A sensor template with nothing annotated yet: no frame name, no
      objects, no annotation source and every object list empty. */
  predicate EmptyTemplate(j: Json, folderName: Json)
  {
    && j.JObj?
    && "folder_name" in j.fields && j.fields["folder_name"] == folderName
    && "frame_name" in j.fields && j.fields["frame_name"] == JNull
    && "n_objects" in j.fields && j.fields["n_objects"] == JInt(0)
    && "obj_info" in j.fields && j.fields["obj_info"].JObj?
    && var info := j.fields["obj_info"].fields;
       && "anno_source" in info && info["anno_source"] == JNull
       && forall k :: k in info && k != "anno_source" ==> info[k] == JArr([])
  }

  lemma CameraTemplateEmpty(folderName: Json, width: Json, height: Json)
    ensures EmptyTemplate(CameraJson(folderName, width, height), folderName)
    ensures var f := CameraJson(folderName, width, height).fields;
      && f.Keys == {"folder_name", "frame_name", "width", "height", "n_objects", "obj_info"}
      && f["width"] == width && f["height"] == height
      && f["obj_info"].fields.Keys == {"anno_source", "categories", "bboxes", "scores", "masks"}
  {
  }

  lemma RadarTemplateEmpty(folderName: Json, range: Json, azimuth: Json, nChirps: Json)
    ensures EmptyTemplate(RadarJson(folderName, range, azimuth, nChirps), folderName)
    ensures var f := RadarJson(folderName, range, azimuth, nChirps).fields;
      && f.Keys == {"folder_name", "frame_name", "range", "azimuth", "n_chirps", "n_objects", "obj_info"}
      && f["range"] == range && f["azimuth"] == azimuth && f["n_chirps"] == nChirps
      && f["obj_info"].fields.Keys == {"anno_source", "categories", "centers", "center_ids", "scores"}
  {
  }

  predicate StartsWith(s: string, prefix: string)
  {
    |prefix| <= |s| && s[..|prefix|] == prefix
  }

  /** The keys `init_meta_json` can fill: "cam..." and "rad..." sensors. */
  predicate KnownSensor(key: string)
  {
    StartsWith(key, "cam") || StartsWith(key, "rad")
  }

  /** The template for one sensor key: camera first, then radar. */
  function SensorJson(key: string, folderName: Json, sizes: Sizes): Json
    requires KnownSensor(key)
  {
    if StartsWith(key, "cam") then CameraJson(folderName, sizes.imwidth, sizes.imheight)
    else RadarJson(folderName, sizes.rarange, sizes.raazimuth, sizes.nChirps)
  }

  /** `meta_dict` of one frame after the first n sensor keys; an unknown
      key raises NotImplementedError. */
  function FrameMetaUpTo(frameId: int, folders: seq<(string, Json)>, sizes: Sizes, n: nat): (r: Result<map<string, Json>>)
    requires n <= |folders|
    ensures r.Err? ==> r.error == NotImplementedError
  {
    if n == 0 then Ok(map["frame_id" := JInt(frameId)])
    else
      match FrameMetaUpTo(frameId, folders, sizes, n - 1)
      case Err(e) => Err(e)
      case Ok(d) =>
        var (key, folderName) := folders[n - 1];
        if KnownSensor(key) then Ok(d[key := SensorJson(key, folderName, sizes)])
        else Err(NotImplementedError)
  }

  /** `meta_dict` of one frame: "frame_id" and one template per sensor key. */
  function FrameMeta(frameId: int, folders: seq<(string, Json)>, sizes: Sizes): (r: Result<map<string, Json>>)
    ensures r.Err? ==> r.error == NotImplementedError
  {
    FrameMetaUpTo(frameId, folders, sizes, |folders|)
  }

  /** `meta_all` after the first n frames. */
  function MetaFrames(folders: seq<(string, Json)>, sizes: Sizes, n: nat): (r: Result<seq<Json>>)
    ensures r.Ok? ==> |r.value| == n
    ensures r.Err? ==> r.error == NotImplementedError
  {
    if n == 0 then Ok([])
    else
      match MetaFrames(folders, sizes, n - 1)
      case Err(e) => Err(e)
      case Ok(ms) =>
        match FrameMeta(n - 1, folders, sizes)
        case Err(e) => Err(e)
        case Ok(d) => Ok(ms + [JObj(d)])
  }

  /** `init_meta_json(n_frames, folder_name_dict, ...)`; `range` of a
      negative count is empty. */
  function InitMetaJsonSpec(nFrames: int, folders: seq<(string, Json)>, sizes: Sizes): (r: Result<seq<Json>>)
    ensures r.Ok? ==> |r.value| == if nFrames < 0 then 0 else nFrames
    ensures r.Err? ==> r.error == NotImplementedError
  {
    MetaFrames(folders, sizes, if nFrames < 0 then 0 else nFrames)
  }

  /** The sensor loop of one frame. */
  method FrameMetaLoop(frameId: int, folders: seq<(string, Json)>, sizes: Sizes) returns (r: Result<map<string, Json>>)
    ensures r == FrameMeta(frameId, folders, sizes)
  {
    var metaDict := map["frame_id" := JInt(frameId)];
    for j := 0 to |folders|
      invariant FrameMetaUpTo(frameId, folders, sizes, j) == Ok(metaDict)
    {
      var (key, folderName) := folders[j];
      if StartsWith(key, "cam") {
        metaDict := metaDict[key := CameraJson(folderName, sizes.imwidth, sizes.imheight)];
      } else if StartsWith(key, "rad") {
        metaDict := metaDict[key := RadarJson(folderName, sizes.rarange, sizes.raazimuth, sizes.nChirps)];
      } else {
        FrameMetaErrPersists(frameId, folders, sizes, j + 1, |folders|);
        return Err(NotImplementedError);
      }
    }
    r := Ok(metaDict);
  }

  /** Once a key is rejected the rest of the frame is not built. */
  lemma {:induction false} FrameMetaErrPersists(frameId: int, folders: seq<(string, Json)>, sizes: Sizes, m: nat, n: nat)
    requires m <= n <= |folders|
    requires FrameMetaUpTo(frameId, folders, sizes, m).Err?
    ensures FrameMetaUpTo(frameId, folders, sizes, n).Err?
    decreases n - m
  {
    if m < n {
      FrameMetaErrPersists(frameId, folders, sizes, m + 1, n);
    }
  }

  lemma {:induction false} MetaFramesErrPersists(folders: seq<(string, Json)>, sizes: Sizes, m: nat, n: nat)
    requires m <= n
    requires MetaFrames(folders, sizes, m).Err?
    ensures MetaFrames(folders, sizes, n).Err?
    decreases n - m
  {
    if m < n {
      MetaFramesErrPersists(folders, sizes, m + 1, n);
    }
  }

  /** `init_meta_json`: one dictionary per frame, appended in frame order. */
  method InitMetaJson(nFrames: int, folders: seq<(string, Json)>, sizes: Sizes) returns (r: Result<seq<Json>>)
    ensures r == InitMetaJsonSpec(nFrames, folders, sizes)
  {
    var n: nat := if nFrames < 0 then 0 else nFrames;
    var metaAll: seq<Json> := [];
    for frameId := 0 to n
      invariant MetaFrames(folders, sizes, frameId) == Ok(metaAll)
    {
      var metaDict := FrameMetaLoop(frameId, folders, sizes);
      if metaDict.Err? {
        MetaFramesErrPersists(folders, sizes, frameId + 1, n);
        return Err(metaDict.error);
      }
      metaAll := metaAll + [JObj(metaDict.value)];
    }
    r := Ok(metaAll);
  }

  // ---------------------------------------------------------------------
  // What the metadata holds

  /** The metadata fails exactly when some frame is built (n > 0) and some
      sensor key is neither a camera nor a radar. */
  lemma {:induction false} FrameMetaFails(frameId: int, folders: seq<(string, Json)>, sizes: Sizes, n: nat)
    requires n <= |folders|
    ensures FrameMetaUpTo(frameId, folders, sizes, n).Err? <==> exists k :: 0 <= k < n && !KnownSensor(folders[k].0)
  {
    if n > 0 {
      FrameMetaFails(frameId, folders, sizes, n - 1);
      if !KnownSensor(folders[n - 1].0) {
        assert 0 <= n - 1 < n && !KnownSensor(folders[n - 1].0);
      }
      if exists k :: 0 <= k < n && !KnownSensor(folders[k].0) {
        var k :| 0 <= k < n && !KnownSensor(folders[k].0);
        assert k == n - 1 || (0 <= k < n - 1 && !KnownSensor(folders[k].0));
      }
    }
  }

  lemma {:induction false} MetaFramesFails(folders: seq<(string, Json)>, sizes: Sizes, n: nat)
    ensures MetaFrames(folders, sizes, n).Err? <==> n > 0 && exists k :: 0 <= k < |folders| && !KnownSensor(folders[k].0)
  {
    if n > 0 {
      MetaFramesFails(folders, sizes, n - 1);
      FrameMetaFails(n - 1, folders, sizes, |folders|);
    }
  }

  /** Entry i of the metadata is frame i's dictionary. */
  lemma {:induction false} MetaFramesEntries(folders: seq<(string, Json)>, sizes: Sizes, n: nat, i: nat)
    requires MetaFrames(folders, sizes, n).Ok? && i < n
    ensures FrameMeta(i, folders, sizes).Ok?
    ensures MetaFrames(folders, sizes, n).value[i] == JObj(FrameMeta(i, folders, sizes).value)
  {
    if i < n - 1 {
      MetaFramesEntries(folders, sizes, n - 1, i);
    }
  }

  lemma FrameIdNotSensor(key: string)
    requires KnownSensor(key)
    ensures key != "frame_id"
  {
    assert !KnownSensor("frame_id") by {
      assert "frame_id"[..3] == "fra";
    }
  }

  /** A frame's dictionary has its frame id, and under every sensor key the
      template for that key and its folder (sensor keys are distinct, as
      in a dictionary). */
  lemma {:induction false} FrameMetaContents(frameId: int, folders: seq<(string, Json)>, sizes: Sizes, n: nat)
    requires n <= |folders|
    requires forall a, b :: 0 <= a < b < n ==> folders[a].0 != folders[b].0
    requires FrameMetaUpTo(frameId, folders, sizes, n).Ok?
    ensures var d := FrameMetaUpTo(frameId, folders, sizes, n).value;
      && "frame_id" in d && d["frame_id"] == JInt(frameId)
      && (forall k :: 0 <= k < n ==> (KnownSensor(folders[k].0) && folders[k].0 in d
            && d[folders[k].0] == SensorJson(folders[k].0, folders[k].1, sizes)))
      && (forall key :: key in d ==> key == "frame_id" || exists k :: 0 <= k < n && folders[k].0 == key)
  {
    if n > 0 {
      FrameMetaContents(frameId, folders, sizes, n - 1);
      FrameIdNotSensor(folders[n - 1].0);
    }
  }

  /** Every frame of `init_meta_json` has `frame_id` equal to its position
      in the list. */
  lemma FrameIds(nFrames: int, folders: seq<(string, Json)>, sizes: Sizes, i: nat)
    requires InitMetaJsonSpec(nFrames, folders, sizes).Ok?
    requires i < |InitMetaJsonSpec(nFrames, folders, sizes).value|
    ensures var m := InitMetaJsonSpec(nFrames, folders, sizes).value[i];
      m.JObj? && "frame_id" in m.fields && m.fields["frame_id"] == JInt(i)
  {
    MetaFramesEntries(folders, sizes, |InitMetaJsonSpec(nFrames, folders, sizes).value|, i);
    FrameMetaZero(i, folders, sizes, |folders|);
  }

  /** "frame_id" is set first and no sensor key replaces it. */
  lemma {:induction false} FrameMetaZero(frameId: int, folders: seq<(string, Json)>, sizes: Sizes, n: nat)
    requires n <= |folders|
    requires FrameMetaUpTo(frameId, folders, sizes, n).Ok?
    ensures var d := FrameMetaUpTo(frameId, folders, sizes, n).value;
      "frame_id" in d && d["frame_id"] == JInt(frameId)
  {
    if n > 0 {
      FrameMetaZero(frameId, folders, sizes, n - 1);
      FrameIdNotSensor(folders[n - 1].0);
    }
  }

  /** With the default folders every frame is built. */
  lemma DefaultFoldersKnown(nFrames: int, sizes: Sizes)
    ensures InitMetaJsonSpec(nFrames, FolderNameDict, sizes).Ok?
    ensures |InitMetaJsonSpec(nFrames, FolderNameDict, sizes).value| == if nFrames < 0 then 0 else nFrames
  {
    var n: nat := if nFrames < 0 then 0 else nFrames;
    assert KnownSensor(FolderNameDict[0].0) && KnownSensor(FolderNameDict[1].0) && KnownSensor(FolderNameDict[2].0);
    MetaFramesFails(FolderNameDict, sizes, n);
  }

  // ---------------------------------------------------------------------
  // init_anno_json

  /** `init_anno_json(seq_name, n_frames, dataset, fps, sensors, view,
      setup)` with the default folders and sizes; the recording date is
      the first ten characters of the sequence name. */
  function InitAnnoJson(seqName: string, nFrames: int, dataset: Json, fps: Json, sensors: Json, view: Json, setup: Json)
    : (r: Result<Json>)
    ensures r.Ok? <==> InitMetaJsonSpec(nFrames, FolderNameDict, DefaultSizes).Ok?
    ensures r.Ok? ==>
      r.value.JObj? &&
      r.value.fields.Keys == {"dataset", "date_collect", "seq_name", "n_frames", "fps", "sensors", "view", "setup", "metadata"}
    ensures r.Ok? ==> r.value.fields["seq_name"] == JStr(seqName) && r.value.fields["n_frames"] == JInt(nFrames)
    ensures r.Ok? ==> r.value.fields["metadata"] == JArr(InitMetaJsonSpec(nFrames, FolderNameDict, DefaultSizes).value)
  {
    match InitMetaJsonSpec(nFrames, FolderNameDict, DefaultSizes)
    case Err(e) => Err(e)
    case Ok(meta) =>
      Ok(JObj(map["dataset" := dataset, "date_collect" := JStr(TakePrefix(seqName, 10)), "seq_name" := JStr(seqName),
                  "n_frames" := JInt(nFrames), "fps" := fps, "sensors" := sensors, "view" := view, "setup" := setup,
                  "metadata" := JArr(meta)]))
  }

  /** The annotation is always built; its date holds at most the first ten
      characters of the name and its metadata one entry per frame. */
  lemma AnnoShape(seqName: string, nFrames: int, dataset: Json, fps: Json, sensors: Json, view: Json, setup: Json)
    ensures InitAnnoJson(seqName, nFrames, dataset, fps, sensors, view, setup).Ok?
    ensures var a := InitAnnoJson(seqName, nFrames, dataset, fps, sensors, view, setup).value;
      && a.JObj? && "date_collect" in a.fields && "metadata" in a.fields
      && a.fields["date_collect"].JStr? && a.fields["date_collect"].s <= seqName
      && |a.fields["date_collect"].s| == (if |seqName| < 10 then |seqName| else 10)
      && a.fields["metadata"].JArr? && |a.fields["metadata"].items| == (if nFrames < 0 then 0 else nFrames)
  {
    DefaultFoldersKnown(nFrames, DefaultSizes);
  }
}
