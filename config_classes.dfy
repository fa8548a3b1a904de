/** The configuration records of the dataset toolkit and their conversion
    to and from plain dictionaries (`serialize` / `initialize`). A Python
    dict is a map from the keys these classes know to `Json` values (keys
    of no configuration play no part and are left out); a field holds
    whatever value the dictionary held, as Python does not check the
    declared types. */
module ConfigClasses {
  import opened Wrappers
  import opened Json

  /** The dictionary keys of the configuration classes. */
  datatype Key =
    | Dataset | CameraCfg | RadarCfg | CalibCfg
    | NClasses | Classes | Sizes
    | GtRoot | GtDirName | GtFormat | SeqNames | DateIncluded | OutputDir
    | ResRoot | ResDirName | ResFormat | MinDistThres

  /** The key as it is spelled in the dictionaries. */
  function KeyName(k: Key): string
  {
    match k
    case Dataset => "dataset"
    case CameraCfg => "camera_cfg"
    case RadarCfg => "radar_cfg"
    case CalibCfg => "calib_cfg"
    case NClasses => "n_classes"
    case Classes => "classes"
    case Sizes => "sizes"
    case GtRoot => "gt_root"
    case GtDirName => "gt_dir_name"
    case GtFormat => "gt_format"
    case SeqNames => "seq_names"
    case DateIncluded => "date_included"
    case OutputDir => "output_dir"
    case ResRoot => "res_root"
    case ResDirName => "res_dir_name"
    case ResFormat => "res_format"
    case MinDistThres => "min_dist_thres"
  }

  /** Distinct keys are spelled differently, so a map over `Key` is a
      dictionary over their spellings. */
  lemma KeyNamesDistinct(a: Key, b: Key)
    requires a != b
    ensures KeyName(a) != KeyName(b)
  {
  }

  type Dict = map<Key, Json>

  /** The dictionary made of the given keys of `content`. */
  function Restrict(content: Dict, keys: set<Key>): (r: Dict)
    requires keys <= content.Keys
    ensures r.Keys == keys
    ensures forall k :: k in keys ==> r[k] == content[k]
  {
    map k | k in keys :: content[k]
  }

  // ---------------------------------------------------------------------
  // SensorConfig

  datatype SensorConfig = SensorConfig(dataset: Json, cameraCfg: Json, radarCfg: Json, calibCfg: Json)

  const SensorKeys: set<Key> := {Dataset, CameraCfg, RadarCfg, CalibCfg}

  /** `SensorConfig.serialize`: exactly the four keys. */
  function SerializeSensor(c: SensorConfig): (r: Dict)
    ensures r.Keys == SensorKeys
  {
    map[Dataset := c.dataset, CameraCfg := c.cameraCfg, RadarCfg := c.radarCfg, CalibCfg := c.calibCfg]
  }

  /** `SensorConfig.initialize`: KeyError unless all four keys are present. */
  function InitializeSensor(content: Dict): (r: Result<SensorConfig>)
    ensures r.Ok? <==> Dataset in content && CameraCfg in content && RadarCfg in content && CalibCfg in content
    ensures r.Err? ==> r.error == KeyError
  {
    if SensorKeys <= content.Keys then
      Ok(SensorConfig(content[Dataset], content[CameraCfg], content[RadarCfg], content[CalibCfg]))
    else Err(KeyError)
  }

  /** Initializing from a serialized configuration gives it back. */
  lemma SensorRoundTrip(c: SensorConfig)
    ensures InitializeSensor(SerializeSensor(c)) == Ok(c)
  {
  }

  /** Serializing an initialized configuration gives back exactly the four
      entries it was read from; other keys are dropped. */
  lemma SensorReadBack(content: Dict)
    requires InitializeSensor(content).Ok?
    ensures SerializeSensor(InitializeSensor(content).value) == Restrict(content, SensorKeys)
  {
  }

  // ---------------------------------------------------------------------
  // ObjectConfig

  datatype ObjectConfig = ObjectConfig(nClass: Json, classes: Json, sizes: Json)

  const ObjectKeys: set<Key> := {NClasses, Classes, Sizes}

  /** `ObjectConfig.serialize`: field `n_class` goes under "n_classes". */
  function SerializeObject(c: ObjectConfig): (r: Dict)
    ensures r.Keys == ObjectKeys
    ensures r[NClasses] == c.nClass
  {
    map[NClasses := c.nClass, Classes := c.classes, Sizes := c.sizes]
  }

  function InitializeObject(content: Dict): (r: Result<ObjectConfig>)
    ensures r.Ok? <==> NClasses in content && Classes in content && Sizes in content
    ensures r.Err? ==> r.error == KeyError
  {
    if ObjectKeys <= content.Keys then Ok(ObjectConfig(content[NClasses], content[Classes], content[Sizes]))
    else Err(KeyError)
  }

  /** "n_classes" is both written and read, so the class count survives. */
  lemma ObjectRoundTrip(c: ObjectConfig)
    ensures InitializeObject(SerializeObject(c)) == Ok(c)
  {
  }

  lemma ObjectReadBack(content: Dict)
    requires InitializeObject(content).Ok?
    ensures SerializeObject(InitializeObject(content).value) == Restrict(content, ObjectKeys)
  {
  }

  // ---------------------------------------------------------------------
  // HumanAnnoConfig

  datatype HumanAnnoConfig = HumanAnnoConfig(
    gtRoot: Json, gtDirName: Json, gtFormat: Json, seqNames: Json,
    dataset: Json, dateIncluded: Json, outputDir: Json)

  const HumanAnnoKeys: set<Key> := {GtRoot, GtDirName, GtFormat, SeqNames, Dataset, DateIncluded, OutputDir}

  /** `HumanAnnoConfig.serialize`: exactly the seven keys. */
  function SerializeHumanAnno(c: HumanAnnoConfig): (r: Dict)
    ensures r.Keys == HumanAnnoKeys
  {
    map[GtRoot := c.gtRoot, GtDirName := c.gtDirName, GtFormat := c.gtFormat,
        SeqNames := c.seqNames, Dataset := c.dataset, DateIncluded := c.dateIncluded,
        OutputDir := c.outputDir]
  }

  function InitializeHumanAnno(content: Dict): (r: Result<HumanAnnoConfig>)
    ensures r.Ok? <==> GtRoot in content && GtDirName in content && GtFormat in content
                       && SeqNames in content && Dataset in content && DateIncluded in content
                       && OutputDir in content
    ensures r.Err? ==> r.error == KeyError
  {
    if HumanAnnoKeys <= content.Keys then
      Ok(HumanAnnoConfig(content[GtRoot], content[GtDirName], content[GtFormat], content[SeqNames],
                         content[Dataset], content[DateIncluded], content[OutputDir]))
    else Err(KeyError)
  }

  lemma HumanAnnoRoundTrip(c: HumanAnnoConfig)
    ensures InitializeHumanAnno(SerializeHumanAnno(c)) == Ok(c)
  {
  }

  lemma HumanAnnoReadBack(content: Dict)
    requires InitializeHumanAnno(content).Ok?
    ensures SerializeHumanAnno(InitializeHumanAnno(content).value) == Restrict(content, HumanAnnoKeys)
  {
  }

  // ---------------------------------------------------------------------
  // Loc3DCamConfig

  datatype Loc3DCamConfig = Loc3DCamConfig(
    seqNames: Json, resRoot: Json, resDirName: Json, resFormat: Json, minDistThres: Json,
    gtRoot: Json, gtDirName: Json, gtFormat: Json, dateIncluded: Json)

  /** The constructor with its defaults: no ground truth, dates included. */
  function NewLoc3DCam(seqNames: Json, resRoot: Json, resDirName: Json, resFormat: Json, minDistThres: Json,
                       gtRoot: Json := JNull, gtDirName: Json := JNull, gtFormat: Json := JNull,
                       dateIncluded: Json := JBool(true)): Loc3DCamConfig
  {
    Loc3DCamConfig(seqNames, resRoot, resDirName, resFormat, minDistThres, gtRoot, gtDirName, gtFormat, dateIncluded)
  }

  /** The entries read when "gt_root" is present. */
  const Loc3DGtKeys: set<Key> :=
    {SeqNames, ResRoot, ResDirName, ResFormat, MinDistThres, GtRoot, GtDirName, GtFormat, DateIncluded}

  /** The entries read when it is not. */
  const Loc3DNoGtKeys: set<Key> := {SeqNames, ResRoot, ResDirName, ResFormat, MinDistThres, DateIncluded}

  /** `Loc3DCamConfig.serialize`: the ground-truth entries only when
      `gt_root` is not None. */
  function SerializeLoc3DCam(c: Loc3DCamConfig): (r: Dict)
    ensures r.Keys == if c.gtRoot != JNull then Loc3DGtKeys else Loc3DNoGtKeys
    ensures r[DateIncluded] == c.dateIncluded
  {
    var base := map[SeqNames := c.seqNames, ResRoot := c.resRoot, ResDirName := c.resDirName,
                    ResFormat := c.resFormat, MinDistThres := c.minDistThres];
    if c.gtRoot != JNull then
      base[GtRoot := c.gtRoot][GtDirName := c.gtDirName][GtFormat := c.gtFormat][DateIncluded := c.dateIncluded]
    else
      base[DateIncluded := c.dateIncluded]
  }

  /** `Loc3DCamConfig.initialize` as written: without "gt_root" the sixth
      positional argument, the "date_included" entry, lands in `gt_root`. */
  function InitializeLoc3DCamAsWritten(content: Dict): (r: Result<Loc3DCamConfig>)
    ensures r.Ok? <==> (if GtRoot in content then Loc3DGtKeys else Loc3DNoGtKeys) <= content.Keys
    ensures r.Err? ==> r.error == KeyError
  {
    if GtRoot in content then
      if Loc3DGtKeys <= content.Keys then
        Ok(NewLoc3DCam(content[SeqNames], content[ResRoot], content[ResDirName], content[ResFormat],
                       content[MinDistThres], content[GtRoot], content[GtDirName], content[GtFormat],
                       content[DateIncluded]))
      else Err(KeyError)
    else if Loc3DNoGtKeys <= content.Keys then
      Ok(NewLoc3DCam(content[SeqNames], content[ResRoot], content[ResDirName], content[ResFormat],
                     content[MinDistThres], content[DateIncluded]))
    else Err(KeyError)
  }

  /** Without "gt_root" the as-written reader stores the "date_included"
      entry as `gt_root` and resets `date_included` to True. */
  lemma AsWrittenMisbindsDateIncluded(content: Dict)
    requires GtRoot !in content && Loc3DNoGtKeys <= content.Keys
    ensures InitializeLoc3DCamAsWritten(content).Ok?
    ensures InitializeLoc3DCamAsWritten(content).value.gtRoot == content[DateIncluded]
    ensures InitializeLoc3DCamAsWritten(content).value.dateIncluded == JBool(true)
  {
  }

  /** A configuration without ground truth and with dates excluded does not
      survive a serialize / initialize round trip as written. */
  lemma AsWrittenRoundTripFails()
    ensures var c := NewLoc3DCam(JArr([]), JStr("res"), JStr("dir"), JStr("txt"), JNum(2.0), dateIncluded := JBool(false));
            InitializeLoc3DCamAsWritten(SerializeLoc3DCam(c)) != Ok(c)
  {
    var c := NewLoc3DCam(JArr([]), JStr("res"), JStr("dir"), JStr("txt"), JNum(2.0), dateIncluded := JBool(false));
    AsWrittenMisbindsDateIncluded(SerializeLoc3DCam(c));
  }

  /** `Loc3DCamConfig.initialize` with "date_included" passed by name
      when there is no ground truth. */
  function InitializeLoc3DCam(content: Dict): (r: Result<Loc3DCamConfig>)
    ensures r.Ok? <==> (if GtRoot in content then Loc3DGtKeys else Loc3DNoGtKeys) <= content.Keys
    ensures r.Err? ==> r.error == KeyError
    ensures r.Ok? ==> r.value.dateIncluded == content[DateIncluded]
    ensures r.Ok? ==> (r.value.gtRoot == if GtRoot in content then content[GtRoot] else JNull)
  {
    if GtRoot in content then
      if Loc3DGtKeys <= content.Keys then
        Ok(NewLoc3DCam(content[SeqNames], content[ResRoot], content[ResDirName], content[ResFormat],
                       content[MinDistThres], content[GtRoot], content[GtDirName], content[GtFormat],
                       content[DateIncluded]))
      else Err(KeyError)
    else if Loc3DNoGtKeys <= content.Keys then
      Ok(NewLoc3DCam(content[SeqNames], content[ResRoot], content[ResDirName], content[ResFormat],
                     content[MinDistThres], dateIncluded := content[DateIncluded]))
    else Err(KeyError)
  }

  /** With ground truth both readers agree and the configuration round-trips. */
  lemma Loc3DCamRoundTripWithGt(c: Loc3DCamConfig)
    requires c.gtRoot != JNull
    ensures InitializeLoc3DCamAsWritten(SerializeLoc3DCam(c)) == Ok(c)
    ensures InitializeLoc3DCam(SerializeLoc3DCam(c)) == Ok(c)
  {
  }

  /** The corrected reader round-trips every configuration that serialize
      does not lose information from: one with ground truth, or one whose
      ground-truth fields are all None. */
  lemma Loc3DCamRoundTrip(c: Loc3DCamConfig)
    requires c.gtRoot != JNull || (c.gtDirName == JNull && c.gtFormat == JNull)
    ensures InitializeLoc3DCam(SerializeLoc3DCam(c)) == Ok(c)
  {
  }

  /** Serializing a configuration read by the corrected reader gives back
      the entries it was read from. */
  lemma Loc3DCamReadBack(content: Dict)
    requires InitializeLoc3DCam(content).Ok?
    requires GtRoot in content ==> content[GtRoot] != JNull
    ensures SerializeLoc3DCam(InitializeLoc3DCam(content).value) ==
      Restrict(content, if GtRoot in content then Loc3DGtKeys else Loc3DNoGtKeys)
  {
  }
}
