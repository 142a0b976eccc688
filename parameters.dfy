/**
 * The SLAM parameter map the application hands to the mapping back end
 * (`getRtabmapParameters`) and the update of one user-chosen mapping
 * parameter (`setMappingParameter`). Keys are the names of rtabmap's
 * parameter registry; `KeyName` gives their spelling.
 */
module Parameters {
  import opened Wrappers

  type ParametersMap = map<Key, string>
  type Pairs = seq<(Key, string)>

  /**
   * The parameter keys the application names, and `Named` for every
   * other name. A `Named` key whose name spells one of the named keys is a
   * different key here, so the maps are expected to use the named
   * constructors for those names.
   */
  datatype Key =
    KpMaxFeatures
    | KpDetectorStrategy
    | OptimizerStrategy
    | OptimizerIterations
    | OptimizerEpsilon
    | OptimizerGravitySigma
    | MemRehearsalSimilarity
    | MemMapLabelsAdded
    | MemNotLinkedNodesKept
    | MemIncrementalMemory
    | MemBinDataKept
    | BriefBytes
    | GfttQualityLevel
    | IcpCorrespondenceRatio
    | IcpEpsilon
    | IcpIterations
    | IcpMaxCorrespondenceDistance
    | IcpMaxRotation
    | IcpMaxTranslation
    | IcpPointToPlane
    | KpMaxDepth
    | KpParallelized
    | MarkerLength
    | MemCompressionParallelized
    | MemImagePreDecimation
    | MemLaserScanNormalK
    | MemUseOdomGravity
    | RgbdAngularUpdate
    | RgbdLinearUpdate
    | RgbdMaxLocalRetrieved
    | RgbdOptimizeFromGraphEnd
    | RgbdOptimizeMaxError
    | RgbdProximityBySpace
    | RgbdProximityPathMaxNeighbors
    | RtabmapMaxRetrieved
    | RtabmapPublishLikelihood
    | RtabmapPublishPdf
    | RtabmapStartNewMapOnLoopClosure
    | RtabmapTimeThr
    | VisEstimationType
    | VisMinInliers
    | Named(name: string)

  /** The registry's spelling of a key. */
  function KeyName(k: Key): string
  {
    match k
      case KpMaxFeatures => "Kp/MaxFeatures"
      case KpDetectorStrategy => "Kp/DetectorStrategy"
      case OptimizerStrategy => "Optimizer/Strategy"
      case OptimizerIterations => "Optimizer/Iterations"
      case OptimizerEpsilon => "Optimizer/Epsilon"
      case OptimizerGravitySigma => "Optimizer/GravitySigma"
      case MemRehearsalSimilarity => "Mem/RehearsalSimilarity"
      case MemMapLabelsAdded => "Mem/MapLabelsAdded"
      case MemNotLinkedNodesKept => "Mem/NotLinkedNodesKept"
      case MemIncrementalMemory => "Mem/IncrementalMemory"
      case MemBinDataKept => "Mem/BinDataKept"
      case BriefBytes => "BRIEF/Bytes"
      case GfttQualityLevel => "GFTT/QualityLevel"
      case IcpCorrespondenceRatio => "Icp/CorrespondenceRatio"
      case IcpEpsilon => "Icp/Epsilon"
      case IcpIterations => "Icp/Iterations"
      case IcpMaxCorrespondenceDistance => "Icp/MaxCorrespondenceDistance"
      case IcpMaxRotation => "Icp/MaxRotation"
      case IcpMaxTranslation => "Icp/MaxTranslation"
      case IcpPointToPlane => "Icp/PointToPlane"
      case KpMaxDepth => "Kp/MaxDepth"
      case KpParallelized => "Kp/Parallelized"
      case MarkerLength => "Marker/Length"
      case MemCompressionParallelized => "Mem/CompressionParallelized"
      case MemImagePreDecimation => "Mem/ImagePreDecimation"
      case MemLaserScanNormalK => "Mem/LaserScanNormalK"
      case MemUseOdomGravity => "Mem/UseOdomGravity"
      case RgbdAngularUpdate => "RGBD/AngularUpdate"
      case RgbdLinearUpdate => "RGBD/LinearUpdate"
      case RgbdMaxLocalRetrieved => "RGBD/MaxLocalRetrieved"
      case RgbdOptimizeFromGraphEnd => "RGBD/OptimizeFromGraphEnd"
      case RgbdOptimizeMaxError => "RGBD/OptimizeMaxError"
      case RgbdProximityBySpace => "RGBD/ProximityBySpace"
      case RgbdProximityPathMaxNeighbors => "RGBD/ProximityPathMaxNeighbors"
      case RtabmapMaxRetrieved => "Rtabmap/MaxRetrieved"
      case RtabmapPublishLikelihood => "Rtabmap/PublishLikelihood"
      case RtabmapPublishPdf => "Rtabmap/PublishPdf"
      case RtabmapStartNewMapOnLoopClosure => "Rtabmap/StartNewMapOnLoopClosure"
      case RtabmapTimeThr => "Rtabmap/TimeThr"
      case VisEstimationType => "Vis/EstimationType"
      case VisMinInliers => "Vis/MinInliers"
      case Named(name) => name
  }

  /** The application options the parameter map depends on. */
  datatype Settings = Settings(
    cameraColor: bool,
    fullResolution: bool,
    appendMode: bool,
    trajectoryMode: bool,
    graphOptimization: bool,
    localizationMode: bool,
    dataRecorderMode: bool)

  /** `uBool2Str`. */
  function BoolString(b: bool): (r: string)
    ensures r == "true" <==> b
  {
    if b then "true" else "false"
  }

  /** The keys named by a list of pairs. */
  function KeysOf(ps: Pairs): (ks: set<Key>)
    ensures forall k :: k in ks <==> exists i :: 0 <= i < |ps| && ps[i].0 == k
  {
    set i | 0 <= i < |ps| :: ps[i].0
  }

  /**
   * A run of `std::map::insert` calls: a key already present keeps its
   * value, and a new key gets the value of the first pair that names it
   * (`InsertAllFirst`).
   */
  function InsertAll(m: ParametersMap, ps: Pairs): (r: ParametersMap)
    ensures r.Keys == m.Keys + KeysOf(ps)
    ensures forall k :: k in m ==> r[k] == m[k]
    decreases |ps|
  {
    if ps == [] then m
    else
      var m' := if ps[0].0 in m then m else m[ps[0].0 := ps[0].1];
      var r := InsertAll(m', ps[1..]);
      assert forall k :: k in KeysOf(ps) <==> k == ps[0].0 || k in KeysOf(ps[1..]) by {
        forall k | k in KeysOf(ps)
          ensures k == ps[0].0 || k in KeysOf(ps[1..])
        {
          var i :| 0 <= i < |ps| && ps[i].0 == k;
          if i > 0 {
            assert ps[1..][i - 1] == ps[i];
          }
        }
        forall k | k in KeysOf(ps[1..])
          ensures k in KeysOf(ps)
        {
          var i :| 0 <= i < |ps[1..]| && ps[1..][i].0 == k;
          assert ps[i + 1] == ps[1..][i];
        }
      }
      r
  }

  /** A key the map lacks takes the value of the first pair that names it. */
  lemma {:induction false} InsertAllFirst(m: ParametersMap, ps: Pairs, i: nat)
    requires i < |ps| && ps[i].0 !in m
    requires forall j :: 0 <= j < i ==> ps[j].0 != ps[i].0
    ensures InsertAll(m, ps)[ps[i].0] == ps[i].1
    decreases i
  {
    var m' := if ps[0].0 in m then m else m[ps[0].0 := ps[0].1];
    if i == 0 {
      assert InsertAll(m, ps) == InsertAll(m', ps[1..]);
    } else {
      assert ps[1..][i - 1] == ps[i];
      InsertAllFirst(m', ps[1..], i - 1);
    }
  }

  /** The optimizer iteration count the application asks for: none without graph optimization. */
  function GraphIterations(graphOptimization: bool): string
  {
    if graphOptimization then "10" else "0"
  }

  /** The hard-coded pairs inserted after the user's own mapping parameters (81-106). */
  function ApplicationPairs(s: Settings): Pairs
  {
    [ (KpMaxFeatures, "200"),
      (GfttQualityLevel, "0.0001"),
      (MemImagePreDecimation, if s.cameraColor && s.fullResolution then "2" else "1"),
      (BriefBytes, "64"),
      (RtabmapTimeThr, "800"),
      (RtabmapPublishLikelihood, "false"),
      (RtabmapPublishPdf, "false"),
      (RtabmapStartNewMapOnLoopClosure, BoolString(s.appendMode)),
      (MemBinDataKept, BoolString(!s.trajectoryMode)),
      (OptimizerIterations, GraphIterations(s.graphOptimization)),
      (MemIncrementalMemory, BoolString(!s.localizationMode)),
      (RtabmapMaxRetrieved, "1"),
      (RgbdMaxLocalRetrieved, "0"),
      (MemCompressionParallelized, "false"),
      (KpParallelized, "false"),
      (KpMaxDepth, "10"),
      (RgbdOptimizeFromGraphEnd, "true"),
      (VisMinInliers, "25"),
      (VisEstimationType, "0"),
      (RgbdOptimizeMaxError, "3"),
      (RgbdProximityPathMaxNeighbors, "0"),
      (RgbdProximityBySpace, "false"),
      (RgbdLinearUpdate, "0.05"),
      (RgbdAngularUpdate, "0.05"),
      (MarkerLength, "0.0"),
      (MemUseOdomGravity, "true") ]
  }

  /** The optimizer pairs added when an optimizer strategy is set: GTSAM "2", g2o "1", otherwise TORO. */
  function OptimizerPairs(strategy: string, graphOptimization: bool): Pairs
  {
    if strategy == "2" then
      [ (OptimizerEpsilon, "0.00001"),
        (OptimizerIterations, GraphIterations(graphOptimization)),
        (OptimizerGravitySigma, "0.2") ]
    else if strategy == "1" then
      [ (OptimizerEpsilon, "0.0"),
        (OptimizerIterations, GraphIterations(graphOptimization)),
        (OptimizerGravitySigma, "0") ]
    else
      [ (OptimizerEpsilon, "0.00001"),
        (OptimizerIterations, if graphOptimization then "100" else "0"),
        (OptimizerGravitySigma, "0") ]
  }

  /** The scan-matching pairs (126-133). */
  function IcpPairs(): Pairs
  {
    [ (IcpPointToPlane, "true"),
      (MemLaserScanNormalK, "0"),
      (IcpIterations, "10"),
      (IcpEpsilon, "0.001"),
      (IcpMaxRotation, "0.17"),
      (IcpMaxTranslation, "0.05"),
      (IcpCorrespondenceRatio, "0.49"),
      (IcpMaxCorrespondenceDistance, "0.05") ]
  }

  /** The keys whose library default values are inserted last. */
  predicate HasLibraryDefaults(defaults: ParametersMap)
  {
    KpMaxFeatures in defaults && MemRehearsalSimilarity in defaults && MemMapLabelsAdded in defaults
  }

  /** The library defaults of those keys, in insertion order (135-137). */
  function LibraryPairs(defaults: ParametersMap): Pairs
    requires HasLibraryDefaults(defaults)
  {
    [ (KpMaxFeatures, defaults[KpMaxFeatures]),
      (MemRehearsalSimilarity, defaults[MemRehearsalSimilarity]),
      (MemMapLabelsAdded, defaults[MemMapLabelsAdded]) ]
  }

  /** The parameters the data-recorder mode overwrites. */
  function RecorderOverrides(m: ParametersMap): (r: ParametersMap)
    ensures forall k :: k in r <==> k in m || IsRecorderKey(k)
    ensures KpMaxFeatures in r && MemRehearsalSimilarity in r && MemMapLabelsAdded in r && MemNotLinkedNodesKept in r
    ensures r[KpMaxFeatures] == "-1" && r[MemRehearsalSimilarity] == "1.0"
      && r[MemMapLabelsAdded] == "false" && r[MemNotLinkedNodesKept] == "true"
    ensures forall k :: k in m && !IsRecorderKey(k) ==> r[k] == m[k]
  {
    m[KpMaxFeatures := "-1"][MemRehearsalSimilarity := "1.0"][MemMapLabelsAdded := "false"][MemNotLinkedNodesKept := "true"]
  }

  predicate IsRecorderKey(k: Key)
  {
    k == KpMaxFeatures || k == MemRehearsalSimilarity || k == MemMapLabelsAdded || k == MemNotLinkedNodesKept
  }

  /** The map before the optimizer block: the user's parameters, then the application's. */
  function BaseParameters(user: ParametersMap, s: Settings): ParametersMap
  {
    InsertAll(user, ApplicationPairs(s))
  }

  /** The map after the optimizer block, which runs only when a strategy is already set. */
  function WithOptimizer(user: ParametersMap, s: Settings): ParametersMap
  {
    var base := BaseParameters(user, s);
    if OptimizerStrategy in base then InsertAll(base, OptimizerPairs(base[OptimizerStrategy], s.graphOptimization))
    else base
  }

  /** The map before the data-recorder overrides. */
  function InsertedParameters(user: ParametersMap, s: Settings, defaults: ParametersMap): ParametersMap
    requires HasLibraryDefaults(defaults)
  {
    InsertAll(InsertAll(WithOptimizer(user, s), IcpPairs()), LibraryPairs(defaults))
  }

  /** `getRtabmapParameters`: `user` is `mappingParameters_`, `defaults` the library's default parameters. */
  function RtabmapParameters(user: ParametersMap, s: Settings, defaults: ParametersMap): (r: ParametersMap)
    requires HasLibraryDefaults(defaults)
    ensures user.Keys <= r.Keys
    ensures s.dataRecorderMode ==>
      KpMaxFeatures in r && MemRehearsalSimilarity in r && MemMapLabelsAdded in r && MemNotLinkedNodesKept in r &&
      r[KpMaxFeatures] == "-1" && r[MemRehearsalSimilarity] == "1.0" &&
      r[MemMapLabelsAdded] == "false" && r[MemNotLinkedNodesKept] == "true"
  {
    var p := InsertedParameters(user, s, defaults);
    if s.dataRecorderMode then RecorderOverrides(p) else p
  }

  /** A key already in the map before the optimizer block keeps its value through the later inserts. */
  lemma InsertsKeepBase(user: ParametersMap, s: Settings, defaults: ParametersMap, k: Key)
    requires HasLibraryDefaults(defaults)
    requires k in BaseParameters(user, s)
    ensures k in InsertedParameters(user, s, defaults)
    ensures InsertedParameters(user, s, defaults)[k] == BaseParameters(user, s)[k]
  {
    var w := WithOptimizer(user, s);
    assert k in w && w[k] == BaseParameters(user, s)[k];
  }

  /** Only the data recorder's overwrites change a value after the inserts. */
  lemma OverridesKeepInserted(user: ParametersMap, s: Settings, defaults: ParametersMap, k: Key)
    requires HasLibraryDefaults(defaults)
    requires k in InsertedParameters(user, s, defaults)
    requires !(s.dataRecorderMode && IsRecorderKey(k))
    ensures k in RtabmapParameters(user, s, defaults)
    ensures RtabmapParameters(user, s, defaults)[k] == InsertedParameters(user, s, defaults)[k]
  {
  }

  /** A value the user set wins over every inserted one; only the data recorder's overwrites beat it. */
  lemma UserParametersWin(user: ParametersMap, s: Settings, defaults: ParametersMap, k: Key)
    requires HasLibraryDefaults(defaults)
    requires k in user
    requires !(s.dataRecorderMode && IsRecorderKey(k))
    ensures RtabmapParameters(user, s, defaults)[k] == user[k]
  {
    InsertsKeepBase(user, s, defaults, k);
    OverridesKeepInserted(user, s, defaults, k);
  }

  /** The iteration count is the tenth application pair and is named by none before it. */
  lemma IterationsKeyDistinct(s: Settings)
    ensures |ApplicationPairs(s)| > 9 && ApplicationPairs(s)[9] == (OptimizerIterations, GraphIterations(s.graphOptimization))
    ensures forall j :: 0 <= j < 9 ==> ApplicationPairs(s)[j].0 != OptimizerIterations
  {
  }

  /** Outside the data recorder, an unset feature budget is the application's 200, not the library default. */
  lemma FeatureBudget(user: ParametersMap, s: Settings, defaults: ParametersMap)
    requires HasLibraryDefaults(defaults)
    requires KpMaxFeatures !in user && !s.dataRecorderMode
    ensures KpMaxFeatures in RtabmapParameters(user, s, defaults)
    ensures RtabmapParameters(user, s, defaults)[KpMaxFeatures] == "200"
  {
    InsertAllFirst(user, ApplicationPairs(s), 0);
    InsertsKeepBase(user, s, defaults, KpMaxFeatures);
    OverridesKeepInserted(user, s, defaults, KpMaxFeatures);
  }

  /**
   * An unset iteration count is 10 with graph optimization and 0 without,
   * whatever the strategy: the TORO block's 100 is never stored, because
   * the key was inserted before it.
   */
  lemma IterationsFollowGraphOptimization(user: ParametersMap, s: Settings, defaults: ParametersMap)
    requires HasLibraryDefaults(defaults)
    requires OptimizerIterations !in user
    ensures OptimizerIterations in RtabmapParameters(user, s, defaults)
    ensures RtabmapParameters(user, s, defaults)[OptimizerIterations] == GraphIterations(s.graphOptimization)
  {
    hide RtabmapParameters, InsertedParameters, WithOptimizer, ApplicationPairs;
    IterationsKeyDistinct(s);
    assert ApplicationPairs(s)[9].0 in KeysOf(ApplicationPairs(s));
    InsertAllFirst(user, ApplicationPairs(s), 9);
    InsertsKeepBase(user, s, defaults, OptimizerIterations);
    OverridesKeepInserted(user, s, defaults, OptimizerIterations);
  }

  /** No pair outside the optimizer block names the strategy or the epsilon. */
  lemma OptimizerKeysOnlyInBlock(s: Settings, defaults: ParametersMap)
    requires HasLibraryDefaults(defaults)
    ensures forall i :: 0 <= i < |ApplicationPairs(s)| ==>
      ApplicationPairs(s)[i].0 != OptimizerStrategy && ApplicationPairs(s)[i].0 != OptimizerEpsilon
    ensures forall i :: 0 <= i < |IcpPairs()| ==>
      IcpPairs()[i].0 != OptimizerStrategy && IcpPairs()[i].0 != OptimizerEpsilon
    ensures forall i :: 0 <= i < |LibraryPairs(defaults)| ==>
      LibraryPairs(defaults)[i].0 != OptimizerStrategy && LibraryPairs(defaults)[i].0 != OptimizerEpsilon
  {
  }

  /** A key the optimizer block alone names is in the final map exactly when it was right after that block. */
  lemma OptimizerKeyAfterBlock(user: ParametersMap, s: Settings, defaults: ParametersMap, k: Key)
    requires HasLibraryDefaults(defaults)
    requires k == OptimizerStrategy || k == OptimizerEpsilon
    ensures k in RtabmapParameters(user, s, defaults) <==> k in WithOptimizer(user, s)
  {
    OptimizerKeysOnlyInBlock(s, defaults);
    assert k !in KeysOf(IcpPairs());
    assert k !in KeysOf(LibraryPairs(defaults));
    assert !IsRecorderKey(k);
  }

  /** The optimizer block runs only for a strategy the user chose, and then sets its epsilon. */
  lemma OptimizerOnlyForUserStrategy(user: ParametersMap, s: Settings, defaults: ParametersMap)
    requires HasLibraryDefaults(defaults)
    ensures OptimizerStrategy in RtabmapParameters(user, s, defaults) <==> OptimizerStrategy in user
    ensures OptimizerStrategy in user ==> OptimizerEpsilon in RtabmapParameters(user, s, defaults)
    ensures OptimizerStrategy !in user && OptimizerEpsilon !in user ==>
      OptimizerEpsilon !in RtabmapParameters(user, s, defaults)
  {
    hide RtabmapParameters, InsertedParameters, ApplicationPairs, IcpPairs, LibraryPairs;
    OptimizerKeysOnlyInBlock(s, defaults);
    var base := BaseParameters(user, s);
    assert OptimizerStrategy in base <==> OptimizerStrategy in user;
    assert OptimizerEpsilon in base <==> OptimizerEpsilon in user;
    if OptimizerStrategy in user {
      var block := OptimizerPairs(base[OptimizerStrategy], s.graphOptimization);
      assert block[0].0 == OptimizerEpsilon;
    }
    OptimizerKeyAfterBlock(user, s, defaults, OptimizerStrategy);
    OptimizerKeyAfterBlock(user, s, defaults, OptimizerEpsilon);
  }

  /** A parameter the registry no longer knows: whether its value moves to `replacement`. */
  datatype RemovedParameter = RemovedParameter(migrated: bool, replacement: Key)

  /** What `setMappingParameter` returns and leaves behind. */
  datatype ParameterUpdate = ParameterUpdate(
    code: int,
    parameters: ParametersMap,
    resetMapping: bool,
    posted: Option<ParametersMap>)

  /** The key a value is stored under: a removed key that can be migrated becomes its replacement. */
  function CompatibleKey(removed: map<Key, RemovedParameter>, key: Key): (k: Key)
    ensures key !in removed ==> k == key
    ensures key in removed && !removed[key].migrated ==> k == key
    ensures key in removed && removed[key].migrated ==> k == removed[key].replacement
  {
    if key in removed && removed[key].migrated then removed[key].replacement else key
  }

  /**
   * `setMappingParameter`: a key the registry knows (after migration) is
   * stored, overwriting, and the full parameter map is posted; changing
   * the feature detector also resets the map. Any other key returns -1
   * and changes nothing.
   */
  function SetMappingParameter(user: ParametersMap, s: Settings, defaults: ParametersMap,
                               removed: map<Key, RemovedParameter>, key: Key, value: string): (u: ParameterUpdate)
    requires HasLibraryDefaults(defaults)
    requires KpDetectorStrategy in user
    ensures u.code == 0 || u.code == -1
    ensures u.code == 0 <==> CompatibleKey(removed, key) in defaults
    ensures u.code == -1 ==> u.parameters == user && !u.resetMapping && u.posted == None
    ensures u.code == 0 ==>
      u.parameters == user[CompatibleKey(removed, key) := value] &&
      u.posted == Some(RtabmapParameters(u.parameters, s, defaults))
    ensures u.resetMapping <==>
      u.code == 0 && CompatibleKey(removed, key) == KpDetectorStrategy && user[KpDetectorStrategy] != value
    ensures KpDetectorStrategy in u.parameters
  {
    var k := CompatibleKey(removed, key);
    if k in defaults then
      var reset := k == KpDetectorStrategy && user[KpDetectorStrategy] != value;
      var p := user[k := value];
      ParameterUpdate(0, p, reset, Some(RtabmapParameters(p, s, defaults)))
    else
      ParameterUpdate(-1, user, false, None)
  }

  /** Setting a value and reading it back gives that value, under the migrated key. */
  lemma SetThenRead(user: ParametersMap, s: Settings, defaults: ParametersMap,
                    removed: map<Key, RemovedParameter>, key: Key, value: string)
    requires HasLibraryDefaults(defaults)
    requires KpDetectorStrategy in user
    requires CompatibleKey(removed, key) in defaults
    requires !(s.dataRecorderMode && IsRecorderKey(CompatibleKey(removed, key)))
    ensures RtabmapParameters(SetMappingParameter(user, s, defaults, removed, key, value).parameters, s, defaults)
      [CompatibleKey(removed, key)] == value
  {
    UserParametersWin(user[CompatibleKey(removed, key) := value], s, defaults, CompatibleKey(removed, key));
  }

  /** Setting the detector to the value it already has does not reset the map. */
  lemma SameDetectorNoReset(user: ParametersMap, s: Settings, defaults: ParametersMap,
                            removed: map<Key, RemovedParameter>)
    requires HasLibraryDefaults(defaults)
    requires KpDetectorStrategy in user
    ensures !SetMappingParameter(user, s, defaults, removed, KpDetectorStrategy, user[KpDetectorStrategy]).resetMapping
  {
  }
}
