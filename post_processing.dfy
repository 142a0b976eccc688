/**
 * `postProcessing(approach)`: the optional loop-closure search and graph
 * optimization, the mapping result it posts to update the shown graph, and
 * the deferred jobs it queues for the next mapping frame. The approaches:
 * -1 full post-processing (more loop closures with progress, graph
 * optimization, polygon filter, fast gains), 1 bundle adjustment with g2o,
 * 2 more loop closures, 4 polygon filter, 5 fast gains, 6 full gains,
 * 7 bilateral smoothing; any other value only re-reads the optimized graph.
 */
module PostProcessing {
  import opened Wrappers
  import opened Geometry
  import opened Events
  import opened RenderSpec

  /**
   * What the SLAM back end answers: whether it exists, the count that
   * `detectMoreLoopClosures` returns (negative on failure), whether the
   * user cancelled that search, whether the g2o optimizer is built in, the
   * optimized graph `getGraph` returns, the poses that bundle adjustment
   * returns for it, and the back end's current statistics.
   */
  datatype Backend = Backend(
    present: bool,
    detected: int,
    detectionCanceled: bool,
    g2oAvailable: bool,
    graphPoses: map<int, Transform>,
    graphLinks: seq<Link>,
    bundlePoses: map<int, Transform>,
    statistics: Statistics)

  /** The returned value, the jobs queued afterwards and the mapping result posted, if any. */
  datatype PostProcessed = PostProcessed(value: int, jobs: Jobs, event: Option<Statistics>)

  /** The approaches that first search for more loop closures. */
  predicate DetectsLoops(approach: int)
  {
    approach == -1 || approach == 2
  }

  /** The approaches that only queue a job and leave the graph alone. */
  predicate SkipsGraph(approach: int)
  {
    approach == 4 || approach == 5 || approach == 7
  }

  /** The approaches that queue a job for the next frame. */
  predicate QueuesJob(approach: int)
  {
    approach == -1 || approach == 4 || approach == 5 || approach == 6 || approach == 7
  }

  /** The graph the optimization stage yields, given the value after the loop-closure search. */
  function GraphStage(approach: int, value: int, b: Backend): (map<int, Transform>, seq<Link>)
  {
    if value < 0 then (map[], [])
    else if approach == 1 then (if b.g2oAvailable then (b.bundlePoses, b.graphLinks) else (map[], []))
    else if !SkipsGraph(approach) then (b.graphPoses, b.graphLinks)
    else (map[], [])
  }

  /**
   * The jobs a successful post-processing adds to the pending ones, which it
   * keeps: -1 and 4 the polygon filter, -1 and 5 fast gains, 6 full gains
   * (replacing any gain mode pending), 7 bilateral smoothing; the other
   * approaches queue nothing.
   */
  function Scheduled(approach: int, jobs: Jobs): (r: Jobs)
    ensures r.filterPolygons <==> jobs.filterPolygons || approach == -1 || approach == 4
    ensures r.gainCompensation == if approach == 6 then 2 else if approach == -1 || approach == 5 then 1 else jobs.gainCompensation
    ensures r.bilateralFiltering <==> jobs.bilateralFiltering || approach == 7
    ensures !QueuesJob(approach) ==> r == jobs
  {
    var j1 := if approach == -1 || approach == 4 then jobs.(filterPolygons := true) else jobs;
    var j2 := if approach == -1 || approach == 5 || approach == 6 then j1.(gainCompensation := if approach == 6 then 2 else 1) else j1;
    if approach == 7 then j2.(bilateralFiltering := true) else j2
  }

  /**
   * `postProcessing(approach)` against the back end `b` while `jobs` are
   * pending. Without a back end nothing happens; with one, jobs are queued
   * exactly when the value is not negative; a mapping result is posted only
   * with a graph that has poses, the rest of it being the back end's
   * statistics; the value is -1, 0 or the number of loop closures found.
   */
  function PostProcess(approach: int, b: Backend, jobs: Jobs): (r: PostProcessed)
    ensures !b.present ==> r == PostProcessed(0, jobs, None)
    ensures b.present ==> r.jobs == if r.value >= 0 then Scheduled(approach, jobs) else jobs
    ensures r.event.Some? ==>
      |r.event.value.poses| > 0 && r.event.value == b.statistics.(poses := r.event.value.poses, constraints := r.event.value.constraints)
    ensures r.value == -1 || r.value == 0 || (DetectsLoops(approach) && r.value == b.detected && b.detected > 0)
  {
    if !b.present then PostProcessed(0, jobs, None)
    else if approach == -1 && b.detectionCanceled then PostProcessed(-1, jobs, None)
    else
      var v0 := if DetectsLoops(approach) then b.detected else 0;
      var g := GraphStage(approach, v0, b);
      var ev := if |g.0| > 0 then Some(b.statistics.(poses := g.0, constraints := g.1)) else None;
      var v := if |g.0| == 0 && !SkipsGraph(approach) then -1 else v0;
      PostProcessed(v, if v >= 0 then Scheduled(approach, jobs) else jobs, ev)
  }

  /**
   * The approaches one by one: cancelling the full post-processing and a
   * failed loop-closure search return -1 and change nothing; the job-only
   * approaches always succeed without posting a result; bundle adjustment
   * without g2o fails; every other approach succeeds exactly when the
   * optimized graph is not empty, and then posts it.
   */
  lemma ApproachOutcomes(approach: int, b: Backend, jobs: Jobs)
    requires b.present
    ensures var r := PostProcess(approach, b, jobs);
      (approach == -1 && b.detectionCanceled ==> r == PostProcessed(-1, jobs, None)) &&
      (DetectsLoops(approach) && b.detected < 0 ==> r == PostProcessed(-1, jobs, None)) &&
      (SkipsGraph(approach) ==> r == PostProcessed(0, Scheduled(approach, jobs), None)) &&
      (approach == 1 && !b.g2oAvailable ==> r == PostProcessed(-1, jobs, None)) &&
      (approach == 1 && b.g2oAvailable ==>
        (r.value >= 0 <==> |b.bundlePoses| > 0) &&
        (r.event.Some? <==> |b.bundlePoses| > 0)) &&
      (approach != 1 && !SkipsGraph(approach) && !(approach == -1 && b.detectionCanceled) &&
       !(DetectsLoops(approach) && b.detected < 0) ==>
        (r.value >= 0 <==> |b.graphPoses| > 0) &&
        (r.event.Some? <==> |b.graphPoses| > 0) &&
        (r.event.Some? ==> r.event.value.poses == b.graphPoses && r.event.value.constraints == b.graphLinks))
  {
  }

  /**
   * Every job a successful post-processing queues is carried out by the next
   * mapping frame that runs the jobs, unless gain compensation throws there;
   * the polygon filter waits while the cluster ratio is 0.
   */
  lemma QueuedJobsRun(approach: int, b: Backend, jobs: Jobs, s: AppState, opts: Options, env: Surroundings)
    requires Consistent(s) && b.present
    requires s.jobs == PostProcess(approach, b, jobs).jobs
    requires PostProcess(approach, b, jobs).value >= 0 && QueuesJob(approach)
    requires approach == 4 ==> opts.clusterRatio > 0.0
    ensures var j := RunJobs(s, opts, env);
      !j.failed ==>
        j.notify && j.state.jobs.gainCompensation <= 0 && !j.state.jobs.bilateralFiltering &&
        (approach == 4 || approach == -1 ==> j.state.jobs.filterPolygons == (opts.clusterRatio <= 0.0))
  {
    JobsConsumed(s, opts, env);
  }
}
