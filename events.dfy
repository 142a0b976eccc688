/**
 * The messages the SLAM back end, the odometry and the camera deliver to
 * the application, reduced to the fields the application reads.
 */
module Events {
  import opened Geometry

  /** The kind of a graph link; the application only tells neighbour links from the rest. */
  datatype LinkType = Neighbor | NeighborMerged | LoopClosure | UserClosure | OtherLink

  /** A graph constraint between two nodes. */
  datatype Link = Link(from: int, to: int, kind: LinkType)

  /**
   * The statistics of one SLAM update: the reference image id, the node
   * just added and its data and pose, the memory/loop flags (already cast to
   * integers), the optimized poses (markers have negative ids), the graph
   * constraints and the map-to-odometry correction.
   */
  datatype Statistics = Statistics(
    refImageId: int,
    lastSignatureId: int,
    lastSignatureData: SensorData,
    lastSignaturePose: Transform,
    smallMovement: int,
    fastMovement: int,
    rehearsalMerged: int,
    loopClosureId: int,
    rejectedHypothesis: int,
    landmarkDetected: int,
    poses: map<int, Transform>,
    constraints: seq<Link>,
    mapCorrection: Transform)

  /** An odometry update: the camera pose and the frame it was computed from. */
  datatype OdometryEvent = OdometryEvent(pose: Transform, data: SensorData)

  /** The events the application buffers; every other class of event is `OtherEvent`. */
  datatype Event =
    | OdometryEv(odom: OdometryEvent)
    | MappingEv(stats: Statistics)
    | PoseEv(pose: Transform)
    | OtherEvent
}
