/**
 * The buffers between the event thread and the render thread: the latest
 * camera pose, the latest odometry update, and the SLAM results, kept in
 * one list for mapping and another while an exported mesh is visualized.
 * The producer (`handleEvent`) may skip a buffer whose try-lock fails;
 * the consumer (the head of `Render`) drains a buffer completely.
 */
module EventInbox {
  import opened Wrappers
  import opened Geometry
  import opened Events

  /** The four buffers. */
  datatype InboxState = InboxState(
    poseEvents: seq<Transform>,
    odomEvents: seq<OdometryEvent>,
    rtabmapEvents: seq<Statistics>,
    visLocalizationEvents: seq<Statistics>)

  /**
   * What `handleEvent` observes besides the event: whether a camera is
   * running when the event arrives and when each buffer is written (it is
   * asked again, since it can stop meanwhile), whether the SLAM back end
   * is initialized, whether an exported mesh is being visualized, and
   * whether each try-lock succeeds.
   */
  datatype Context = Context(
    cameraRunning: bool,
    runningAtOdometryPush: bool,
    runningAtMappingPush: bool,
    initialized: bool,
    visualizingMesh: bool,
    odomLockFree: bool,
    poseLockFree: bool)

  /** Latest-wins buffers never hold more than one sample. */
  predicate LatestWins(st: InboxState)
  {
    |st.poseEvents| <= 1 && |st.odomEvents| <= 1
  }

  /** The odometry buffer after an event. */
  function OdomAfter(st: InboxState, ev: Event, ctx: Context): seq<OdometryEvent>
  {
    if ctx.cameraRunning && ev.OdometryEv? && ctx.odomLockFree then
      if ctx.runningAtOdometryPush then [ev.odom] else []
    else st.odomEvents
  }

  /** Whether a SLAM result is taken over by the application. */
  predicate MappingAccepted(ev: Event, ctx: Context)
  {
    ctx.cameraRunning && ctx.initialized && ev.MappingEv? && ctx.runningAtMappingPush
  }

  /** The pose buffer after an event; it is written whether or not a camera runs. */
  function PoseAfter(st: InboxState, ev: Event, ctx: Context): seq<Transform>
  {
    if ev.PoseEv? && ctx.poseLockFree then [ev.pose] else st.poseEvents
  }

  /** `handleEvent`: the buffers after one event, and whether the event was consumed. */
  function HandleStep(st: InboxState, ev: Event, ctx: Context): (r: (InboxState, bool))
    ensures r.1 <==> MappingAccepted(ev, ctx)
    ensures LatestWins(st) ==> LatestWins(r.0)
  {
    if MappingAccepted(ev, ctx) then
      if ctx.visualizingMesh then
        (st.(visLocalizationEvents := st.visLocalizationEvents + [ev.stats]), true)
      else
        (st.(rtabmapEvents := st.rtabmapEvents + [ev.stats]), true)
    else
      (st.(odomEvents := OdomAfter(st, ev, ctx), poseEvents := PoseAfter(st, ev, ctx)), false)
  }

  /** A successful pose or odometry push leaves exactly the new sample. */
  lemma PushLeavesOne(st: InboxState, ev: Event, ctx: Context)
    ensures ev.PoseEv? && ctx.poseLockFree ==> HandleStep(st, ev, ctx).0.poseEvents == [ev.pose]
    ensures ev.OdometryEv? && ctx.cameraRunning && ctx.odomLockFree && ctx.runningAtOdometryPush ==>
      HandleStep(st, ev, ctx).0.odomEvents == [ev.odom]
  {
  }

  /** A failed try-lock, or a stopped camera for odometry, leaves the buffer as it was. */
  lemma BlockedPushKeepsBuffer(st: InboxState, ev: Event, ctx: Context)
    ensures !ctx.poseLockFree ==> HandleStep(st, ev, ctx).0.poseEvents == st.poseEvents
    ensures !ctx.odomLockFree || !ctx.cameraRunning ==> HandleStep(st, ev, ctx).0.odomEvents == st.odomEvents
  {
  }

  /** A camera that stops between the two checks empties the odometry buffer without refilling it. */
  lemma StoppedBeforePushClears(st: InboxState, ev: Event, ctx: Context)
    requires ev.OdometryEv? && ctx.cameraRunning && ctx.odomLockFree && !ctx.runningAtOdometryPush
    ensures HandleStep(st, ev, ctx).0.odomEvents == []
  {
  }

  /**
   * SLAM results are appended in arrival order to exactly one list, chosen
   * by whether a mesh is visualized; nothing else changes.
   */
  lemma MappingAppends(st: InboxState, ev: Event, ctx: Context)
    requires MappingAccepted(ev, ctx)
    ensures var r := HandleStep(st, ev, ctx).0;
      r.poseEvents == st.poseEvents && r.odomEvents == st.odomEvents &&
      (ctx.visualizingMesh ==>
        r.visLocalizationEvents == st.visLocalizationEvents + [ev.stats] && r.rtabmapEvents == st.rtabmapEvents) &&
      (!ctx.visualizingMesh ==>
        r.rtabmapEvents == st.rtabmapEvents + [ev.stats] && r.visLocalizationEvents == st.visLocalizationEvents)
  {
  }

  /** The SLAM-result lists only grow: a list is never shortened by an event. */
  lemma ResultListsOnlyGrow(st: InboxState, ev: Event, ctx: Context)
    ensures var r := HandleStep(st, ev, ctx).0;
      st.rtabmapEvents <= r.rtabmapEvents && st.visLocalizationEvents <= r.visLocalizationEvents
  {
  }

  /** The sample a latest-wins buffer yields: its last element. */
  function Latest<T>(buffer: seq<T>): (r: Option<T>)
    ensures r.None? <==> buffer == []
    ensures r.Some? ==> r.value in buffer && r.value == buffer[|buffer| - 1]
  {
    if buffer == [] then None else Some(buffer[|buffer| - 1])
  }

  /** A pose pushed with a free lock is the one the next render takes. */
  lemma PoseRoundTrip(st: InboxState, p: Transform, ctx: Context)
    requires ctx.poseLockFree
    ensures Latest(HandleStep(st, PoseEv(p), ctx).0.poseEvents) == Some(p)
  {
  }

  /** The buffers as an object shared by the event thread and the render thread. */
  class Inbox {
    var poseEvents: seq<Transform>
    var odomEvents: seq<OdometryEvent>
    var rtabmapEvents: seq<Statistics>
    var visLocalizationEvents: seq<Statistics>

    function State(): InboxState
      reads this
    {
      InboxState(poseEvents, odomEvents, rtabmapEvents, visLocalizationEvents)
    }

    constructor()
      ensures State() == InboxState([], [], [], [])
    {
      poseEvents := [];
      odomEvents := [];
      rtabmapEvents := [];
      visLocalizationEvents := [];
    }

    /** `handleEvent` for the buffered classes of event. */
    method HandleEvent(ev: Event, ctx: Context) returns (handled: bool)
      modifies this
      ensures (State(), handled) == HandleStep(old(State()), ev, ctx)
    {
      handled := false;
      if ctx.cameraRunning {
        if ev.OdometryEv? {
          if ctx.odomLockFree {
            odomEvents := [];
            if ctx.runningAtOdometryPush {
              odomEvents := [ev.odom];
            }
          }
        }
        if ctx.initialized && ev.MappingEv? {
          if ctx.runningAtMappingPush {
            if ctx.visualizingMesh {
              visLocalizationEvents := visLocalizationEvents + [ev.stats];
            } else {
              rtabmapEvents := rtabmapEvents + [ev.stats];
            }
            handled := true;
            return;
          }
        }
      }
      if ev.PoseEv? {
        if ctx.poseLockFree {
          poseEvents := [ev.pose];
        }
      }
    }

    /** The render thread takes the latest pose and empties the buffer. */
    method TakePose() returns (pose: Option<Transform>)
      modifies this
      ensures pose == Latest(old(poseEvents))
      ensures State() == old(State()).(poseEvents := [])
    {
      pose := None;
      if |poseEvents| > 0 {
        pose := Some(poseEvents[|poseEvents| - 1]);
        poseEvents := [];
      }
    }

    /** The render thread takes the latest odometry update and empties the buffer. */
    method TakeOdometry() returns (odom: Option<OdometryEvent>)
      modifies this
      ensures odom == Latest(old(odomEvents))
      ensures State() == old(State()).(odomEvents := [])
    {
      odom := None;
      if |odomEvents| > 0 {
        odom := Some(odomEvents[|odomEvents| - 1]);
        odomEvents := [];
      }
    }

    /** The render thread takes every pending mapping result, oldest first. */
    method DrainRtabmapEvents() returns (events: seq<Statistics>)
      modifies this
      ensures events == old(rtabmapEvents)
      ensures State() == old(State()).(rtabmapEvents := [])
    {
      events := rtabmapEvents;
      rtabmapEvents := [];
    }

    /** The render thread takes every pending visualization result, oldest first. */
    method DrainVisLocalizationEvents() returns (events: seq<Statistics>)
      modifies this
      ensures events == old(visLocalizationEvents)
      ensures State() == old(State()).(visLocalizationEvents := [])
    {
      events := visLocalizationEvents;
      visLocalizationEvents := [];
    }

    /** The application posts a mapping result of its own (after post-processing). */
    method PostRtabmapEvent(st: Statistics)
      modifies this
      ensures State() == old(State()).(rtabmapEvents := old(rtabmapEvents) + [st])
    {
      rtabmapEvents := rtabmapEvents + [st];
    }

    /** Clearing the scene forgets the pending pose and odometry samples. */
    method ClearSamples()
      modifies this
      ensures State() == old(State()).(poseEvents := [], odomEvents := [])
    {
      poseEvents := [];
      odomEvents := [];
    }
  }
}
