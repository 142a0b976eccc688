/**
 * The scene background colour that signals what the last SLAM update did:
 * a loop closure, a landmark, a rejected loop hypothesis, a rehearsal merge
 * or a too-fast movement. When paused, or when nothing happened, the
 * user's own colour is shown.
 */
module Background {
  import opened Events

  datatype BackgroundColor = Green | Orange | DarkGreen | Blue | DarkMagenta | UserColor

  /** The colour the mapping step of `Render` sets for the last mapping update. */
  function MappingBackground(stats: Statistics, paused: bool): (c: BackgroundColor)
    ensures paused ==> c == UserColor
    ensures c == Green <==> !paused && stats.loopClosureId > 0
    ensures c == Blue ==> stats.loopClosureId <= 0 && stats.landmarkDetected == 0 && stats.rejectedHypothesis <= 0
  {
    if !paused && stats.loopClosureId > 0 then Green
    else if !paused && stats.landmarkDetected != 0 then Orange
    else if !paused && stats.rejectedHypothesis > 0 then DarkGreen
    else if !paused && stats.rehearsalMerged > 0 then Blue
    else if !paused && stats.fastMovement != 0 then DarkMagenta
    else UserColor
  }

  /** The colour the mesh-visualization step of `Render` sets; it has no rehearsal colour. */
  function VisualizationBackground(stats: Statistics, paused: bool): (c: BackgroundColor)
    ensures c != Blue
    ensures paused ==> c == UserColor
    ensures c == Green <==> !paused && stats.loopClosureId > 0
  {
    if !paused && stats.loopClosureId > 0 then Green
    else if !paused && stats.landmarkDetected != 0 then Orange
    else if !paused && stats.rejectedHypothesis > 0 then DarkGreen
    else if !paused && stats.fastMovement != 0 then DarkMagenta
    else UserColor
  }

  /** The signal an update raises, by decreasing priority; each fires only if no earlier one does. */
  predicate Signals(stats: Statistics, c: BackgroundColor)
  {
    match c
    case Green => stats.loopClosureId > 0
    case Orange => stats.loopClosureId <= 0 && stats.landmarkDetected != 0
    case DarkGreen => stats.loopClosureId <= 0 && stats.landmarkDetected == 0 && stats.rejectedHypothesis > 0
    case Blue => stats.loopClosureId <= 0 && stats.landmarkDetected == 0 && stats.rejectedHypothesis <= 0
                 && stats.rehearsalMerged > 0
    case DarkMagenta => stats.loopClosureId <= 0 && stats.landmarkDetected == 0 && stats.rejectedHypothesis <= 0
                        && stats.rehearsalMerged <= 0 && stats.fastMovement != 0
    case UserColor => stats.loopClosureId <= 0 && stats.landmarkDetected == 0 && stats.rejectedHypothesis <= 0
                      && stats.rehearsalMerged <= 0 && stats.fastMovement == 0
  }

  /** While running, the mapping colour is the one signal the update raises (exactly one always does). */
  lemma MappingBackgroundIsSignal(stats: Statistics, c: BackgroundColor)
    ensures Signals(stats, c) <==> MappingBackground(stats, false) == c
  {
  }

  /** The two steps agree on every update without a rehearsal merge. */
  lemma BackgroundsAgreeWithoutRehearsal(stats: Statistics, paused: bool)
    requires stats.rehearsalMerged <= 0
    ensures MappingBackground(stats, paused) == VisualizationBackground(stats, paused)
  {
  }

  /** A rehearsal merge only shows (as blue) in the mapping step, where visualization shows magenta or the user colour. */
  lemma RehearsalOnlyInMapping(stats: Statistics)
    requires MappingBackground(stats, false) == Blue
    ensures VisualizationBackground(stats, false) == (if stats.fastMovement != 0 then DarkMagenta else UserColor)
  {
  }
}
