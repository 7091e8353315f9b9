/**
 * Vocoder lanes: the quantisation of link quality that decides which rendering
 * a listener is served, and the deadband applied to it while somebody talks.
 */
module Lanes {
  import opened Types

  const DECODE_FLOOR: Quality := 5
  const LANE_STEP: Quality := 5

  function LaneOf(quality: Quality): Quality
  {
    var q := if quality < 100 then quality else 100;
    if q <= DECODE_FLOOR then 0
    else ((q + LANE_STEP / 2) / LANE_STEP) * LANE_STEP
  }

  /** The `muted` field of the error profile: below the floor nothing decodes. */
  predicate Muted(quality: Quality)
  {
    quality <= DECODE_FLOOR
  }

  function LaneGap(a: Quality, b: Quality): nat
  {
    if LaneOf(a) >= LaneOf(b) then LaneOf(a) - LaneOf(b) else LaneOf(b) - LaneOf(a)
  }

  /** Boundary jitter rather than movement: exactly one lane apart, and not
      across the line between silence and audio. */
  predicate JittersOneLane(was: Quality, now: Quality)
  {
    Muted(LaneOf(was)) == Muted(LaneOf(now)) && LaneGap(was, now) == LANE_STEP
  }

  /** The most a listener's rendering may differ from what the node was told. */
  predicate NearLane(served: Quality, told: Quality)
  {
    LaneGap(served, told) <= LANE_STEP && Muted(LaneOf(served)) == Muted(LaneOf(told))
  }
}
