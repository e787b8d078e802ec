/**
  One detected hand as the hand-landmark detector reports it: 21 normalised
  keypoints with fixed semantic indices. The detector is external; this module
  only fixes the shape of its output and the indices the gesture logic reads.
 */
module Landmarks {

  /** A normalised image-relative point; y grows downward. */
  datatype Landmark = Landmark(x: real, y: real, z: real)

  /** The detector always reports exactly this many landmarks per hand. */
  const LandmarksPerHand: nat := 21

  /** The landmark list of one hand. */
  type Hand = h: seq<Landmark> | |h| == LandmarksPerHand
    witness seq(LandmarksPerHand, _ => Landmark(0.0, 0.0, 0.0))

  // Landmark indices read by the gesture evaluator.
  const ThumbBase: nat := 2
  const ThumbTip: nat := 4
  const IndexPip: nat := 6
  const IndexTip: nat := 8
  const MiddleTip: nat := 12
  const RingTip: nat := 16
  const PinkyTip: nat := 20
}
