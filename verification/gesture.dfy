/**
  The gesture evaluator: from one hand's landmarks, decide which finger slots
  are "pressing" for the piano and whether the index finger is "curled" for the
  synthesizer. Pure threshold comparisons, no smoothing or hysteresis.
 */
module Gesture {
  import opened Landmarks

  /** Number of piano finger slots (thumb, index, middle, ring, pinky). */
  const PianoSlots: nat := 5

  /** The landmark each piano slot tracks, in slot order. */
  const FingerTips: seq<nat> := [ThumbTip, IndexTip, MiddleTip, RingTip, PinkyTip]

  /**
    The per-slot vertical thresholds. The thumb's entry (0.5) is declared but
    never read: the thumb uses the horizontal curl test instead, and the thumb's
    declared horizontal range (0.0 .. 0.4) is never read either.
   */
  const PianoThresholdsY: seq<real> := [0.5, 0.6, 0.6, 0.6, 0.55]

  /** How far left of its base the thumb tip must be to count as curled in. */
  const ThumbCurlTolerance: real := 0.02

  /** How far above its PIP joint the index tip must be for the synthesizer. */
  const SynthCurlMargin: real := 0.05

  /** Whether piano slot `i` is pressing on hand `h`. */
  predicate SlotPressing(h: Hand, i: nat)
    requires i < PianoSlots
  {
    if i == 0 then h[ThumbTip].x < h[ThumbBase].x - ThumbCurlTolerance
    else h[FingerTips[i]].y > PianoThresholdsY[i]
  }

  /**
    The five piano booleans, one per slot. Each is stated with the landmark
    and the constant the slot actually compares against.
   */
  function PianoPressing(h: Hand): (p: seq<bool>)
    ensures |p| == PianoSlots
    ensures p[0] <==> h[4].x < h[2].x - 0.02
    ensures p[1] <==> h[8].y > 0.6
    ensures p[2] <==> h[12].y > 0.6
    ensures p[3] <==> h[16].y > 0.6
    ensures p[4] <==> h[20].y > 0.55
  {
    seq(PianoSlots, i requires 0 <= i < PianoSlots => SlotPressing(h, i))
  }

  /** The synthesizer's single test: index tip well above its PIP joint. */
  function SynthCurled(h: Hand): (c: bool)
    ensures c <==> h[8].y < h[6].y - 0.05
  {
    h[IndexTip].y < h[IndexPip].y - SynthCurlMargin
  }

  /** Two hands that agree on the x of landmarks 2 and 4 agree on the thumb
      slot, whatever their y coordinates: the thumb's y threshold is unused. */
  lemma ThumbIgnoresVertical(h: Hand, g: Hand)
    requires h[ThumbTip].x == g[ThumbTip].x && h[ThumbBase].x == g[ThumbBase].x
    ensures PianoPressing(h)[0] == PianoPressing(g)[0]
  {
  }

  /** Each finger slot 1..4 depends only on its own tip's y coordinate. */
  lemma FingerSlotReadsOnlyItsTip(h: Hand, g: Hand, i: nat)
    requires 1 <= i < PianoSlots
    requires h[FingerTips[i]].y == g[FingerTips[i]].y
    ensures PianoPressing(h)[i] == PianoPressing(g)[i]
  {
  }
}
