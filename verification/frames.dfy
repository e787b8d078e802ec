/**
  The per-frame entry point onResults and runs of consecutive frames under one
  instrument. The gesture logic runs only when the detector reported a hand
  list and the page's drawing helpers are loaded; then every hand is processed
  in order against the same shared flags.
 */
module Frames {
  import opened Wrappers
  import opened Landmarks
  import opened Gesture
  import opened Instruments
  import opened Trigger

  /** Presence of the three drawing globals the frame guard tests. */
  datatype DrawingGlobals = DrawingGlobals(drawConnectors: bool, drawLandmarks: bool, handConnections: bool) {
    predicate Loaded() {
      drawConnectors && drawLandmarks && handConnections
    }
  }

  /** One detector callback: its hand list, if any, and the globals seen at that moment. */
  datatype Frame = Frame(multiHandLandmarks: Option<seq<Hand>>, globals: DrawingGlobals)

  /** The frame guard: a hand list is present and the drawing helpers are loaded. */
  predicate GestureRuns(f: Frame) {
    f.multiHandLandmarks.Some? && f.globals.Loaded()
  }

  /** The hands the gesture logic processes in frame `f`. */
  function SeenHands(f: Frame): seq<Hand> {
    if GestureRuns(f) then f.multiHandLandmarks.value else []
  }

  /** Slot `i`'s pressing values observed during frame `f`. */
  function FrameObs(instrument: string, f: Frame, i: nat): seq<bool>
    requires i < SlotCount(instrument)
  {
    Observations(instrument, SeenHands(f), i)
  }

  /**
    The gesture part of onResults. A frame the guard rejects changes no flag
    and plays nothing; otherwise each slot plays once per rising edge across
    the frame's hands and ends as the last hand left it.
   */
  function OnResults(s: TriggerState, instrument: string, f: Frame): (r: StepResult)
    ensures !GestureRuns(f) ==> r.state == s && r.plays == []
    ensures forall i :: 0 <= i < SlotCount(instrument) ==>
      Flag(r.state, instrument, i) == Settle(Flag(s, instrument, i), FrameObs(instrument, f, i))
    ensures forall i :: 0 <= i < SlotCount(instrument) ==>
      multiset(r.plays)[Play(instrument, NoteOf(instrument, i))] ==
        Rises(Flag(s, instrument, i), FrameObs(instrument, f, i))
    ensures forall p :: p in r.plays ==> IsSlotPlay(instrument, p)
    ensures OthersUnchanged(s, r.state, instrument)
  {
    if GestureRuns(f) then StepHands(s, instrument, f.multiHandLandmarks.value)
    else StepResult(s, [])
  }

  /** Slot `i`'s pressing values over a run of frames, frame after frame. */
  function RunObs(instrument: string, frames: seq<Frame>, i: nat): seq<bool>
    requires i < SlotCount(instrument)
    decreases |frames|
  {
    if |frames| == 0 then []
    else FrameObs(instrument, frames[0], i) + RunObs(instrument, frames[1..], i)
  }

  lemma {:induction false} SettleAppend(prev: bool, a: seq<bool>, b: seq<bool>)
    ensures Settle(prev, a + b) == Settle(Settle(prev, a), b)
  {
  }

  /** Edges of a concatenated signal are the edges of each part, the second part
      starting from where the first settled. */
  lemma {:induction false} RisesAppend(prev: bool, a: seq<bool>, b: seq<bool>)
    ensures Rises(prev, a + b) == Rises(prev, a) + Rises(Settle(prev, a), b)
    decreases |a|
  {
    if |a| == 0 {
      assert a + b == b;
    } else {
      assert (a + b)[1..] == a[1..] + b;
      RisesAppend(a[0], a[1..], b);
      if |a| > 1 {
        assert Settle(a[0], a[1..]) == Settle(prev, a);
      }
    }
  }

  /**
    A run of frames under one instrument. Each slot plays once per rising edge
    of everything it observed over the whole run, and ends as the last
    observation left it.
   */
  function Run(s: TriggerState, instrument: string, frames: seq<Frame>): (r: StepResult)
    ensures forall i :: 0 <= i < SlotCount(instrument) ==>
      Flag(r.state, instrument, i) == Settle(Flag(s, instrument, i), RunObs(instrument, frames, i))
    ensures forall i :: 0 <= i < SlotCount(instrument) ==>
      multiset(r.plays)[Play(instrument, NoteOf(instrument, i))] ==
        Rises(Flag(s, instrument, i), RunObs(instrument, frames, i))
    ensures forall p :: p in r.plays ==> IsSlotPlay(instrument, p)
    ensures OthersUnchanged(s, r.state, instrument)
    decreases |frames|
  {
    if |frames| == 0 then StepResult(s, [])
    else
      var a := OnResults(s, instrument, frames[0]);
      var b := Run(a.state, instrument, frames[1..]);
      RunSplit(s, instrument, frames);
      assert multiset(a.plays + b.plays) == multiset(a.plays) + multiset(b.plays);
      StepResult(b.state, a.plays + b.plays)
  }

  lemma RunSplit(s: TriggerState, instrument: string, frames: seq<Frame>)
    requires |frames| > 0
    ensures forall i :: 0 <= i < SlotCount(instrument) ==>
      var prev := Flag(s, instrument, i);
      var a := FrameObs(instrument, frames[0], i);
      var b := RunObs(instrument, frames[1..], i);
      && Settle(prev, a + b) == Settle(Settle(prev, a), b)
      && Rises(prev, a + b) == Rises(prev, a) + Rises(Settle(prev, a), b)
  {
    forall i | 0 <= i < SlotCount(instrument)
      ensures var prev := Flag(s, instrument, i);
        var a := FrameObs(instrument, frames[0], i);
        var b := RunObs(instrument, frames[1..], i);
        && Settle(prev, a + b) == Settle(Settle(prev, a), b)
        && Rises(prev, a + b) == Rises(prev, a) + Rises(Settle(prev, a), b)
    {
      var prev := Flag(s, instrument, i);
      var a := FrameObs(instrument, frames[0], i);
      var b := RunObs(instrument, frames[1..], i);
      SettleAppend(prev, a, b);
      RisesAppend(prev, a, b);
    }
  }

  /** Every observation in `obs` is pressing. */
  predicate AllPressing(obs: seq<bool>) {
    forall k :: 0 <= k < |obs| ==> obs[k]
  }

  /** No observation in `obs` is pressing. */
  predicate AllReleased(obs: seq<bool>) {
    forall k :: 0 <= k < |obs| ==> !obs[k]
  }

  /** A signal that stays high has one rising edge, at its start, unless it was already high. */
  lemma {:induction false} RisesHeld(prev: bool, obs: seq<bool>)
    requires AllPressing(obs)
    ensures Rises(prev, obs) == (if |obs| > 0 && !prev then 1 else 0)
    decreases |obs|
  {
    if |obs| > 0 {
      RisesHeld(true, obs[1..]);
    }
  }

  /** A signal that stays low has no rising edge. */
  lemma {:induction false} RisesReleased(prev: bool, obs: seq<bool>)
    requires AllReleased(obs)
    ensures Rises(prev, obs) == 0
    decreases |obs|
  {
    if |obs| > 0 {
      RisesReleased(false, obs[1..]);
    }
  }

  /**
    Holding a press: over a run of frames in which slot `i` is seen pressing
    every time (the first frame seeing it at least once), the slot's note is
    played on the first frame only, once if the slot had been released before
    the run and never if it was already held.
   */
  lemma HoldingPlaysOnce(s: TriggerState, instrument: string, i: nat, frames: seq<Frame>)
    requires i < SlotCount(instrument)
    requires |frames| > 0 && |FrameObs(instrument, frames[0], i)| > 0
    requires AllPressing(RunObs(instrument, frames, i))
    ensures var note := Play(instrument, NoteOf(instrument, i));
      var first := OnResults(s, instrument, frames[0]);
      && multiset(first.plays)[note] == (if Flag(s, instrument, i) then 0 else 1)
      && Flag(first.state, instrument, i)
      && multiset(Run(first.state, instrument, frames[1..]).plays)[note] == 0
      && multiset(Run(s, instrument, frames).plays)[note] == (if Flag(s, instrument, i) then 0 else 1)
  {
    var a := FrameObs(instrument, frames[0], i);
    var b := RunObs(instrument, frames[1..], i);
    assert RunObs(instrument, frames, i) == a + b;
    HeldSignal(Flag(s, instrument, i), a, b);
  }

  /** A high signal split in two: all its edge, if any, is in the first part. */
  lemma HeldSignal(prev: bool, a: seq<bool>, b: seq<bool>)
    requires |a| > 0 && AllPressing(a + b)
    ensures Rises(prev, a) == (if prev then 0 else 1)
    ensures Settle(prev, a)
    ensures Rises(true, b) == 0
    ensures Rises(prev, a + b) == (if prev then 0 else 1)
  {
    assert forall k :: 0 <= k < |a| ==> a[k] == (a + b)[k];
    assert forall k :: 0 <= k < |b| ==> b[k] == (a + b)[|a| + k];
    RisesHeld(prev, a);
    RisesHeld(true, b);
    RisesHeld(prev, a + b);
  }

  /**
    Release and press again: a frame in which slot `i` is seen only released
    clears its flag and plays nothing; a following frame in which it is seen
    only pressing plays the note exactly once.
   */
  lemma ReleaseThenPress(s: TriggerState, instrument: string, i: nat, released: Frame, pressed: Frame)
    requires i < SlotCount(instrument)
    requires |FrameObs(instrument, released, i)| > 0 && AllReleased(FrameObs(instrument, released, i))
    requires |FrameObs(instrument, pressed, i)| > 0 && AllPressing(FrameObs(instrument, pressed, i))
    ensures var note := Play(instrument, NoteOf(instrument, i));
      var a := OnResults(s, instrument, released);
      && !Flag(a.state, instrument, i)
      && multiset(a.plays)[note] == 0
      && multiset(OnResults(a.state, instrument, pressed).plays)[note] == 1
  {
    RisesReleased(Flag(s, instrument, i), FrameObs(instrument, released, i));
    RisesHeld(false, FrameObs(instrument, pressed, i));
  }

  /**
    Two hands share the flags: when in every frame the first hand presses
    slot `i` and the second does not, the note is played again on every
    frame, although neither hand ever released or re-pressed.
   */
  lemma {:induction false} CrossHandRetrigger(s: TriggerState, instrument: string, i: nat, frames: seq<Frame>)
    requires i < SlotCount(instrument) && !Flag(s, instrument, i)
    requires forall k :: 0 <= k < |frames| ==> FrameObs(instrument, frames[k], i) == [true, false]
    ensures multiset(Run(s, instrument, frames).plays)[Play(instrument, NoteOf(instrument, i))] == |frames|
  {
    AlternatingRises(instrument, i, frames);
  }

  lemma {:induction false} AlternatingRises(instrument: string, i: nat, frames: seq<Frame>)
    requires i < SlotCount(instrument)
    requires forall k :: 0 <= k < |frames| ==> FrameObs(instrument, frames[k], i) == [true, false]
    ensures Rises(false, RunObs(instrument, frames, i)) == |frames|
    decreases |frames|
  {
    if |frames| > 0 {
      AlternatingRises(instrument, i, frames[1..]);
      RisesAppend(false, [true, false], RunObs(instrument, frames[1..], i));
    }
  }

  /** When every play is `p` and `p` is played once, the plays are exactly `[p]`. */
  lemma {:induction false} SinglePlay(plays: seq<Play>, p: Play)
    requires forall q :: q in plays ==> q == p
    requires multiset(plays)[p] == 1
    ensures plays == [p]
  {
    forall q | q != p
      ensures multiset(plays)[q] == 0
    {
      assert q !in plays;
    }
    assert multiset(plays) == multiset{p};
    assert |plays| == |multiset(plays)| == 1;
    assert plays[0] in plays;
  }

  /** Slot plays none of whose notes is counted form the empty sequence. */
  lemma NoCountsNoPlays(instrument: string, plays: seq<Play>)
    requires forall q :: q in plays ==> IsSlotPlay(instrument, q)
    requires forall j :: 0 <= j < SlotCount(instrument) ==>
      multiset(plays)[Play(instrument, NoteOf(instrument, j))] == 0
    ensures plays == []
  {
    forall q
      ensures multiset(plays)[q] == 0
    {
      if IsSlotPlay(instrument, q) {
        var j :| 0 <= j < |Notes(instrument)| && Notes(instrument)[j] == q.note;
        assert q == Play(instrument, NoteOf(instrument, j));
      }
    }
    assert multiset(plays) == multiset{};
  }

  /** Only the slots whose count is non-zero contribute plays. */
  lemma PlaysAreCounted(instrument: string, plays: seq<Play>, p: Play)
    requires forall q :: q in plays ==> IsSlotPlay(instrument, q)
    requires forall j :: 0 <= j < SlotCount(instrument) && Play(instrument, NoteOf(instrument, j)) != p ==>
      multiset(plays)[Play(instrument, NoteOf(instrument, j))] == 0
    ensures forall q :: q in plays ==> q == p
  {
    forall q | q in plays
      ensures q == p
    {
      var j :| 0 <= j < |Notes(instrument)| && Notes(instrument)[j] == q.note;
      assert q == Play(instrument, NoteOf(instrument, j));
    }
  }

  /** A hand at rest except for the index tip, whose height is `indexTipY`. */
  function IndexOnlyHand(indexTipY: real): (h: Hand)
    ensures PianoPressing(h) == [false, indexTipY > 0.6, false, false, false]
  {
    seq(LandmarksPerHand, k => if k == IndexTip then Landmark(0.5, indexTipY, 0.0) else Landmark(0.5, 0.5, 0.0))
  }

  /** A frame the guard accepts, showing the single hand `h`. */
  function OneHandFrame(h: Hand): Frame {
    Frame(Some([h]), DrawingGlobals(true, true, true))
  }

  /** A one-hand frame is one HandStep: each slot ends with the hand's
      pressing value and plays on a rising edge. */
  lemma OneHandFrameStep(s: TriggerState, instrument: string, h: Hand)
    ensures var r := OnResults(s, instrument, OneHandFrame(h));
      && (forall i :: 0 <= i < SlotCount(instrument) ==>
            && Flag(r.state, instrument, i) == Pressing(instrument, h, i)
            && multiset(r.plays)[Play(instrument, NoteOf(instrument, i))] ==
                 (if Pressing(instrument, h, i) && !Flag(s, instrument, i) then 1 else 0))
      && (forall p :: p in r.plays ==> IsSlotPlay(instrument, p))
  {
  }

  /** A one-hand frame in which no slot of the instrument is pressing plays
      nothing and clears every one of its flags. */
  lemma QuietFrame(s: TriggerState, instrument: string, h: Hand)
    requires forall i :: 0 <= i < SlotCount(instrument) ==> !Pressing(instrument, h, i)
    ensures var r := OnResults(s, instrument, OneHandFrame(h));
      && r.plays == []
      && (forall i :: 0 <= i < SlotCount(instrument) ==> !Flag(r.state, instrument, i))
  {
    OneHandFrameStep(s, instrument, h);
    NoCountsNoPlays(instrument, OnResults(s, instrument, OneHandFrame(h)).plays);
  }

  /** A one-hand frame in which only slot `k` is pressing, and `k` was
      released, plays exactly slot `k`'s note. */
  lemma SinglePressFrame(s: TriggerState, instrument: string, h: Hand, k: nat)
    requires k < SlotCount(instrument)
    requires Pressing(instrument, h, k) && !Flag(s, instrument, k)
    requires forall i :: 0 <= i < SlotCount(instrument) && i != k ==> !Pressing(instrument, h, i)
    ensures OnResults(s, instrument, OneHandFrame(h)).plays == [Play(instrument, NoteOf(instrument, k))]
  {
    var plays := OnResults(s, instrument, OneHandFrame(h)).plays;
    var p := Play(instrument, NoteOf(instrument, k));
    OneHandFrameStep(s, instrument, h);
    PlaysAreCounted(instrument, plays, p);
    SinglePlay(plays, p);
  }

  /**
    The index finger moves down past its threshold and back up over three
    frames (y = 0.5, 0.65, 0.5): the run plays piano_b once, on the middle
    frame, and nothing else.
   */
  lemma IndexDipScenario()
    ensures var up := OneHandFrame(IndexOnlyHand(0.5));
      var down := OneHandFrame(IndexOnlyHand(0.65));
      var a := OnResults(Initial, Piano, up);
      var b := OnResults(a.state, Piano, down);
      var c := OnResults(b.state, Piano, up);
      && a.plays == []
      && b.plays == [Play(Piano, "piano_b")]
      && c.plays == []
  {
    var up := OneHandFrame(IndexOnlyHand(0.5));
    var a := OnResults(Initial, Piano, up);
    IndexOnlyPressing(0.5);
    IndexOnlyPressing(0.65);
    QuietFrame(Initial, Piano, IndexOnlyHand(0.5));
    var b := OnResults(a.state, Piano, OneHandFrame(IndexOnlyHand(0.65)));
    assert !Flag(a.state, Piano, 1);
    SinglePressFrame(a.state, Piano, IndexOnlyHand(0.65), 1);
    assert NoteOf(Piano, 1) == "piano_b";
    QuietFrame(b.state, Piano, IndexOnlyHand(0.5));
  }

  lemma IndexOnlyPressing(indexTipY: real)
    ensures forall i :: 0 <= i < SlotCount(Piano) ==>
      Pressing(Piano, IndexOnlyHand(indexTipY), i) == (i == 1 && indexTipY > 0.6)
  {
  }
}
