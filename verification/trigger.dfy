/**
  The edge-triggered trigger state machine of onResults. Every tracked slot
  keeps a "played" flag; a slot emits a Play when its gesture is pressing and
  its flag is clear, and the flag is cleared again when the gesture is not
  pressing. The flags are explicit state passed in and returned.
 */
module Trigger {
  import opened Landmarks
  import opened Gesture
  import opened Instruments

  /** The note each piano slot plays, in slot order. */
  const PianoNotes: seq<string> := ["piano_a", "piano_b", "piano_c", "piano_d", "piano_e"]

  /** The synthesizer's only note. */
  const SynthNote: string := "note"

  /** A request to play sample `note` of `instrument`. */
  datatype Play = Play(instrument: string, note: string)

  type PianoFlags = f: seq<bool> | |f| == PianoSlots witness [false, false, false, false, false]

  /** The "played" flags: one per piano slot and one for the synthesizer. */
  datatype TriggerState = TriggerState(pianoNotePlayed: PianoFlags, synthNotePlayed: bool)

  /** No slot has played yet. */
  const Initial: TriggerState := TriggerState([false, false, false, false, false], false)

  datatype StepResult = StepResult(state: TriggerState, plays: seq<Play>)

  datatype SlotOutcome = SlotOutcome(played: bool, fire: bool)

  /**
    One slot's transition. Whatever branch is taken, the new flag equals the
    observed pressing value, and a Play fires exactly on a rising edge.
   */
  function SlotStep(played: bool, pressing: bool): (o: SlotOutcome)
    ensures o.fire <==> pressing && !played
    ensures o.played == pressing
  {
    if pressing && !played then SlotOutcome(true, true)
    else if !pressing then SlotOutcome(false, false)
    else SlotOutcome(played, false)
  }

  /** The notes of the instrument's slots, in slot order: none for an unknown instrument. */
  function Notes(instrument: string): seq<string> {
    if instrument == Piano then PianoNotes
    else if instrument == Synthesizer then [SynthNote]
    else []
  }

  /** Number of slots the instrument tracks. */
  function SlotCount(instrument: string): nat {
    |Notes(instrument)|
  }

  function NoteOf(instrument: string, i: nat): string
    requires i < SlotCount(instrument)
  {
    Notes(instrument)[i]
  }

  function Flag(s: TriggerState, instrument: string, i: nat): bool
    requires i < SlotCount(instrument)
  {
    if instrument == Piano then s.pianoNotePlayed[i] else s.synthNotePlayed
  }

  /** What the gesture evaluator says about slot `i` of `instrument` on hand `h`. */
  function Pressing(instrument: string, h: Hand, i: nat): bool
    requires i < SlotCount(instrument)
  {
    if instrument == Piano then PianoPressing(h)[i] else SynthCurled(h)
  }

  /** `p` is the note of one of the instrument's slots. */
  predicate IsSlotPlay(instrument: string, p: Play) {
    p.instrument == instrument && p.note in Notes(instrument)
  }

  /** The flags of every instrument other than `instrument` agree in `s` and `t`. */
  predicate OthersUnchanged(s: TriggerState, t: TriggerState, instrument: string) {
    && (instrument != Piano ==> t.pianoNotePlayed == s.pianoNotePlayed)
    && (instrument != Synthesizer ==> t.synthNotePlayed == s.synthNotePlayed)
  }

  datatype SlotsResult = SlotsResult(flags: PianoFlags, plays: seq<Play>)

  /**
    The piano loop over slots i, i+1, ..., 4 against one hand's pressing
    values. Slots before `i` keep their flags and emit nothing; each later
    slot ends with its pressing value and plays its note once on a rising edge.
   */
  function PianoSlotsFrom(flags: PianoFlags, pressing: seq<bool>, i: nat): (r: SlotsResult)
    requires |pressing| == PianoSlots && i <= PianoSlots
    ensures forall j :: 0 <= j < i ==> r.flags[j] == flags[j]
    ensures forall j :: i <= j < PianoSlots ==> r.flags[j] == pressing[j]
    ensures forall j :: 0 <= j < PianoSlots ==>
      multiset(r.plays)[Play(Piano, PianoNotes[j])] == (if i <= j && pressing[j] && !flags[j] then 1 else 0)
    ensures forall p :: p in r.plays ==> IsSlotPlay(Piano, p)
    decreases PianoSlots - i
  {
    if i == PianoSlots then SlotsResult(flags, [])
    else
      var o := SlotStep(flags[i], pressing[i]);
      var rest := PianoSlotsFrom(flags[i := o.played], pressing, i + 1);
      var here := if o.fire then [Play(Piano, PianoNotes[i])] else [];
      SlotsFromCons(flags, pressing, i, here, rest.plays);
      SlotsResult(rest.flags, here + rest.plays)
  }

  /** Slot `i`'s optional play in front of the later slots' plays keeps the count promise. */
  lemma SlotsFromCons(flags: PianoFlags, pressing: seq<bool>, i: nat, here: seq<Play>, later: seq<Play>)
    requires |pressing| == PianoSlots && i < PianoSlots
    requires here == if pressing[i] && !flags[i] then [Play(Piano, PianoNotes[i])] else []
    requires forall j :: 0 <= j < PianoSlots ==>
      multiset(later)[Play(Piano, PianoNotes[j])] == (if i + 1 <= j && pressing[j] && !flags[j] then 1 else 0)
    requires forall p :: p in later ==> IsSlotPlay(Piano, p)
    ensures forall j :: 0 <= j < PianoSlots ==>
      multiset(here + later)[Play(Piano, PianoNotes[j])] == (if i <= j && pressing[j] && !flags[j] then 1 else 0)
    ensures forall p :: p in here + later ==> IsSlotPlay(Piano, p)
  {
  }

  /**
    Process one hand against the shared flags. For every slot of the current
    instrument the new flag is the observed pressing value and the slot's note
    is played once exactly on a rising edge; nothing else is played and the
    other instruments' flags are untouched. An unknown instrument does nothing.
   */
  function HandStep(s: TriggerState, instrument: string, h: Hand): (r: StepResult)
    ensures forall i :: 0 <= i < SlotCount(instrument) ==>
      Flag(r.state, instrument, i) == Pressing(instrument, h, i)
    ensures forall i :: 0 <= i < SlotCount(instrument) ==>
      multiset(r.plays)[Play(instrument, NoteOf(instrument, i))] ==
        (if Pressing(instrument, h, i) && !Flag(s, instrument, i) then 1 else 0)
    ensures forall p :: p in r.plays ==> IsSlotPlay(instrument, p)
    ensures OthersUnchanged(s, r.state, instrument)
  {
    if instrument == Piano then
      var t := PianoSlotsFrom(s.pianoNotePlayed, PianoPressing(h), 0);
      StepResult(s.(pianoNotePlayed := t.flags), t.plays)
    else if instrument == Synthesizer then
      var o := SlotStep(s.synthNotePlayed, SynthCurled(h));
      var plays := if o.fire then [Play(Synthesizer, SynthNote)] else [];
      StepResult(s.(synthNotePlayed := o.played), plays)
    else
      StepResult(s, [])
  }

  /**
    The synthesizer on one hand: a single flag that follows the index-finger
    curl test, a single note, and the piano flags untouched.
   */
  lemma SynthesizerStep(s: TriggerState, h: Hand)
    ensures var r := HandStep(s, Synthesizer, h);
      && r.state.pianoNotePlayed == s.pianoNotePlayed
      && r.state.synthNotePlayed == (h[8].y < h[6].y - 0.05)
      && r.plays == (if h[8].y < h[6].y - 0.05 && !s.synthNotePlayed then [Play("synthesizer", "note")] else [])
  {
  }

  /** The flag a slot ends with after observing `obs`, starting from `prev`. */
  function Settle(prev: bool, obs: seq<bool>): bool {
    if |obs| == 0 then prev else obs[|obs| - 1]
  }

  /** The number of false-to-true edges in the signal `prev, obs[0], obs[1], ...`. */
  function Rises(prev: bool, obs: seq<bool>): nat
    decreases |obs|
  {
    if |obs| == 0 then 0
    else (if obs[0] && !prev then 1 else 0) + Rises(obs[0], obs[1..])
  }

  /** Slot `i`'s pressing value on each hand, in order. */
  function Observations(instrument: string, hands: seq<Hand>, i: nat): (obs: seq<bool>)
    requires i < SlotCount(instrument)
    ensures |obs| == |hands|
    ensures forall k :: 0 <= k < |hands| ==> obs[k] == Pressing(instrument, hands[k], i)
  {
    seq(|hands|, k requires 0 <= k < |hands| => Pressing(instrument, hands[k], i))
  }

  /**
    Process the hands of one frame in order, all against the same flags. Each
    slot's note is played once per rising edge of the slot's pressing values
    taken across the hands, and the slot's flag ends as the last hand left it.
   */
  function StepHands(s: TriggerState, instrument: string, hands: seq<Hand>): (r: StepResult)
    ensures forall i :: 0 <= i < SlotCount(instrument) ==>
      Flag(r.state, instrument, i) == Settle(Flag(s, instrument, i), Observations(instrument, hands, i))
    ensures forall i :: 0 <= i < SlotCount(instrument) ==>
      multiset(r.plays)[Play(instrument, NoteOf(instrument, i))] ==
        Rises(Flag(s, instrument, i), Observations(instrument, hands, i))
    ensures forall p :: p in r.plays ==> IsSlotPlay(instrument, p)
    ensures OthersUnchanged(s, r.state, instrument)
    decreases |hands|
  {
    if |hands| == 0 then StepResult(s, [])
    else
      var a := HandStep(s, instrument, hands[0]);
      var b := StepHands(a.state, instrument, hands[1..]);
      StepHandsCons(s, instrument, hands, a, b);
      StepResult(b.state, a.plays + b.plays)
  }

  /** Processing the first hand and then the rest keeps the promise of StepHands. */
  lemma StepHandsCons(s: TriggerState, instrument: string, hands: seq<Hand>, a: StepResult, b: StepResult)
    requires |hands| > 0
    requires forall i :: 0 <= i < SlotCount(instrument) ==>
      Flag(a.state, instrument, i) == Pressing(instrument, hands[0], i)
    requires forall i :: 0 <= i < SlotCount(instrument) ==>
      multiset(a.plays)[Play(instrument, NoteOf(instrument, i))] ==
        (if Pressing(instrument, hands[0], i) && !Flag(s, instrument, i) then 1 else 0)
    requires forall p :: p in a.plays ==> IsSlotPlay(instrument, p)
    requires OthersUnchanged(s, a.state, instrument)
    requires forall i :: 0 <= i < SlotCount(instrument) ==>
      Flag(b.state, instrument, i) == Settle(Flag(a.state, instrument, i), Observations(instrument, hands[1..], i))
    requires forall i :: 0 <= i < SlotCount(instrument) ==>
      multiset(b.plays)[Play(instrument, NoteOf(instrument, i))] ==
        Rises(Flag(a.state, instrument, i), Observations(instrument, hands[1..], i))
    requires forall p :: p in b.plays ==> IsSlotPlay(instrument, p)
    requires OthersUnchanged(a.state, b.state, instrument)
    ensures forall i :: 0 <= i < SlotCount(instrument) ==>
      Flag(b.state, instrument, i) == Settle(Flag(s, instrument, i), Observations(instrument, hands, i))
    ensures forall i :: 0 <= i < SlotCount(instrument) ==>
      multiset(a.plays + b.plays)[Play(instrument, NoteOf(instrument, i))] ==
        Rises(Flag(s, instrument, i), Observations(instrument, hands, i))
    ensures forall p :: p in a.plays + b.plays ==> IsSlotPlay(instrument, p)
    ensures OthersUnchanged(s, b.state, instrument)
  {
    assert multiset(a.plays + b.plays) == multiset(a.plays) + multiset(b.plays);
    forall i | 0 <= i < SlotCount(instrument)
      ensures Flag(b.state, instrument, i) == Settle(Flag(s, instrument, i), Observations(instrument, hands, i))
      ensures multiset(a.plays + b.plays)[Play(instrument, NoteOf(instrument, i))] ==
        Rises(Flag(s, instrument, i), Observations(instrument, hands, i))
    {
      var obs := Observations(instrument, hands, i);
      assert obs[1..] == Observations(instrument, hands[1..], i);
    }
  }
}
