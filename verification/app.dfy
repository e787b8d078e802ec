/**
  The page-level state tying the pieces together: the selected instrument,
  the trigger flags and the sample cache, with the dropdown handler, the
  initial load and a frame followed by the playback of its notes.
 */
module App {
  import opened Wrappers
  import opened Instruments
  import opened Gesture
  import opened Trigger
  import opened Frames
  import opened Samples

  datatype AppState = AppState(currentInstrument: string, triggers: TriggerState, sounds: SoundCache)

  /**
    Page start-up: the piano is selected, no flag is set, and the piano's
    sounds are loaded into a cache that also holds an empty synthesizer map.
   */
  function Start(loader: Loader): (a: AppState)
    ensures a.currentInstrument == Piano && a.triggers == Initial
    ensures a.sounds.Keys == {Piano, Synthesizer}
    ensures a.sounds[Synthesizer] == map[]
    ensures a.sounds[Piano].Keys == LoadedNames(Piano, loader)
    ensures forall sd :: sd in SoundsToLoad(Piano).value && Loads(sd, loader) ==>
      a.sounds[Piano][sd.name] == loader(sd.url).value
  {
    assert InitialCache.Keys == {Piano, Synthesizer} && Piano != Synthesizer;
    AppState(Piano, Initial, LoadInstrumentSounds(InitialCache, Piano, loader))
  }

  /**
    The instrument dropdown handler: the new instrument becomes current and
    its sounds are reloaded; the trigger flags are left exactly as they were.
   */
  function SelectInstrument(app: AppState, instrument: string, loader: Loader): (a: AppState)
    ensures a.currentInstrument == instrument
    ensures a.triggers == app.triggers
    ensures a.sounds.Keys == app.sounds.Keys + {instrument}
    ensures a.sounds[instrument].Keys == LoadedNames(instrument, loader)
    ensures SoundsToLoad(instrument).Some? ==>
      forall sd :: sd in SoundsToLoad(instrument).value && Loads(sd, loader) ==>
        a.sounds[instrument][sd.name] == loader(sd.url).value
    ensures forall k :: k in app.sounds && k != instrument ==> a.sounds[k] == app.sounds[k]
  {
    AppState(instrument, app.triggers, LoadInstrumentSounds(app.sounds, instrument, loader))
  }

  /**
    playSound over a frame's plays, in order: every started buffer belongs to
    one of the plays, and every play whose buffer is loaded starts it.
   */
  function StartAll(sounds: SoundCache, plays: seq<Play>): (started: seq<AudioBuffer>)
    ensures |started| <= |plays|
    ensures forall b :: b in started ==>
      exists p :: p in plays && PlaySound(sounds, p.instrument, p.note) == Some(b)
    ensures forall p :: p in plays && PlaySound(sounds, p.instrument, p.note).Some? ==>
      PlaySound(sounds, p.instrument, p.note).value in started
    decreases |plays|
  {
    if |plays| == 0 then []
    else
      var rest := StartAll(sounds, plays[1..]);
      assert forall p :: p in plays[1..] ==> p in plays;
      assert forall p :: p in plays ==> p == plays[0] || p in plays[1..];
      match PlaySound(sounds, plays[0].instrument, plays[0].note)
      case Some(b) => [b] + rest
      case None => rest
  }

  /**
    When `p` is the only play of `plays` whose lookup yields `b`, buffer `b` is
    started once for every occurrence of `p` if `p`'s sound is loaded to `b`,
    and never otherwise: no buffer is started twice for one play, and a play
    whose sound is missing starts nothing.
   */
  lemma {:induction false} StartAllCount(sounds: SoundCache, plays: seq<Play>, p: Play, b: AudioBuffer)
    requires forall q :: q in plays && PlaySound(sounds, q.instrument, q.note) == Some(b) ==> q == p
    ensures multiset(StartAll(sounds, plays))[b] ==
      (if PlaySound(sounds, p.instrument, p.note) == Some(b) then multiset(plays)[p] else 0)
    decreases |plays|
  {
    if |plays| > 0 {
      assert plays == [plays[0]] + plays[1..];
      assert forall q :: q in plays[1..] ==> q in plays;
      StartAllCount(sounds, plays[1..], p, b);
      assert multiset(plays) == multiset([plays[0]]) + multiset(plays[1..]);
      var rest := StartAll(sounds, plays[1..]);
      match PlaySound(sounds, plays[0].instrument, plays[0].note)
      case Some(c) =>
        assert multiset([c] + rest) == multiset([c]) + multiset(rest);
      case None =>
    }
  }

  datatype FrameOutcome = FrameOutcome(app: AppState, started: seq<AudioBuffer>)

  /**
    One onResults callback followed by the playback it requests. The
    instrument and the cache are unchanged; a frame the guard rejects starts
    nothing and leaves the flags alone; every started buffer is a loaded
    buffer of the current instrument.
   */
  function HandleFrame(app: AppState, f: Frame): (r: FrameOutcome)
    ensures r.app.currentInstrument == app.currentInstrument
    ensures r.app.sounds == app.sounds
    ensures !GestureRuns(f) ==> r.app.triggers == app.triggers && r.started == []
    ensures forall b :: b in r.started ==>
      app.currentInstrument in app.sounds && b in app.sounds[app.currentInstrument].Values
    ensures forall i :: 0 <= i < SlotCount(app.currentInstrument) ==>
      Flag(r.app.triggers, app.currentInstrument, i) ==
        Settle(Flag(app.triggers, app.currentInstrument, i), FrameObs(app.currentInstrument, f, i))
    ensures OthersUnchanged(app.triggers, r.app.triggers, app.currentInstrument)
  {
    var step := OnResults(app.triggers, app.currentInstrument, f);
    FrameOutcome(app.(triggers := step.state), StartAll(app.sounds, step.plays))
  }

  /** A note of the instrument that is loaded to `b` is slot `i`'s note when no other slot's note is. */
  lemma OnlyLoadedNote(sounds: SoundCache, instrument: string, i: nat, b: AudioBuffer, note: string)
    requires i < SlotCount(instrument)
    requires forall j :: 0 <= j < SlotCount(instrument) && j != i ==>
      PlaySound(sounds, instrument, NoteOf(instrument, j)) != Some(b)
    requires note in Notes(instrument) && PlaySound(sounds, instrument, note) == Some(b)
    ensures note == NoteOf(instrument, i)
  {
    var j :| 0 <= j < |Notes(instrument)| && Notes(instrument)[j] == note;
    assert NoteOf(instrument, j) == note;
  }

  /**
    One press, one sound: when slot `i`'s note is loaded to buffer `b` and no
    other note of the current instrument is loaded to the same buffer, a frame
    starts `b` once for every rising edge the slot sees across the frame's hands.
   */
  lemma OnePressOneStart(app: AppState, f: Frame, i: nat, b: AudioBuffer)
    requires i < SlotCount(app.currentInstrument)
    requires PlaySound(app.sounds, app.currentInstrument, NoteOf(app.currentInstrument, i)) == Some(b)
    requires forall j :: 0 <= j < SlotCount(app.currentInstrument) && j != i ==>
      PlaySound(app.sounds, app.currentInstrument, NoteOf(app.currentInstrument, j)) != Some(b)
    ensures multiset(HandleFrame(app, f).started)[b] ==
      Rises(Flag(app.triggers, app.currentInstrument, i), FrameObs(app.currentInstrument, f, i))
  {
    var cur := app.currentInstrument;
    var p := Play(cur, NoteOf(cur, i));
    var step := OnResults(app.triggers, cur, f);
    assert multiset(step.plays)[p] == Rises(Flag(app.triggers, cur, i), FrameObs(cur, f, i));
    forall q | q in step.plays && PlaySound(app.sounds, q.instrument, q.note) == Some(b)
      ensures q == p
    {
      assert IsSlotPlay(cur, q);
      OnlyLoadedNote(app.sounds, cur, i, b, q.note);
    }
    StartAllCount(app.sounds, step.plays, p, b);
    assert HandleFrame(app, f).started == StartAll(app.sounds, step.plays);
    StartAllCount(app.sounds, step.plays, p, b);
  }

  /** Every note a slot can play is the name of one of its instrument's sound files. */
  lemma NotesHaveSoundFiles(instrument: string, i: nat)
    requires i < SlotCount(instrument)
    ensures SoundsToLoad(instrument).Some?
    ensures exists sd :: sd in SoundsToLoad(instrument).value && sd.name == NoteOf(instrument, i)
  {
    var list := SoundsToLoad(instrument).value;
    assert list[i] in list;
  }

  /**
    Switching instrument does not reset the flags: a piano slot that was
    pressed when the user switched to the synthesizer stays marked as played
    through any synthesizer frames, so after switching back the first press
    of that finger plays nothing.
   */
  lemma StaleFlagSuppressesPress(app: AppState, i: nat, l1: Loader, synthFrames: seq<Frame>, l2: Loader, f: Frame)
    requires i < PianoSlots && app.triggers.pianoNotePlayed[i]
    requires AllPressing(FrameObs(Piano, f, i))
    ensures var b := SelectInstrument(app, Synthesizer, l1);
      var c := b.(triggers := Run(b.triggers, b.currentInstrument, synthFrames).state);
      var d := SelectInstrument(c, Piano, l2);
      multiset(OnResults(d.triggers, d.currentInstrument, f).plays)[Play(Piano, PianoNotes[i])] == 0
  {
    var b := SelectInstrument(app, Synthesizer, l1);
    var c := b.(triggers := Run(b.triggers, b.currentInstrument, synthFrames).state);
    var d := SelectInstrument(c, Piano, l2);
    assert Flag(d.triggers, Piano, i);
    RisesHeld(true, FrameObs(Piano, f, i));
  }
}
