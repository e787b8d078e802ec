# Air-instrument gesture core, in Dafny

This project models the per-frame core of a browser "air instrument". A
hand-landmark detector reports up to two hands of 21 landmarks each. The page
turns finger gestures into note requests and plays pre-loaded audio samples.

The model covers:

- the **gesture evaluator** (`Gesture`). For the piano it computes five
  "pressing" booleans. The thumb uses a horizontal curl test. The index,
  middle, ring and pinky use fixed vertical thresholds. For the synthesizer it
  computes one "curled" boolean for the index finger.
- the **edge-triggered trigger state machine** (`Trigger`). Each slot has a
  "played" flag. A slot emits `Play(instrument, note)` on a rising edge of its
  pressing value and re-arms only after a not-pressing observation. All hands
  of a frame are processed in order against the same flags.
- the **frame entry point** `onResults` and runs of frames (`Frames`). The
  gesture logic runs only when a hand list is present and the three drawing
  globals are loaded.
- the **sample store** (`Samples`). `loadInstrumentSounds` clears the
  instrument's map and then loads its sound list one file after another. It
  keeps only the files that loaded. `playSound` does nothing when the buffer
  is missing.
- the page state (`App`): start-up, the instrument dropdown handler, and one
  frame followed by the playback it requests.

Every flag is explicit state that is passed in and returned. Landmark
coordinates are `real`s. Fetching and decoding a sample file is an oracle
`Loader = url -> Option<AudioBuffer>`, where `None` stands for the `null` that
`loadSound` returns on failure.

The central fact, proved as `Trigger.SlotStep`'s contract, is that after any
observation a slot's flag equals the observed pressing value. A play fires
exactly when the slot is pressing and its flag was clear. From this,
`StepHands` and `Run` are characterised against an independent reference:
`Rises(prev, obs)` counts the false-to-true edges of a boolean signal. The
number of plays of a slot's note over any sequence of hands, or of frames,
equals the number of rising edges in what that slot observed.

Behaviour of `static/js/main.js` worth knowing, all of it modelled:

- Only `piano` and `synthesizer` have sound lists (lines 41-54) and gesture
  branches (lines 143-201). Any other instrument name has no slots and plays
  nothing, and loading it leaves an empty sample map.
- Switching instrument does **not** reset the flags (lines 94-98).
  `App.SelectInstrument` keeps them unchanged. `App.StaleFlagSuppressesPress`
  shows the consequence: a piano finger that was pressed when the user
  switched away plays nothing on its first press after switching back.
- Both hands share one set of flags (lines 134-188).
  `Frames.CrossHandRetrigger` shows that one pressing hand and one
  not-pressing hand re-trigger the note on every frame.
- The thumb's declared `y: 0.5` threshold and its `xMin`/`xMax` range are
  never read (lines 156-177).

## Model

| member | source | states |
|---|---|---|
| `Gesture.PianoPressing` | static/js/main.js:143-181 | five booleans. The thumb is pressing iff `lm[4].x < lm[2].x - 0.02`. Index, middle and ring are pressing iff their tip's y is above 0.6. The pinky is pressing iff its tip's y is above 0.55 |
| `Gesture.SynthCurled` | static/js/main.js:192-194 | the synthesizer's index finger is curled iff `lm[8].y < lm[6].y - 0.05` |
| `Gesture.ThumbIgnoresVertical` | static/js/main.js:156-177 | the thumb slot depends only on the x of landmarks 4 and 2. The thumb's y threshold and x range are never consulted |
| `Gesture.FingerSlotReadsOnlyItsTip` | static/js/main.js:178-181 | finger slots 1..4 each depend only on the y of their own tip landmark |
| `Trigger.SlotStep` | static/js/main.js:183-188 | a slot fires iff pressing and not yet played. In every branch the new flag equals the pressing value |
| `Trigger.SynthesizerStep` | static/js/main.js:190-201 | on one hand the synthesizer's single flag becomes the curl test's value. It plays `('synthesizer', 'note')` iff the finger is curled and the flag was clear, and nothing else. The piano flags are untouched |
| `Trigger.PianoSlotsFrom` | static/js/main.js:169-189 | the piano slot loop. Each processed slot ends with its pressing value. It plays its own note exactly once on a rising edge and otherwise not at all. Unprocessed slots are untouched. Only piano notes are played |
| `Trigger.HandStep` | static/js/main.js:141-202 | one hand. For the current instrument's slots, the flag becomes the pressing value and each note is played once iff pressing and not yet played. Other instruments' flags are untouched. An unknown instrument changes nothing and plays nothing |
| `Trigger.StepHands` | static/js/main.js:134-203 | hands processed in order against shared flags. Each slot plays once per rising edge of its pressing values across the hands. It ends with the last hand's value |
| `Frames.OnResults` | static/js/main.js:124-209 | a frame without a hand list or without the drawing globals changes no flag and plays nothing. Otherwise it behaves as the hand loop |
| `Frames.Run` | static/js/main.js:124-209 | over consecutive frames, each slot's note is played once per rising edge of everything the slot observed. Other instruments' flags are untouched |
| `Frames.HoldingPlaysOnce` | static/js/main.js:183-188 | over a run of frames where a slot is always seen pressing, its note plays exactly once, on the first frame, if the slot was released before. It never plays if the slot was already held |
| `Frames.ReleaseThenPress` | static/js/main.js:183-188 | a not-pressing frame clears the flag and plays nothing. A following pressing frame plays the note exactly once |
| `Frames.CrossHandRetrigger` | static/js/main.js:134-188 | with shared flags, a frame where the first hand presses a slot and the second does not plays the note on every frame |
| `Frames.IndexDipScenario` | static/js/main.js:143-188 | the index tip moves over y = 0.5, 0.65, 0.5. Exactly `Play(piano, piano_b)` is played, on the middle frame only |
| `Samples.LoadEach` | static/js/main.js:62-67 | sequential loading. A name is present afterwards iff it was present before or one of its files loaded. Loaded names hold the buffer their load returned. A name none of whose files loaded keeps the buffer it had |
| `Samples.LoadInstrumentSounds` | static/js/main.js:35-69 | the instrument's keys become exactly the names whose load succeeded, with their buffers. An instrument without a sound list ends with an empty map. Every other instrument's map is unchanged |
| `Samples.PlaySound` | static/js/main.js:72-77 | a buffer is started iff the instrument has a map containing the name, and it is that buffer. Otherwise it is a no-op |
| `Samples.PlayAfterLoad` | static/js/main.js:35-77 | after loading an instrument, playing a name starts a buffer iff that name's file loaded, and it is the loaded buffer. Playing another instrument is unaffected |
| `Samples.FailedLoadIsSkipped` | static/js/main.js:43-77 | if `piano-c.wav` fails and `piano-a.wav` loads, playing `piano_c` does nothing and playing `piano_a` starts its buffer |
| `Samples.UnknownInstrumentIsSilent` | static/js/main.js:35-60 | loading an instrument without a sound list leaves nothing that can play |
| `App.Start` | static/js/main.js:100-101 | at start-up the piano is selected and no flag is set. The cache holds the piano and an empty synthesizer map (declared at lines 7-13). The piano's keys are the names that loaded, each holding the buffer its load returned |
| `App.SelectInstrument` | static/js/main.js:94-98 | the dropdown makes the new instrument current and reloads its sounds: its keys are the names that loaded, each holding the buffer its load returned. Other instruments' maps and the trigger flags stay exactly as they were |
| `App.StaleFlagSuppressesPress` | static/js/main.js:94-98 | a piano slot held when switching to the synthesizer plays nothing on its first press after switching back, whatever happened in between |
| `App.StartAll` | static/js/main.js:72-87 | playing a frame's notes starts at most one buffer per play. Every started buffer is a loaded buffer of a requested note. Every requested note that is loaded is started |
| `App.StartAllCount` | static/js/main.js:72-87 | when only play `p` looks up buffer `b`, `b` is started exactly as many times as `p` occurs if `p`'s sound is loaded to `b`, and never if it is not |
| `App.HandleFrame` | static/js/main.js:124-209 | a frame followed by its playback never changes the instrument or the cache. A guarded-off frame starts nothing and keeps the flags. Otherwise each slot of the current instrument ends with its last observed pressing value, other instruments' flags are untouched, and only loaded buffers of the current instrument are started |
| `App.OnePressOneStart` | static/js/main.js:183-201 | if slot `i`'s note is loaded to buffer `b` and no other slot's note is, a frame followed by `playSound` (lines 72-87) starts `b` once per rising edge slot `i` sees across the frame's hands |
| `App.NotesHaveSoundFiles` | static/js/main.js:41-54 | every note a slot can play (the note table at line 150, and `note`) names a file in its instrument's sound list |

## Left out

- Web Audio and the network are left out: `AudioContext`, `fetch`, `decodeAudioData`, `resume`, `createBufferSource` and `start`. `loadSound` is the `Loader` oracle. `playSound`'s effect is the buffer it would start.
- Alerts and console logging are left out. They have no effect on state.
- MediaPipe `Hands`/`Camera` set-up, `enableCam`, webcam permission handling and `hands.send` (lines 104-122, 212-273) are external device plumbing.
- Canvas drawing (lines 127-132, 136-137, 208) is left out. Only the guard on the drawing globals at line 133 is modelled.
- Frames processed while a load is in flight are left out. The start-up load (line 101) is not awaited. The dropdown handler sets the instrument (line 95) and clears its map (line 38) before the first `await` (line 63). A frame arriving before the load finishes runs the new instrument's gestures against a partly filled map: a press sets its flag (lines 185, 198) but `playSound` finds no buffer (lines 74-76), so that press is lost. The model completes each load before the next frame.
- Concurrent loads are left out. Two overlapping `loadInstrumentSounds` calls, from quick dropdown changes, can interleave at each `await`. The model loads one instrument at a time.
- The `this` binding of the flags is left out. Flags are explicit state. The lazy initialisation at lines 165-167 behaves the same as starting with all flags false.
- Detector output other than 21 landmarks per hand is out of scope. A `Hand` always has 21 landmarks, as the detector promises. The z coordinate is never read.
- IEEE floating-point rounding is not modelled. Coordinates are exact reals.
- Instrument and sound names that JavaScript would resolve through the object prototype (such as `constructor`) are treated as ordinary absent keys.
- tests/test_integration.py is left out. It checks an HTTP page and greps main.js for function names that main.js does not define.
- Trigger.PianoSlotsFrom: states how often each note is played, not the order of plays within one hand, because the source plays them in ascending slot order at the same instant.
- Trigger.HandStep: states how often each note is played, not the order of plays within one hand, for the same reason.
- Trigger.StepHands: states how often each note is played over the hands, not their interleaving order.
- Frames.OnResults: states how often each note is played, not the order of plays within the frame.
- Frames.Run: states how often each note is played over the run, not the order of plays across slots.
