/**
  The sample store: a cache of decoded audio buffers per instrument and note
  name. Fetching and decoding a file is an oracle from URL to an optional
  buffer (None where loadSound reports the failure and returns null).
 */
module Samples {
  import opened Wrappers
  import opened Instruments

  /** An opaque decoded-audio handle. */
  datatype AudioBuffer = AudioBuffer(handle: nat)

  /** One entry of an instrument's sound list. */
  datatype SoundFile = SoundFile(name: string, url: string)

  /** loadSound: fetch and decode one URL, None on any failure. */
  type Loader = string -> Option<AudioBuffer>

  /** The loaded buffers of one instrument, by note name. */
  type Sounds = map<string, AudioBuffer>

  /** instrumentSounds: the loaded buffers of every instrument. */
  type SoundCache = map<string, Sounds>

  /** The cache before anything is loaded: both known instruments, no buffers. */
  const InitialCache: SoundCache := map[Piano := map[], Synthesizer := map[]]

  /** The sound list of an instrument, or None for an instrument that has none. */
  function SoundsToLoad(instrument: string): Option<seq<SoundFile>> {
    if instrument == Piano then
      Some([ SoundFile("piano_a", "/static/audio/piano/piano-a.wav"),
             SoundFile("piano_b", "/static/audio/piano/piano-b.wav"),
             SoundFile("piano_c", "/static/audio/piano/piano-c.wav"),
             SoundFile("piano_d", "/static/audio/piano/piano-d.wav"),
             SoundFile("piano_e", "/static/audio/piano/piano-e.wav") ])
    else if instrument == Synthesizer then
      Some([ SoundFile("note", "/static/audio/synthesizer/note.wav") ])
    else
      None
  }

  /** The oracle returned a buffer for this file. */
  predicate Loads(sd: SoundFile, loader: Loader) {
    loader(sd.url).Some?
  }

  /** No two entries of a sound list share a name. */
  predicate NamesDistinct(list: seq<SoundFile>) {
    forall a, b :: 0 <= a < b < |list| ==> list[a].name != list[b].name
  }

  /** The names of the files of `list` that load successfully. */
  function LoadedNamesOf(list: seq<SoundFile>, loader: Loader): set<string> {
    set sd | sd in list && Loads(sd, loader) :: sd.name
  }

  /** The names of an instrument's sounds that load successfully. */
  function LoadedNames(instrument: string, loader: Loader): set<string> {
    match SoundsToLoad(instrument)
    case None => {}
    case Some(list) => LoadedNamesOf(list, loader)
  }

  /** Loading `list` into an empty map keeps exactly the names that loaded. */
  lemma LoadEachKeys(list: seq<SoundFile>, loader: Loader)
    requires NamesDistinct(list)
    ensures LoadEach(map[], list, loader).Keys == LoadedNamesOf(list, loader)
  {
  }

  lemma SoundListsDistinct(instrument: string)
    requires SoundsToLoad(instrument).Some?
    ensures NamesDistinct(SoundsToLoad(instrument).value)
  {
  }

  /**
    The sequential load loop: each file of `list` is loaded in turn and stored
    under its name only when the load succeeded. A name ends up present exactly
    when it was already present or one of its files loaded; a name none of whose
    files loaded keeps the buffer it had.
   */
  function LoadEach(acc: Sounds, list: seq<SoundFile>, loader: Loader): (r: Sounds)
    requires NamesDistinct(list)
    ensures forall n :: n in r <==> (n in acc || exists sd :: sd in list && sd.name == n && Loads(sd, loader))
    ensures forall sd :: sd in list && Loads(sd, loader) ==> r[sd.name] == loader(sd.url).value
    ensures forall n :: n in acc && !(exists sd :: sd in list && sd.name == n && Loads(sd, loader)) ==> r[n] == acc[n]
    decreases |list|
  {
    if |list| == 0 then acc
    else
      var sd := list[0];
      var acc' := if Loads(sd, loader) then acc[sd.name := loader(sd.url).value] else acc;
      assert forall k :: 0 <= k < |list[1..]| ==> list[1..][k].name != sd.name by {
        forall k | 0 <= k < |list[1..]| ensures list[1..][k].name != sd.name {
          assert list[1..][k] == list[k + 1];
        }
      }
      assert forall e :: e in list <==> e == sd || e in list[1..];
      LoadEach(acc', list[1..], loader)
  }

  /**
    loadInstrumentSounds: the instrument's map is first replaced by an empty
    one; an instrument without a sound list keeps that empty map; otherwise
    the map ends holding exactly the names whose file loaded, each with the
    buffer its load returned. Every other instrument's map is unchanged.
   */
  function LoadInstrumentSounds(cache: SoundCache, instrument: string, loader: Loader): (r: SoundCache)
    ensures r.Keys == cache.Keys + {instrument}
    ensures forall k :: k in cache && k != instrument ==> r[k] == cache[k]
    ensures r[instrument].Keys == LoadedNames(instrument, loader)
    ensures SoundsToLoad(instrument).None? ==> r[instrument] == map[]
    ensures SoundsToLoad(instrument).Some? ==>
      forall sd :: sd in SoundsToLoad(instrument).value && Loads(sd, loader) ==>
        r[instrument][sd.name] == loader(sd.url).value
  {
    var cleared := cache[instrument := map[]];
    match SoundsToLoad(instrument)
    case None => cleared
    case Some(list) =>
      SoundListsDistinct(instrument);
      LoadEachKeys(list, loader);
      cleared[instrument := LoadEach(map[], list, loader)]
  }

  /**
    playSound's lookup: the buffer to start playing, or None when the
    instrument has no map or the map has no such name (a warning, no audio).
    The cache itself is never changed by playing.
   */
  function PlaySound(cache: SoundCache, instrument: string, soundName: string): (r: Option<AudioBuffer>)
    ensures r.Some? <==> instrument in cache && soundName in cache[instrument]
    ensures r.Some? ==> r.value == cache[instrument][soundName]
  {
    if instrument in cache && soundName in cache[instrument] then Some(cache[instrument][soundName])
    else None
  }

  /**
    Loading then playing: after loading an instrument, playing one of its
    names starts the buffer that name's file loaded to, exactly when that load
    succeeded; playing another instrument is unaffected by the load.
   */
  lemma PlayAfterLoad(cache: SoundCache, instrument: string, loader: Loader, name: string, other: string)
    requires other != instrument
    ensures var loaded := LoadInstrumentSounds(cache, instrument, loader);
      && (PlaySound(loaded, instrument, name).Some? <==> name in LoadedNames(instrument, loader))
      && (forall sd ::
            (SoundsToLoad(instrument).Some? && sd in SoundsToLoad(instrument).value && sd.name == name && Loads(sd, loader))
            ==> PlaySound(loaded, instrument, name) == loader(sd.url))
      && PlaySound(loaded, other, name) == PlaySound(cache, other, name)
  {
  }

  /**
    A piano file that fails to load leaves its note unset, so playing it does
    nothing, while a note that loaded plays its buffer.
   */
  lemma FailedLoadIsSkipped(cache: SoundCache, loader: Loader)
    requires loader("/static/audio/piano/piano-c.wav").None?
    requires loader("/static/audio/piano/piano-a.wav").Some?
    ensures var loaded := LoadInstrumentSounds(cache, Piano, loader);
      && PlaySound(loaded, Piano, "piano_c").None?
      && PlaySound(loaded, Piano, "piano_a") == loader("/static/audio/piano/piano-a.wav")
  {
  }

  /** An instrument without a sound list ends with an empty map: nothing of it ever plays. */
  lemma UnknownInstrumentIsSilent(cache: SoundCache, instrument: string, loader: Loader, name: string)
    requires instrument != Piano && instrument != Synthesizer
    ensures PlaySound(LoadInstrumentSounds(cache, instrument, loader), instrument, name).None?
  {
  }
}
