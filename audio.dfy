/**
 * Pac's voice recorder: the audio buffer loadAudioDevice sizes, the two
 * device callbacks as sequential cursor advances over that buffer, and the
 * four-state machine handleAudioInput drives once per frame.
 */
module Audio {
  import opened Config

  datatype AudioState = Paused | Recording | Recorded | Playback

  /** Clip indices of the recorder button sprite: the clip it shows is the button's position. */
  const OFF: int := 0
  const ON: int := 1

  /** The names loadAudioDevice gives a device it could not open. */
  const NO_RECORDING_NAME: string := "No recording devices :("
  const NO_PLAYBACK_NAME: string := "No playback devices :("

  /** freq sample frames per second, each of channels * (bits / 8) bytes. */
  function BytesPerSecond(freq: int, channels: int, formatBits: int): (bps: int)
    requires freq >= 0 && channels >= 0 && formatBits >= 0
    ensures bps >= 0
    ensures bps == 0 <==> freq == 0 || channels == 0 || formatBits < 8
  {
    var bytesPerSample := channels * (formatBits / 8);
    ProductSign(channels, formatBits / 8);
    ProductSign(freq, bytesPerSample);
    freq * bytesPerSample
  }

  lemma ProductSign(a: int, b: int)
    requires a >= 0 && b >= 0
    ensures a * b >= 0
    ensures a * b == 0 <==> a == 0 || b == 0
  {
    if a > 0 && b > 0 {
      assert a * b >= b;
    }
  }

  /** audiobufferSize: one second more than the recording limit. */
  function BufferSize(bps: int): int
  {
    (MAX_RECORDING_SECONDS + 1) * bps
  }

  /** bufferMaxPos: the cursor position at which a recording or playback stops. */
  function BufferMaxPos(bps: int): int
  {
    MAX_RECORDING_SECONDS * bps
  }

  /**
   * The spare second: a chunk of at most one second handed to a callback
   * while the cursor has not passed maxPos stays inside the buffer.
   */
  lemma ChunkFits(bps: int, pos: int, len: int)
    requires 0 <= pos <= BufferMaxPos(bps) && 0 <= len <= bps
    ensures pos + len <= BufferSize(bps)
    ensures BufferSize(bps) - BufferMaxPos(bps) == bps
  {
  }

  /** The SDL_memcpy of the recording callback, on values: the chunk lands at pos. */
  function Write(buffer: seq<byte>, pos: nat, stream: seq<byte>): (r: seq<byte>)
    requires pos + |stream| <= |buffer|
  {
    buffer[..pos] + stream + buffer[pos + |stream|..]
  }

  /** Reading back where a chunk was written gives the chunk; nothing else moves. */
  lemma WriteThenRead(buffer: seq<byte>, pos: nat, stream: seq<byte>)
    requires pos + |stream| <= |buffer|
    ensures |Write(buffer, pos, stream)| == |buffer|
    ensures Write(buffer, pos, stream)[pos..pos + |stream|] == stream
    ensures forall k :: 0 <= k < |buffer| && !(pos <= k < pos + |stream|) ==> Write(buffer, pos, stream)[k] == buffer[k]
  {
    var r := Write(buffer, pos, stream);
    assert r[pos..pos + |stream|] == stream;
  }

  /**
   * What one call of handleAudioInput does to an available device:
   * the next state, whether the cursor is rewound to 0, whether the recorder
   * button is forced OFF, and whether the saved flag is cleared.
   */
  datatype Step = Step(state: AudioState, rewind: bool, forceOff: bool, clearSaved: bool)

  function AudioStep(state: AudioState, pos: int, maxPos: int, buttonOn: bool, saved: bool): Step
  {
    match state
    case Paused =>
      if buttonOn then Step(Recording, true, false, false) else Step(Paused, false, false, false)
    case Recording =>
      if pos > maxPos then Step(Recorded, false, true, false) else Step(Recording, false, false, false)
    case Recorded =>
      if buttonOn then Step(Paused, false, false, false)
      else if saved then Step(Playback, true, false, false)
      else Step(Recorded, false, false, false)
    case Playback =>
      if pos > maxPos then Step(Recorded, false, false, true) else Step(Playback, false, false, false)
  }

  /** A recording begins only from PAUSED with the button ON, and it begins at cursor 0. */
  lemma RecordingStarts(state: AudioState, pos: int, maxPos: int, buttonOn: bool, saved: bool)
    ensures var s := AudioStep(state, pos, maxPos, buttonOn, saved);
      (s.state == Recording && state != Recording) <==> (state == Paused && buttonOn)
    ensures var s := AudioStep(state, pos, maxPos, buttonOn, saved);
      s.state == Recording && state != Recording ==> s.rewind
  {
  }

  /** Playback begins only from RECORDED, with the button OFF and the text saved, at cursor 0. */
  lemma PlaybackStarts(state: AudioState, pos: int, maxPos: int, buttonOn: bool, saved: bool)
    ensures var s := AudioStep(state, pos, maxPos, buttonOn, saved);
      (s.state == Playback && state != Playback) <==> (state == Recorded && !buttonOn && saved)
    ensures var s := AudioStep(state, pos, maxPos, buttonOn, saved);
      s.state == Playback && state != Playback ==> s.rewind
  {
  }

  /**
   * A recording or a playback runs until the cursor passes maxPos and then
   * settles in RECORDED; ending a recording forces the button OFF, ending a
   * playback clears the saved flag.
   */
  lemma RunsEndPastMaxPos(state: AudioState, pos: int, maxPos: int, buttonOn: bool, saved: bool)
    requires state == Recording || state == Playback
    ensures var s := AudioStep(state, pos, maxPos, buttonOn, saved);
      && (s.state == Recorded <==> pos > maxPos)
      && (s.state != Recorded ==> s.state == state && !s.rewind)
      && (s.forceOff <==> state == Recording && pos > maxPos)
      && (s.clearSaved <==> state == Playback && pos > maxPos)
  {
  }

  /** The button is forced OFF and the saved flag cleared only as a run ends; the cursor moves only as one starts. */
  lemma SideEffectsOnlyAtEdges(state: AudioState, pos: int, maxPos: int, buttonOn: bool, saved: bool)
    ensures var s := AudioStep(state, pos, maxPos, buttonOn, saved);
      && (s.forceOff || s.clearSaved ==> s.state == Recorded && state != Recorded)
      && (s.rewind <==> s.state != state && (s.state == Recording || s.state == Playback))
  {
  }

  /** RECORDED with the button ON returns to PAUSED, ready for a new recording. */
  lemma ButtonOnDiscardsRecording(pos: int, maxPos: int, saved: bool)
    ensures AudioStep(Recorded, pos, maxPos, true, saved) == Step(Paused, false, false, false)
  {
  }

  /**
   * pacAudioDevice: the recording and playback device of Pac's recorder.
   * recordingActive and playbackActive stand for SDL_PauseAudioDevice's
   * unpaused flag of the two SDL devices.
   */
  class AudioDevice {
    var name: string
    var available: bool
    var state: AudioState
    var audioBuffer: array<byte>
    var audiobufferSize: int
    var bufferMaxPos: int
    var bufferCurrentPos: int
    var recordingActive: bool
    var playbackActive: bool

    /** A device is unpaused exactly while the state machine uses it. */
    predicate Active()
      reads this
    {
      (recordingActive <==> state == Recording) && (playbackActive <==> state == Playback)
    }

    /** The buffer holds audiobufferSize bytes, maxPos lies inside it, and the cursor is never negative. */
    ghost predicate Valid()
      reads this
    {
      audioBuffer.Length == audiobufferSize && 0 <= bufferMaxPos <= audiobufferSize && 0 <= bufferCurrentPos
    }

    /**
     * The zero-initialised global when no recording device is listed and
     * loadAudioDevice is never called: no name and not available.
     */
    constructor Absent()
      ensures name == "" && !available && state == Paused
      ensures audiobufferSize == 0 && bufferMaxPos == 0 && bufferCurrentPos == 0
      ensures !recordingActive && !playbackActive
      ensures Valid() && Active()
    {
      name, available, state := "", false, Paused;
      audioBuffer := new byte[0];
      audiobufferSize, bufferMaxPos, bufferCurrentPos := 0, 0, 0;
      recordingActive, playbackActive := false, false;
    }

    /**
     * loadAudioDevice. Opening the two SDL devices is not modelled: whether
     * each open succeeded and the obtained recording spec are parameters.
     * The device name keeps the first AUDIO_DEVICE_NAME_SIZE characters; a
     * failed open replaces it, the playback message last.
     */
    constructor (recordingName: string, recordingOpened: bool, playbackOpened: bool,
                 freq: int, channels: int, formatBits: int)
      requires freq >= 0 && channels >= 0 && formatBits >= 0
      ensures available <==> recordingOpened && playbackOpened
      ensures name == if !playbackOpened then NO_PLAYBACK_NAME
                      else if !recordingOpened then NO_RECORDING_NAME
                      else recordingName[..Min(|recordingName|, AUDIO_DEVICE_NAME_SIZE)]
      ensures available ==> var bps := BytesPerSecond(freq, channels, formatBits);
        && audiobufferSize == BufferSize(bps) && bufferMaxPos == BufferMaxPos(bps)
        && bufferCurrentPos == 0 && fresh(audioBuffer)
        && audioBuffer[..] == seq(audiobufferSize, _ => 0)
      ensures !available ==> audiobufferSize == 0 && bufferMaxPos == 0 && bufferCurrentPos == 0
      ensures state == Paused && !recordingActive && !playbackActive
      ensures Valid() && Active()
    {
      var devName := recordingName[..Min(|recordingName|, AUDIO_DEVICE_NAME_SIZE)];
      var ok := true;
      if !recordingOpened {
        devName := NO_RECORDING_NAME;
        ok := false;
      }
      if !playbackOpened {
        devName := NO_PLAYBACK_NAME;
        ok := false;
      }
      var buffer := new byte[0];
      var size, maxPos := 0, 0;
      if ok {
        var bps := BytesPerSecond(freq, channels, formatBits);
        size := (MAX_RECORDING_SECONDS + 1) * bps;
        maxPos := MAX_RECORDING_SECONDS * bps;
        buffer := new byte[size](_ => 0);
      }
      name, available := devName, ok;
      audioBuffer, audiobufferSize, bufferMaxPos, bufferCurrentPos := buffer, size, maxPos, 0;
      state := Paused;
      recordingActive, playbackActive := false, false;
    }

    /**
     * The available-device half of handleAudioInput: one transition of the
     * state machine, pausing and unpausing the SDL devices to match.
     * Returns whether the recorder button must be forced OFF and whether the
     * saved flag must be cleared.
     */
    method Step(buttonOn: bool, textSaved: bool) returns (forceOff: bool, clearSaved: bool)
      requires available && Valid() && Active()
      modifies this
      ensures var s := AudioStep(old(state), old(bufferCurrentPos), bufferMaxPos, buttonOn, textSaved);
        && state == s.state && forceOff == s.forceOff && clearSaved == s.clearSaved
        && bufferCurrentPos == (if s.rewind then 0 else old(bufferCurrentPos))
      ensures Valid() && Active()
      ensures name == old(name) && available && audioBuffer == old(audioBuffer)
      ensures audiobufferSize == old(audiobufferSize) && bufferMaxPos == old(bufferMaxPos)
    {
      forceOff, clearSaved := false, false;
      match state
      case Paused =>
        if buttonOn {
          bufferCurrentPos := 0;
          recordingActive := true;
          state := Recording;
        }
      case Recording =>
        if bufferCurrentPos > bufferMaxPos {
          recordingActive := false;
          state := Recorded;
          forceOff := true;
        }
      case Recorded =>
        if buttonOn {
          state := Paused;
        } else if textSaved {
          bufferCurrentPos := 0;
          playbackActive := true;
          state := Playback;
        }
      case Playback =>
        if bufferCurrentPos > bufferMaxPos {
          playbackActive := false;
          state := Recorded;
          clearSaved := true;
        }
    }

    /** defaultAudioRecordingCallback: the chunk is copied in at the cursor, which advances past it. */
    method RecordingCallback(stream: seq<byte>)
      requires Valid() && bufferCurrentPos + |stream| <= audioBuffer.Length
      modifies this, audioBuffer
      ensures audioBuffer == old(audioBuffer)
      ensures audioBuffer[..] == Write(old(audioBuffer[..]), old(bufferCurrentPos), stream)
      ensures bufferCurrentPos == old(bufferCurrentPos) + |stream|
      ensures name == old(name) && available == old(available) && state == old(state)
      ensures audiobufferSize == old(audiobufferSize) && bufferMaxPos == old(bufferMaxPos)
      ensures recordingActive == old(recordingActive) && playbackActive == old(playbackActive)
      ensures Valid()
    {
      var buffer, pos := audioBuffer, bufferCurrentPos;
      var i := 0;
      while i < |stream|
        invariant 0 <= i <= |stream|
        modifies buffer
        invariant forall k :: 0 <= k < buffer.Length ==>
          buffer[k] == if pos <= k < pos + i then stream[k - pos] else old(buffer[k])
      {
        buffer[pos + i] := stream[i];
        i := i + 1;
      }
      ghost var expected := Write(old(buffer[..]), pos, stream);
      assert forall k :: 0 <= k < buffer.Length ==> buffer[k] == expected[k];
      assert buffer[..] == expected;
      bufferCurrentPos := pos + |stream|;
    }

    /** defaultAudioPlaybackCallback: the chunk at the cursor is handed out and the cursor advances past it. */
    method PlaybackCallback(len: nat) returns (stream: seq<byte>)
      requires Valid() && bufferCurrentPos + len <= audioBuffer.Length
      modifies this
      ensures audioBuffer == old(audioBuffer)
      ensures stream == audioBuffer[old(bufferCurrentPos)..old(bufferCurrentPos) + len]
      ensures bufferCurrentPos == old(bufferCurrentPos) + len
      ensures name == old(name) && available == old(available) && state == old(state)
      ensures audiobufferSize == old(audiobufferSize) && bufferMaxPos == old(bufferMaxPos)
      ensures recordingActive == old(recordingActive) && playbackActive == old(playbackActive)
      ensures Valid()
    {
      stream := audioBuffer[bufferCurrentPos..bufferCurrentPos + len];
      bufferCurrentPos := bufferCurrentPos + len;
    }
  }
}
