/**
 * The microphone recorder (`AudioRecorder` in streamlit_app.py).
 *
 * The audio stream's callback, which the sound library runs on its own
 * thread, is modelled as an ordinary method called once per arriving chunk.
 * Wall-clock time is an integer clock passed in by the caller. Saving the
 * clip to a temporary WAV file is abstracted into its content (the chunks
 * concatenated) and a flag saying whether the write succeeded.
 */
module AudioCapture {
  import opened Wrappers

  /** One block of 16-bit mono samples as the stream delivers it. */
  type Chunk = seq<int>

  const DefaultMaxDuration: int := 90
  const DefaultSampleRate: int := 44100

  /** `np.concatenate(chunks)`: the samples of all chunks, in arrival order. */
  function Concat(chunks: seq<Chunk>): seq<int>
  {
    if chunks == [] then [] else Concat(chunks[..|chunks| - 1]) + chunks[|chunks| - 1]
  }

  /** Sum of the chunk lengths. */
  function SampleCount(chunks: seq<Chunk>): nat
  {
    if chunks == [] then 0 else SampleCount(chunks[..|chunks| - 1]) + |chunks[|chunks| - 1]|
  }

  /** The clip holds every sample that arrived, and nothing else. */
  lemma {:induction false} ConcatLength(chunks: seq<Chunk>)
    ensures |Concat(chunks)| == SampleCount(chunks)
  {
    if chunks != [] {
      ConcatLength(chunks[..|chunks| - 1]);
    }
  }

  /** Concatenation respects arrival order across any split of the chunks. */
  lemma {:induction false} ConcatAppend(a: seq<Chunk>, b: seq<Chunk>)
    ensures Concat(a + b) == Concat(a) + Concat(b)
    decreases |b|
  {
    if b == [] {
      assert a + b == a;
    } else {
      var front, last := b[..|b| - 1], b[|b| - 1];
      assert (a + b)[..|a + b| - 1] == a + front;
      assert (a + b)[|a + b| - 1] == last;
      ConcatAppend(a, front);
      assert Concat(b) == Concat(front) + last;
    }
  }

  class AudioRecorder {
    const maxDuration: int
    const fs: int
    var recording: bool
    var audioData: seq<Chunk>
    /** `start_time`: None until the first recording starts. */
    var startTime: Option<int>
    /** Whether an input stream is held (`self.stream` is not None). */
    var streamOpen: bool

    /** An open stream belongs to a running recording. */
    ghost predicate Valid()
      reads this
    {
      streamOpen ==> recording
    }

    constructor (maxDuration: int, fs: int)
      ensures Valid()
      ensures this.maxDuration == maxDuration && this.fs == fs
      ensures !recording && audioData == [] && startTime == None && !streamOpen
    {
      this.maxDuration := maxDuration;
      this.fs := fs;
      recording := false;
      audioData := [];
      startTime := None;
      streamOpen := false;
    }

    /**
     * start_recording at clock `now`. The recording flag, the emptied chunk
     * list and the start time are set before the stream is opened, so they
     * stay set when opening fails (`streamOk` false, reported as `ok` false).
     */
    method StartRecording(now: int, streamOk: bool) returns (ok: bool)
      requires Valid()
      modifies this
      ensures Valid()
      ensures recording && audioData == [] && startTime == Some(now)
      ensures ok == streamOk
      ensures streamOpen == (streamOk || old(streamOpen))
    {
      recording := true;
      audioData := [];
      startTime := Some(now);
      if streamOk {
        streamOpen := true;
      }
      ok := streamOk;
    }

    /** The stream callback: a chunk is kept only while recording. */
    method Callback(chunk: Chunk)
      requires Valid()
      modifies this`audioData
      ensures Valid()
      ensures audioData == if recording then old(audioData) + [chunk] else old(audioData)
    {
      if recording {
        audioData := audioData + [chunk];
      }
    }

    /**
     * stop_recording: nothing happens when not recording. Otherwise the
     * recording stops, the stream is released, and the clip is the chunks
     * concatenated in arrival order, or None when no chunk arrived or the
     * WAV file could not be written (`writeOk` false).
     */
    method StopRecording(writeOk: bool) returns (clip: Option<seq<int>>)
      requires Valid()
      modifies this
      ensures Valid()
      ensures !old(recording) ==> clip == None && unchanged(this)
      ensures old(recording) ==> !recording && !streamOpen
      ensures audioData == old(audioData) && startTime == old(startTime)
      ensures old(recording) ==>
        clip == if old(audioData) == [] || !writeOk then None else Some(Concat(old(audioData)))
    {
      if !recording {
        return None;
      }
      recording := false;
      if streamOpen {
        streamOpen := false;
      }
      if audioData == [] {
        return None;
      }
      var finalAudio := Concat(audioData);
      if !writeOk {
        return None;
      }
      clip := Some(finalAudio);
    }

    /**
     * get_recording_duration at clock `now`: the time since the start while
     * recording; 0 when not recording or when no (truthy) start time is held
     * (Python treats a start time of 0 as absent).
     */
    function RecordingDuration(now: int): (d: int)
      reads this
      ensures !recording ==> d == 0
      ensures recording && startTime.Some? && startTime.value != 0 ==> d + startTime.value == now
      ensures startTime == None || startTime == Some(0) ==> d == 0
    {
      if startTime.Some? && startTime.value != 0 && recording then now - startTime.value else 0
    }

    /** is_max_duration_reached: the duration has reached the cap. */
    function IsMaxDurationReached(now: int): (reached: bool)
      reads this
      ensures reached <==> RecordingDuration(now) >= maxDuration
      ensures !recording ==> (reached <==> maxDuration <= 0)
    {
      RecordingDuration(now) >= maxDuration
    }
  }
}
