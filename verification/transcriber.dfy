/** The recording buffer of `AudioTranscriber` and the post-processing of
    `WhisperAPITranscriber.transcribe_audio` (transcriber.py).

    The capture thread, the stop event and the asyncio queue become one
    object whose methods run one after the other: `StartRecording` is
    `start_recording` together with the set-up at the top of `_record`,
    `RecordStep` is one iteration of the capture loop, `Record` the loop over
    the frames read before the stop signal, `StopRecording` is
    `stop_recording` with `_finish_transcription`. The speech-to-text service
    is the function `transcribe`, given the audio payload; it answers `None`
    where the client call raises. */
module Transcriber {
  import opened Wrappers
  import opened Text

  newtype byte = x: int | 0 <= x < 256

  /** One capture frame as read from the audio stream: raw PCM bytes. */
  type Frame = seq<byte>

  const RATE: int := 16000
  const CHUNK_DURATION_MS: int := 30
  const CHUNK: int := RATE * CHUNK_DURATION_MS / 1000

  /** A frame holds 480 samples, exactly 30 ms at 16 kHz: the division that
      computes it leaves no remainder. */
  lemma ChunkSize()
    ensures CHUNK == 480
    ensures CHUNK * 1000 == RATE * CHUNK_DURATION_MS
  {
  }

  /** `b"".join(frames)`. */
  function Concat(frames: seq<Frame>): seq<byte>
    decreases |frames|
  {
    if frames == [] then [] else Concat(frames[..|frames| - 1]) + frames[|frames| - 1]
  }

  /** Joining distributes over concatenation of frame lists: frames captured
      later always come later in the payload. */
  lemma {:induction false} ConcatAppend(a: seq<Frame>, b: seq<Frame>)
    ensures Concat(a + b) == Concat(a) + Concat(b)
    decreases |b|
  {
    if b == [] {
      assert a + b == a;
    } else {
      var b' := b[..|b| - 1];
      assert (a + b)[..|a + b| - 1] == a + b';
      ConcatAppend(a, b');
    }
  }

  /** The payload of `n` frames of equal size `size` has `n * size` bytes. */
  lemma {:induction false} ConcatSize(frames: seq<Frame>, size: nat)
    requires forall i :: 0 <= i < |frames| ==> |frames[i]| == size
    ensures |Concat(frames)| == |frames| * size
    decreases |frames|
  {
    if frames != [] {
      ConcatSize(frames[..|frames| - 1], size);
      assert |frames| * size == (|frames| - 1) * size + size;
    }
  }

  /** The prompt sent with every transcription request. */
  const PROMPT: string := "The following is normal speech."

  /** `transcribe_audio` after the service answered: a failed call gives
      `""`; otherwise every occurrence of the prompt is removed and the text
      stripped. The result never has whitespace at either end and is never
      longer than the response. */
  function TranscribeResponse(response: Option<string>): (t: string)
    ensures IsStripped(t)
    ensures response.None? ==> t == ""
    ensures response.Some? ==> |t| <= |response.value|
  {
    match response
    case None => ""
    case Some(text) => Strip(RemoveAll(text, PROMPT))
  }

  /** A response that does not echo the prompt is only stripped. */
  lemma ResponseWithoutPrompt(text: string)
    requires !Contains(text, PROMPT)
    ensures TranscribeResponse(Some(text)) == Strip(text)
  {
  }

  /** Speech around an echoed prompt survives: the prompt is cut out and the
      text on both sides is kept, then stripped as one. This holds when the
      prompt occurs nowhere else, in particular not starting inside the
      text before it. */
  lemma ResponseAroundPrompt(before: string, after: string)
    requires forall i :: 0 <= i < |before| ==> !OccursAt(before + PROMPT + after, PROMPT, i)
    requires !Contains(after, PROMPT)
    ensures TranscribeResponse(Some(before + PROMPT + after)) == Strip(before + after)
  {
    RemoveAllAfter(before, PROMPT, after);
  }

  /** A response that is only the prompt, possibly padded with whitespace,
      transcribes to nothing. */
  lemma ResponseOnlyPrompt(pad: string, pad': string)
    requires AllSpace(pad) && AllSpace(pad')
    ensures TranscribeResponse(Some(pad + PROMPT + pad')) == ""
  {
    RemovePaddedPrompt(pad, pad');
  }

  lemma {:induction false} RemovePaddedPrompt(pad: string, pad': string)
    requires AllSpace(pad) && AllSpace(pad')
    ensures AllSpace(RemoveAll(pad + PROMPT + pad', PROMPT))
    decreases |pad|
  {
    var s := pad + PROMPT + pad';
    if pad == [] {
      assert s[..|PROMPT|] == PROMPT;
      assert s[|PROMPT|..] == pad';
      RemoveAllSpaces(pad');
    } else {
      assert s[0] == pad[0];
      assert !IsSpace(PROMPT[0]);
      assert s[..|PROMPT|] != PROMPT by {
        assert s[..|PROMPT|][0] == pad[0];
      }
      assert s[1..] == pad[1..] + PROMPT + pad';
      RemovePaddedPrompt(pad[1..], pad');
    }
  }

  /** Whitespace contains no prompt, so removing the prompt keeps it all. */
  lemma {:induction false} RemoveAllSpaces(pad: string)
    requires AllSpace(pad)
    ensures RemoveAll(pad, PROMPT) == pad
    decreases |pad|
  {
    if |pad| >= |PROMPT| {
      assert pad[..|PROMPT|] != PROMPT by {
        assert IsSpace(pad[..|PROMPT|][0]);
        assert !IsSpace(PROMPT[0]);
      }
      RemoveAllSpaces(pad[1..]);
    }
  }

  /** An item of the `transcriptions` queue: the text and the recording's
      duration in milliseconds. */
  datatype Transcription = Transcription(text: string, durationMs: int)

  /** What `_finish_transcription` puts on the queue for a recording: nothing
      when no frame was captured or the transcription is empty (including a
      failed call), otherwise the stripped transcription of the whole payload
      and the duration. */
  function FinalTranscription(transcribe: seq<byte> -> Option<string>, allFrames: seq<Frame>, durationMs: int): Option<Transcription> {
    if allFrames == [] then None
    else
      var text := TranscribeResponse(transcribe(Concat(allFrames)));
      if text != "" then Some(Transcription(Strip(text), durationMs)) else None
  }

  /** Exactly one item is produced iff frames were captured and the service
      returned text that survives post-processing; that item is the
      post-processed text itself (non-empty, already stripped, so the second
      strip changes nothing) with the given duration. */
  lemma FinalTranscriptionSpec(transcribe: seq<byte> -> Option<string>, allFrames: seq<Frame>, durationMs: int)
    ensures var r := FinalTranscription(transcribe, allFrames, durationMs);
      var text := TranscribeResponse(transcribe(Concat(allFrames)));
      && (r.Some? <==> allFrames != [] && text != "")
      && (r.Some? ==> r.value == Transcription(text, durationMs))
  {
    if allFrames != [] {
      var text := TranscribeResponse(transcribe(Concat(allFrames)));
      StripOfStripped(text);
    }
  }

  /** A failed service call, or a recording without frames, puts nothing on
      the queue. */
  lemma FailedTranscriptionEnqueuesNothing(transcribe: seq<byte> -> Option<string>, allFrames: seq<Frame>, durationMs: int)
    requires allFrames == [] || transcribe(Concat(allFrames)).None?
    ensures FinalTranscription(transcribe, allFrames, durationMs) == None
  {
  }

  /** The recording state of `AudioTranscriber` (transcriber.py:28-44). */
  class AudioTranscriber {
    const useVad: bool
    /** The speech-to-text service, applied to the joined PCM payload. */
    const transcribe: seq<byte> -> Option<string>

    /** `recording_finished.is_set()`. */
    var recordingFinished: bool
    var frames: seq<Frame>
    var initialBuffer: seq<Frame>
    var allFrames: seq<Frame>
    /** Milliseconds of audio captured so far. */
    var audioDuration: int
    var rollingTranscriptions: seq<(int, string)>
    /** Pending chunk requests; the threads themselves are not modelled. */
    var rollingRequests: seq<nat>
    /** The asyncio queue read by `get_transcriptions`, oldest first. */
    var transcriptions: seq<Transcription>
    var isProcessing: bool

    /** What holds between any two calls: the duration is 30 ms per captured
        frame, `frames` always holds the same frames as `all_frames` (with
        or without VAD, which is never consulted), and the initial buffer and
        the rolling lists stay empty. */
    ghost predicate Valid()
      reads this
    {
      && audioDuration == CHUNK_DURATION_MS * |allFrames|
      && frames == allFrames
      && initialBuffer == []
      && rollingRequests == []
      && rollingTranscriptions == []
    }

    constructor (useVad: bool, transcribe: seq<byte> -> Option<string>)
      ensures Valid()
      ensures this.useVad == useVad && this.transcribe == transcribe
      ensures recordingFinished && !isProcessing
      ensures allFrames == [] && audioDuration == 0 && transcriptions == []
    {
      this.useVad := useVad;
      this.transcribe := transcribe;
      recordingFinished := true;
      frames := [];
      initialBuffer := [];
      allFrames := [];
      audioDuration := 0;
      rollingTranscriptions := [];
      rollingRequests := [];
      transcriptions := [];
      isProcessing := false;
    }

    /** `start_recording` and the set-up of `_record`: clears the processing
        flag and the stop event, and empties the buffers. */
    method StartRecording()
      requires Valid()
      modifies this
      ensures Valid()
      ensures !isProcessing && !recordingFinished
      ensures allFrames == [] && frames == [] && audioDuration == 0
      ensures transcriptions == old(transcriptions)
    {
      isProcessing := false;
      recordingFinished := false;
      frames := [];
      initialBuffer := [];
      allFrames := [];
      audioDuration := 0;
    }

    /** One iteration of the capture loop with the frame just read: runs only
        while the stop event is not set, and then appends the frame to
        `all_frames` (and so to `frames`) and adds 30 ms. */
    method RecordStep(data: Frame) returns (recorded: bool)
      requires Valid()
      modifies this
      ensures Valid()
      ensures recorded == !old(recordingFinished)
      ensures allFrames == (if recorded then old(allFrames) + [data] else old(allFrames))
      ensures audioDuration == old(audioDuration) + (if recorded then CHUNK_DURATION_MS else 0)
      ensures frames == allFrames
      ensures recordingFinished == old(recordingFinished) && isProcessing == old(isProcessing)
      ensures transcriptions == old(transcriptions)
    {
      recorded := !recordingFinished;
      if recorded {
        audioDuration := audioDuration + CHUNK_DURATION_MS;
        allFrames := allFrames + [data];
        if useVad {
          frames := frames + [data];
        } else {
          frames := allFrames;
        }
      }
    }

    /** The capture loop over the frames read from the stream until the stop
        event is observed: every frame is appended in order. */
    method Record(stream: seq<Frame>)
      requires Valid()
      modifies this
      ensures Valid()
      ensures allFrames == (if old(recordingFinished) then old(allFrames) else old(allFrames) + stream)
      ensures audioDuration == CHUNK_DURATION_MS * |allFrames|
      ensures recordingFinished == old(recordingFinished) && isProcessing == old(isProcessing)
      ensures transcriptions == old(transcriptions)
    {
      var i := 0;
      while i < |stream| && !recordingFinished
        invariant 0 <= i <= |stream|
        invariant Valid()
        invariant recordingFinished == old(recordingFinished)
        invariant isProcessing == old(isProcessing)
        invariant transcriptions == old(transcriptions)
        invariant !recordingFinished ==> allFrames == old(allFrames) + stream[..i]
        invariant recordingFinished ==> i == 0 && allFrames == old(allFrames)
      {
        var _ := RecordStep(stream[i]);
        assert stream[..i + 1] == stream[..i] + [stream[i]];
        i := i + 1;
      }
      assert !recordingFinished ==> stream[..i] == stream;
    }

    /** `_finish_transcription`: drains the queue, then enqueues the final
        transcription of the whole recording, if any. */
    method FinishTranscription()
      requires Valid()
      modifies this`transcriptions
      ensures transcriptions == OptionToSeq(FinalTranscription(transcribe, allFrames, audioDuration))
    {
      while transcriptions != []
        decreases |transcriptions|
      {
        transcriptions := transcriptions[1..];
      }
      if allFrames != [] {
        var payload := Concat(allFrames);
        var text := TranscribeResponse(transcribe(payload));
        if text != "" {
          transcriptions := transcriptions + [Transcription(Strip(text), audioDuration)];
        }
      }
    }

    /** `stop_recording`: a no-op while a finalisation is in progress;
        otherwise sets the stop event, finalises, and resets every buffer.
        The queue then holds at most the one final item, whose duration is
        30 ms per frame captured. */
    method StopRecording()
      requires Valid()
      modifies this
      ensures Valid()
      ensures old(isProcessing) ==> unchanged(this)
      ensures !old(isProcessing) ==>
        && recordingFinished && !isProcessing
        && allFrames == [] && frames == [] && initialBuffer == [] && audioDuration == 0
        && rollingRequests == [] && rollingTranscriptions == []
        && transcriptions == OptionToSeq(FinalTranscription(transcribe, old(allFrames), old(audioDuration)))
      ensures !old(isProcessing) ==>
        forall t :: t in transcriptions ==> t.durationMs == CHUNK_DURATION_MS * |old(allFrames)|
    {
      if !isProcessing {
        isProcessing := true;
        recordingFinished := true;
        FinishTranscription();
        FinalTranscriptionSpec(transcribe, allFrames, audioDuration);
        frames := [];
        initialBuffer := [];
        allFrames := [];
        audioDuration := 0;
        rollingRequests := [];
        rollingTranscriptions := [];
        isProcessing := false;
      }
    }

    /** `_frames_to_wav`: the PCM payload written into the WAV container is
        `initial_buffer + frames`, which is the whole recording in capture
        order. */
    method FramesToWav() returns (payload: seq<byte>)
      requires Valid()
      ensures payload == Concat(allFrames)
    {
      payload := Concat(initialBuffer + frames);
      assert initialBuffer + frames == allFrames;
    }
  }

  /** Nothing keeps `is_processing` set between calls, so a second
      `stop_recording` straight after a first is not skipped: it finalises an
      empty recording, and its drain throws away the item the first stop
      queued. */
  method StopTwice(t: AudioTranscriber)
    requires t.Valid() && !t.isProcessing
    modifies t
    ensures t.Valid() && !t.isProcessing
    ensures t.transcriptions == [] && t.allFrames == []
  {
    t.StopRecording();
    t.StopRecording();
  }
}
