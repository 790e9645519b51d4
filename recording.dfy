/** The recording state of `VoiceAnalysisService`: the fields `mediaRecorder`,
    `recordedChunks` and `isRecording`, and the three members that change them
    (`startRecording`, the `ondataavailable` handler it installs, and
    `stopRecording` with its `onstop` handler). The browser callbacks are taken
    as ordinary calls made one after another; a chunk is its bytes. */
module Recording {

  type Byte = b: int | 0 <= b < 256
  type Chunk = seq<Byte>

  const AUDIO_MIME_TYPE := "audio/webm"

  /** `new Blob(chunks, { type })`. */
  datatype AudioBlob = AudioBlob(bytes: seq<Byte>, mimeType: string)

  datatype RecorderError =
    | PermissionDenied       // `getUserMedia` refused or failed
    | NoRecordingInProgress  // rejected with "No recording in progress"

  datatype Result<T> = Ok(value: T) | Err(error: RecorderError)

  /** The bytes of the chunks, one after another. */
  function Concat(chunks: seq<Chunk>): seq<Byte> {
    if chunks == [] then [] else Concat(chunks[..|chunks| - 1]) + chunks[|chunks| - 1]
  }

  /** The chunks that `ondataavailable` keeps: those with at least one byte. */
  function NonEmpty(chunks: seq<Chunk>): (kept: seq<Chunk>)
    ensures forall i :: 0 <= i < |kept| ==> |kept[i]| > 0
    ensures |kept| <= |chunks|
  {
    if chunks == [] then []
    else
      var last := chunks[|chunks| - 1];
      NonEmpty(chunks[..|chunks| - 1]) + if |last| > 0 then [last] else []
  }

  /** The audio length is the sum of the chunk lengths. */
  function TotalSize(chunks: seq<Chunk>): nat {
    if chunks == [] then 0 else TotalSize(chunks[..|chunks| - 1]) + |chunks[|chunks| - 1]|
  }

  lemma {:induction false} ConcatSize(chunks: seq<Chunk>)
    ensures |Concat(chunks)| == TotalSize(chunks)
  {
    if chunks != [] {
      ConcatSize(chunks[..|chunks| - 1]);
    }
  }

  lemma ConcatAppend(chunks: seq<Chunk>, chunk: Chunk)
    ensures Concat(chunks + [chunk]) == Concat(chunks) + chunk
  {
  }

  /** Dropping the empty chunks leaves the recorded audio unchanged. */
  lemma {:induction false} NonEmptyConcat(chunks: seq<Chunk>)
    ensures Concat(NonEmpty(chunks)) == Concat(chunks)
  {
    if chunks != [] {
      var prefix, last := chunks[..|chunks| - 1], chunks[|chunks| - 1];
      NonEmptyConcat(prefix);
      if |last| > 0 {
        ConcatAppend(NonEmpty(prefix), last);
      } else {
        assert NonEmpty(chunks) == NonEmpty(prefix);
      }
    }
  }

  /** Audio from a recording whose chunks were all kept is empty exactly when
      no chunk was kept. */
  lemma KeptAudioEmpty(chunks: seq<Chunk>)
    requires forall i :: 0 <= i < |chunks| ==> |chunks[i]| > 0
    ensures Concat(chunks) == [] <==> chunks == []
  {
  }

  class VoiceAnalysisService {
    /** `mediaRecorder !== null`. */
    var hasMediaRecorder: bool
    var recordedChunks: seq<Chunk>
    var isRecording: bool
    /** Every chunk delivered to `ondataavailable` since the buffer was last
        emptied, kept or not. */
    ghost var delivered: seq<Chunk>

    /** The buffer holds exactly the non-empty delivered chunks, in order. */
    ghost predicate Valid()
      reads this
    {
      recordedChunks == NonEmpty(delivered)
    }

    /** The field initialisers: no recorder, an empty buffer, not recording. */
    constructor ()
      ensures Valid()
      ensures !hasMediaRecorder && recordedChunks == [] && !isRecording && delivered == []
    {
      hasMediaRecorder := false;
      recordedChunks := [];
      isRecording := false;
      delivered := [];
    }

    /** `startRecording`: when microphone access is granted, installs a new
        recorder and sets `isRecording`; the buffer is not cleared. When it is
        refused, the error propagates and nothing changes. */
    method StartRecording(microphoneGranted: bool) returns (r: Result<()>)
      requires Valid()
      modifies this
      ensures Valid()
      ensures r.Ok? <==> microphoneGranted
      ensures r.Err? ==> r.error == PermissionDenied
      ensures recordedChunks == old(recordedChunks) && delivered == old(delivered)
      ensures microphoneGranted ==> hasMediaRecorder && isRecording
      ensures !microphoneGranted ==> hasMediaRecorder == old(hasMediaRecorder) && isRecording == old(isRecording)
    {
      if !microphoneGranted {
        return Err(PermissionDenied);
      }
      hasMediaRecorder := true;
      isRecording := true;
      r := Ok(());
    }

    /** The `ondataavailable` handler: a chunk with at least one byte is
        appended; an empty one is dropped. The handler exists only once
        `startRecording` has installed a recorder. */
    method OnDataAvailable(data: Chunk)
      requires Valid() && hasMediaRecorder
      modifies this
      ensures Valid()
      ensures delivered == old(delivered) + [data]
      ensures recordedChunks == if |data| > 0 then old(recordedChunks) + [data] else old(recordedChunks)
      ensures hasMediaRecorder == old(hasMediaRecorder) && isRecording == old(isRecording)
    {
      assert (delivered + [data])[..|delivered|] == delivered;
      if |data| > 0 {
        recordedChunks := recordedChunks + [data];
      }
      delivered := delivered + [data];
    }

    /** `stopRecording` followed by its `onstop` handler: rejected when no
        recorder exists; otherwise the audio is every delivered chunk joined
        in order, the buffer is emptied and `isRecording` cleared. The
        recorder itself is kept. */
    method StopRecording() returns (r: Result<AudioBlob>)
      requires Valid()
      modifies this
      ensures Valid()
      ensures !old(hasMediaRecorder) ==> r == Err(NoRecordingInProgress)
      ensures !old(hasMediaRecorder) ==>
                recordedChunks == old(recordedChunks) && isRecording == old(isRecording) && delivered == old(delivered)
      ensures old(hasMediaRecorder) ==> r == Ok(AudioBlob(Concat(old(recordedChunks)), AUDIO_MIME_TYPE))
      ensures old(hasMediaRecorder) ==> r.value.bytes == Concat(old(delivered))
      ensures old(hasMediaRecorder) ==> (r.value.bytes == [] <==> old(recordedChunks) == [])
      ensures old(hasMediaRecorder) ==> recordedChunks == [] && !isRecording && delivered == []
      ensures hasMediaRecorder == old(hasMediaRecorder)
    {
      if !hasMediaRecorder {
        return Err(NoRecordingInProgress);
      }
      NonEmptyConcat(delivered);
      KeptAudioEmpty(recordedChunks);
      var audioBlob := AudioBlob(Concat(recordedChunks), AUDIO_MIME_TYPE);
      recordedChunks := [];
      isRecording := false;
      delivered := [];
      r := Ok(audioBlob);
    }
  }

  /** A whole session on a fresh service: start with access granted, deliver
      `chunks` in order, stop. The audio is the chunks joined in order. */
  method RecordSession(chunks: seq<Chunk>) returns (r: Result<AudioBlob>)
    ensures r == Ok(AudioBlob(Concat(chunks), AUDIO_MIME_TYPE))
  {
    var service := new VoiceAnalysisService();
    var started := service.StartRecording(true);
    var i := 0;
    while i < |chunks|
      invariant 0 <= i <= |chunks|
      invariant service.Valid() && service.hasMediaRecorder
      invariant service.delivered == chunks[..i]
    {
      service.OnDataAvailable(chunks[i]);
      assert chunks[..i + 1] == chunks[..i] + [chunks[i]];
      i := i + 1;
    }
    assert chunks[..i] == chunks;
    r := service.StopRecording();
  }

  /** Stopping a fresh service, before any start, is rejected. */
  method StopBeforeStart() returns (r: Result<AudioBlob>)
    ensures r == Err(NoRecordingInProgress)
  {
    var service := new VoiceAnalysisService();
    r := service.StopRecording();
  }
}
