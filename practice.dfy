/** The practice-word recorder of frontend/js/recording.js: a second,
    independent recorder with the fields of `practiceRecordingState`, the
    module-level practice timer and `window.practiceAudioBlob`. It shares
    the chunk filter and the WAV finaliser with the main recorder but not
    its state; it has no cleanup of its own and keeps the stream until a
    stop. */
module Practice {
  import opened Js
  import opened Browser
  import opened Codec
  import opened Wav
  import opened Lifecycle
  import opened Utils

  /** practiceRecordingState, the practice timer and the finished WAV. The
      last two fields count what the browser still holds but no field
      refers to any more: live microphone streams replaced by a new one,
      and the AudioContexts of WAV conversions whose decode failed. */
  datatype PracticeState = PracticeState(
    isRecording: bool,
    stream: Stream,
    recorder: Option<MediaRecorder>,
    chunks: seq<Blob>,
    timerRunning: bool,
    startTime: int,
    timerText: string,
    practiceBlob: Option<Blob>,
    leakedStreams: nat,
    leakedContexts: nat)

  function PracticeInitial(): PracticeState {
    PracticeState(false, NoStream, None, [], false, 0, "00:00", None, 0, 0)
  }

  /** What startPracticeRecording asks the platform and the clock: the
      microphone, codec support, whether MediaRecorder.start succeeds, and
      the time. */
  datatype PracticeEnv = PracticeEnv(acquisition: Acquisition, supported: string -> bool, recorderStarts: bool, now: int)

  /** Ignored because already recording, started, or failed with the one
      message "Не удалось начать запись". */
  datatype PracticeOutcome = AlreadyRunning | PracticeStarted | PracticeFailed

  datatype PracticeStep = PracticeStep(next: PracticeState, outcome: PracticeOutcome)

  /** Every chunk kept is non-empty and every WAV kept is a WAV. */
  predicate PracticeValid(s: PracticeState) {
    (forall i :: 0 <= i < |s.chunks| ==> s.chunks[i].Size() > 0) &&
    (s.practiceBlob.Some? ==> IsWavBlob(s.practiceBlob.value))
  }

  /** startPracticeRecording. A refused microphone leaves everything as it
      was; a MediaRecorder that rejects the type leaves the new stream
      acquired and the recorder as it was. A granted stream is stored over
      the old one without stopping it, so a live old stream leaks. */
  function StartPractice(s: PracticeState, env: PracticeEnv): PracticeStep {
    if s.isRecording then PracticeStep(s, AlreadyRunning)
    else match env.acquisition
      case Refused(_) => PracticeStep(s, PracticeFailed)
      case Granted =>
        var t := s.(stream := Stream(true),
                    leakedStreams := s.leakedStreams + if s.stream == Stream(true) then 1 else 0);
        var mimeType := MimeTypeOrFallback(PracticeCandidates, env.supported);
        if !env.supported(mimeType) then PracticeStep(t, PracticeFailed)
        else
          var begun := t.(chunks := [], isRecording := true, timerRunning := true, startTime := env.now);
          if !env.recorderStarts then
            PracticeStep(begun.(recorder := Some(MediaRecorder(mimeType, Inactive))), PracticeFailed)
          else PracticeStep(begun.(recorder := Some(MediaRecorder(mimeType, Recording))), PracticeStarted)
  }

  /** ondataavailable of the practice recorder: the main recorder's filter. */
  function PracticeOnData(s: PracticeState, data: Option<Blob>): PracticeState {
    if data.Some? && data.value.Size() > 0 then s.(chunks := s.chunks + [data.value]) else s
  }

  /** onstop of the practice recorder: a WAV only from a non-empty capture
      that decodes; every error is swallowed. Chunks are kept. A failed
      decode leaves the conversion's AudioContext open. */
  function PracticeOnStop(s: PracticeState, decode: seq<Byte> -> Decoded): PracticeState {
    if s.chunks == [] || s.recorder == None then s
    else match decode(Concat(s.chunks))
      case DecodeError => s.(leakedContexts := s.leakedContexts + 1)
      case Decoded(pcm) => s.(practiceBlob := Some(WavBlob(pcm)))
  }

  /** stopPracticeRecording: timer stopped and reset to "00:00", recorder
      asked to stop, stream released. */
  function StopPractice(s: PracticeState): PracticeState {
    if !s.isRecording then s
    else s.(isRecording := false, timerRunning := false, timerText := "00:00",
            recorder := if s.recorder.Some? then Some(s.recorder.value.(state := Inactive)) else None,
            stream := NoStream)
  }

  /** The practice timer's text after `elapsed` whole seconds. */
  function PracticeTimerText(elapsed: nat): string {
    Pad2(elapsed / 60) + ":" + Pad2(elapsed % 60)
  }

  /** One tick of the practice timer's interval. */
  function PracticeTick(s: PracticeState, now: int): PracticeState
    requires s.startTime <= now
  {
    s.(timerText := PracticeTimerText((now - s.startTime) / 1000))
  }

  // ---------------------------------------------------------------------
  // Properties

  /** A start while recording is ignored; a refused microphone changes
      nothing; a successful start records with the first supported type of
      the practice list (or the fallback), from an empty chunk list. */
  lemma StartPracticeEffect(s: PracticeState, env: PracticeEnv)
    ensures s.isRecording ==> StartPractice(s, env) == PracticeStep(s, AlreadyRunning)
    ensures !s.isRecording && env.acquisition.Refused? ==> StartPractice(s, env) == PracticeStep(s, PracticeFailed)
    ensures StartPractice(s, env).outcome == PracticeStarted ==>
      var r := StartPractice(s, env).next;
      r.isRecording && r.timerRunning && r.chunks == [] && r.stream == Stream(true) &&
      r.recorder == Some(MediaRecorder(MimeTypeOrFallback(PracticeCandidates, env.supported), Recording)) &&
      r.practiceBlob == s.practiceBlob
  {
  }

  /** A start that fails after the microphone was granted keeps the stream
      live. When the MediaRecorder constructor rejects the type, the start
      is not recording, so stopPracticeRecording will not release it: the
      device stays held. When start itself throws, the flag and the timer
      were already set, so the session looks like a recording and a stop
      releases the stream. */
  lemma FailedStartKeepsStream(s: PracticeState, env: PracticeEnv)
    requires !s.isRecording && env.acquisition == Granted
    requires StartPractice(s, env).outcome == PracticeFailed
    ensures StartPractice(s, env).next.stream == Stream(true)
    ensures !env.supported(MimeTypeOrFallback(PracticeCandidates, env.supported)) ==>
      var r := StartPractice(s, env).next;
      !r.isRecording && StopPractice(r) == r
    ensures env.supported(MimeTypeOrFallback(PracticeCandidates, env.supported)) ==>
      var r := StartPractice(s, env).next;
      r.isRecording && r.timerRunning && r.recorder.Some? && r.recorder.value.state == Inactive &&
      StopPractice(r).stream == NoStream && !StopPractice(r).timerRunning
  {
  }

  /** A practice recorder whose start throws: the error is shown, but the
      flag and the timer stay on, so a second start is ignored until the
      stop button is pressed. */
  lemma PracticeStartThrowLooksRecording(s: PracticeState, env: PracticeEnv)
    requires !s.isRecording && env.acquisition == Granted && !env.recorderStarts
    requires env.supported(MimeTypeOrFallback(PracticeCandidates, env.supported))
    ensures var step := StartPractice(s, env);
      step.outcome == PracticeFailed && step.next.isRecording && step.next.timerRunning &&
      StartPractice(step.next, env) == PracticeStep(step.next, AlreadyRunning)
  {
  }

  /** A stop releases the stored stream, stops the timer and shows "00:00";
      a stop while not recording changes nothing. Chunks stay for onstop.
      Streams leaked by earlier starts stay held. */
  lemma StopPracticeReleases(s: PracticeState)
    ensures !s.isRecording ==> StopPractice(s) == s
    ensures s.isRecording ==>
      var r := StopPractice(s);
      !r.isRecording && r.stream == NoStream && !r.timerRunning && r.timerText == "00:00" &&
      r.chunks == s.chunks && (r.recorder.Some? ==> r.recorder.value.state == Inactive) &&
      r.leakedStreams == s.leakedStreams && r.leakedContexts == s.leakedContexts
  {
  }

  /** The practice onstop stores the decoded audio's WAV exactly when there
      is a capture to decode; otherwise the previous take's WAV remains.
      Besides the WAV it changes only the count of leaked contexts, by one
      exactly when the decode fails. */
  lemma PracticeOnStopEffect(s: PracticeState, decode: seq<Byte> -> Decoded)
    ensures PracticeOnStop(s, decode).practiceBlob != s.practiceBlob ==>
      s.chunks != [] && s.recorder.Some? && decode(Concat(s.chunks)).Decoded? &&
      PracticeOnStop(s, decode).practiceBlob == Some(WavBlob(decode(Concat(s.chunks)).pcm))
    ensures s.chunks == [] ==> PracticeOnStop(s, decode) == s
    ensures PracticeOnStop(s, decode).(practiceBlob := s.practiceBlob, leakedContexts := s.leakedContexts) == s
    ensures PracticeOnStop(s, decode).leakedContexts == s.leakedContexts +
      if s.chunks != [] && s.recorder.Some? && decode(Concat(s.chunks)).DecodeError? then 1 else 0
  {
  }

  /** A start leaks a stream exactly when it is granted a new one while the
      stored one is still live. */
  lemma StartPracticeLeaks(s: PracticeState, env: PracticeEnv)
    ensures StartPractice(s, env).next.leakedStreams == s.leakedStreams +
      if !s.isRecording && env.acquisition == Granted && s.stream == Stream(true) then 1 else 0
    ensures StartPractice(s, env).next.leakedContexts == s.leakedContexts
  {
  }

  /** Chunk delivery and timer ticks keep both leak counts; with the stop
      above, only a start and onstop change them, and only upwards. */
  lemma PracticeLeaksPersist(s: PracticeState, data: Option<Blob>, now: int)
    requires s.startTime <= now
    ensures PracticeOnData(s, data).leakedStreams == s.leakedStreams &&
            PracticeOnData(s, data).leakedContexts == s.leakedContexts
    ensures PracticeTick(s, now).leakedStreams == s.leakedStreams &&
            PracticeTick(s, now).leakedContexts == s.leakedContexts
  {
  }

  /** A start that fails after the grant, then a start that succeeds, then
      a stop: the stop releases only the second stream, and the first one
      keeps the microphone. */
  lemma FailThenStartLeaksStream(s: PracticeState, bad: PracticeEnv, good: PracticeEnv)
    requires !s.isRecording && bad.acquisition == Granted
    requires StartPractice(s, bad).outcome == PracticeFailed
    requires StartPractice(StartPractice(s, bad).next, good).outcome == PracticeStarted
    ensures var failed := StartPractice(s, bad).next;
      var r := StopPractice(StartPractice(failed, good).next);
      r.stream == NoStream && r.leakedStreams == failed.leakedStreams + 1 &&
      r.leakedStreams > s.leakedStreams
  {
    FailedStartKeepsStream(s, bad);
  }

  /** A take that yields no chunk leaves the WAV of the previous take in
      place: a start does not clear it and the onstop keeps it. */
  lemma EmptyTakeKeepsPreviousWav(s: PracticeState, env: PracticeEnv, decode: seq<Byte> -> Decoded)
    requires StartPractice(s, env).outcome == PracticeStarted
    ensures PracticeOnStop(StopPractice(StartPractice(s, env).next), decode).practiceBlob == s.practiceBlob
  {
  }

  /** Delivered chunks are the non-empty ones, in order, as for the main
      recorder. */
  lemma {:induction false} PracticeDeliver(s: PracticeState, events: seq<Option<Blob>>)
    ensures PracticeDeliverAll(s, events) == s.(chunks := s.chunks + NonEmpty(events))
    decreases |events|
  {
    if events != [] {
      PracticeDeliver(PracticeOnData(s, events[0]), events[1..]);
    }
  }

  function PracticeDeliverAll(s: PracticeState, events: seq<Option<Blob>>): PracticeState
    decreases |events|
  {
    if events == [] then s else PracticeDeliverAll(PracticeOnData(s, events[0]), events[1..])
  }

  /** Seconds and minutes of the practice timer read back as the whole
      seconds elapsed. */
  lemma PracticeTimerReadsBack(elapsed: nat)
    ensures ReadClock(PracticeTimerText(elapsed)) == Some(elapsed)
  {
    var m, sec := Pad2(elapsed / 60), Pad2(elapsed % 60);
    var t := PracticeTimerText(elapsed);
    assert t == m + ":" + sec;
    assert t[..|t| - 3] == m && t[|t| - 2..] == sec;
    Pad2RoundTrip(elapsed / 60);
    Pad2RoundTrip(elapsed % 60);
  }

  /** The practice timer's text is formatTime of the whole seconds. */
  lemma PracticeTimerIsFormatTime(elapsed: nat)
    ensures PracticeTimerText(elapsed) == FormatTime(Num(elapsed as real))
  {
    var x := elapsed as real;
    ClockFields(x);
    assert x.Floor == elapsed;
  }

  lemma PracticeInitialValid()
    ensures PracticeValid(PracticeInitial())
  {
  }

  lemma StartPracticePreservesValid(s: PracticeState, env: PracticeEnv)
    requires PracticeValid(s)
    ensures PracticeValid(StartPractice(s, env).next)
  {
  }

  lemma PracticeOnDataPreservesValid(s: PracticeState, data: Option<Blob>)
    requires PracticeValid(s)
    ensures PracticeValid(PracticeOnData(s, data))
  {
  }

  lemma PracticeOnStopPreservesValid(s: PracticeState, decode: seq<Byte> -> Decoded)
    requires PracticeValid(s)
    ensures PracticeValid(PracticeOnStop(s, decode))
  {
  }

  lemma StopPracticePreservesValid(s: PracticeState)
    requires PracticeValid(s)
    ensures PracticeValid(StopPractice(s))
  {
  }

  // ---------------------------------------------------------------------
  // The object

  class PracticeRecorder {
    var isRecording: bool
    var mediaStream: Stream
    var mediaRecorder: Option<MediaRecorder>
    var audioChunks: seq<Blob>
    var timerRunning: bool       // practiceTimerInterval != null
    var startTime: int           // practiceStartTime
    var timerText: string        // the #practice-timer element
    var practiceAudioBlob: Option<Blob>
    var leakedStreams: nat       // live streams mediaStream no longer holds
    var leakedContexts: nat      // conversion contexts left open

    function Snapshot(): PracticeState
      reads this
    {
      PracticeState(isRecording, mediaStream, mediaRecorder, audioChunks, timerRunning, startTime,
                    timerText, practiceAudioBlob, leakedStreams, leakedContexts)
    }

    predicate Valid()
      reads this
    {
      PracticeValid(Snapshot())
    }

    constructor ()
      ensures Snapshot() == PracticeInitial() && Valid()
    {
      isRecording, mediaStream, mediaRecorder, audioChunks := false, NoStream, None, [];
      timerRunning, startTime, timerText, practiceAudioBlob := false, 0, "00:00", None;
      leakedStreams, leakedContexts := 0, 0;
    }

    /** startPracticeRecording. */
    method StartPracticeRecording(env: PracticeEnv) returns (outcome: PracticeOutcome)
      requires Valid()
      modifies this
      ensures PracticeStep(Snapshot(), outcome) == StartPractice(old(Snapshot()), env) && Valid()
    {
      StartPracticePreservesValid(Snapshot(), env);
      if isRecording {
        return AlreadyRunning;
      }
      if env.acquisition.Refused? {
        return PracticeFailed;
      }
      if mediaStream == Stream(true) {
        leakedStreams := leakedStreams + 1;
      }
      mediaStream := Stream(true);
      var supportedMimeType := ChooseMimeType(PracticeCandidates, env.supported);
      if !env.supported(supportedMimeType) {
        return PracticeFailed;
      }
      mediaRecorder := Some(MediaRecorder(supportedMimeType, Inactive));
      audioChunks := [];
      isRecording := true;
      startTime := env.now;
      timerRunning := true;
      if !env.recorderStarts {
        return PracticeFailed;
      }
      mediaRecorder := Some(MediaRecorder(supportedMimeType, Recording));
      outcome := PracticeStarted;
    }

    /** ondataavailable. */
    method OnDataAvailable(data: Option<Blob>)
      requires Valid()
      modifies this
      ensures Snapshot() == PracticeOnData(old(Snapshot()), data) && Valid()
    {
      if data.Some? && data.value.Size() > 0 {
        audioChunks := audioChunks + [data.value];
      }
    }

    /** onstop: convert a non-empty capture to WAV with Wav.AudioBufferToWav. */
    method OnStop(decode: seq<Byte> -> Decoded)
      requires Valid()
      modifies this
      ensures Snapshot() == PracticeOnStop(old(Snapshot()), decode) && Valid()
    {
      PracticeOnStopPreservesValid(Snapshot(), decode);
      if |audioChunks| > 0 && mediaRecorder.Some? {
        var audioBlob := Blob(Concat(audioChunks), mediaRecorder.value.mimeType);
        match decode(audioBlob.bytes)
        case DecodeError =>
          leakedContexts := leakedContexts + 1;
        case Decoded(audioBuffer) =>
          var wavBuffer := AudioBufferToWav(audioBuffer);
          var wavBlob := Blob(wavBuffer[..], "audio/wav");
          assert wavBlob == WavBlob(audioBuffer);
          practiceAudioBlob := Some(wavBlob);
      }
    }

    /** stopPracticeRecording. */
    method StopPracticeRecording()
      requires Valid()
      modifies this
      ensures Snapshot() == StopPractice(old(Snapshot())) && Valid()
    {
      if !isRecording {
        return;
      }
      isRecording := false;
      timerRunning := false;
      timerText := "00:00";
      if mediaRecorder.Some? {
        mediaRecorder := Some(mediaRecorder.value.(state := Inactive));
      }
      if mediaStream.Stream? {
        mediaStream := NoStream;
      }
    }

    /** One tick of the practice timer's interval. */
    method OnTimerTick(now: int)
      requires Valid() && startTime <= now
      modifies this
      ensures Snapshot() == PracticeTick(old(Snapshot()), now) && Valid()
    {
      var elapsed := (now - startTime) / 1000;
      var mins := elapsed / 60;
      var secs := elapsed % 60;
      timerText := Pad2(mins) + ":" + Pad2(secs);
    }
  }
}
