/** The main recorder of frontend/js/recording.js as an object: the fields
    of `recordingState` (with the timer and animation handles reduced to
    whether they are scheduled, and the timer text and UI state the code
    writes), updated in place by the source's functions. Every method is
    proved against the transition function of module Lifecycle that
    specifies it, and keeps Lifecycle.Valid. Platform callbacks (chunk
    delivery, onstop, onerror, a track ending, a timer tick, an animation
    frame) are methods the environment calls one at a time. */
module Recorder {
  import opened Js
  import opened Browser
  import opened Codec
  import opened Wav
  import opened Lifecycle

  class MainRecorder {
    var isRecording: bool
    var mediaStream: Stream
    var mediaRecorder: Option<MediaRecorder>
    var audioChunks: seq<Blob>
    var startTime: int
    var timerRunning: bool      // timerInterval != null
    var animationRunning: bool  // animationId != null
    var analyser: bool          // analyser != null
    var audioContext: Context
    var currentBlob: Option<Blob>
    var timerText: string       // the #timer element
    var ui: Ui                  // the last updateRecordingUI state
    var leakedIntervals: nat    // intervals whose id timerInterval no longer holds
    var leakedContexts: nat     // open AudioContexts audioContext no longer holds

    /** The fields as one value of the specification. */
    function Snapshot(): State
      reads this
    {
      State(isRecording, mediaStream, mediaRecorder, audioChunks, startTime, timerRunning,
            animationRunning, analyser, audioContext, currentBlob, timerText, ui,
            leakedIntervals, leakedContexts)
    }

    predicate Valid()
      reads this
    {
      Lifecycle.Valid(Snapshot())
    }

    /** The initial value of recordingState. */
    constructor ()
      ensures Snapshot() == Initial() && Valid()
    {
      isRecording, mediaStream, mediaRecorder, audioChunks := false, NoStream, None, [];
      startTime, timerRunning, animationRunning, analyser := 0, false, false, false;
      audioContext, currentBlob, timerText, ui := NoContext, None, "00:00", Idle;
      leakedIntervals, leakedContexts := 0, 0;
      InitialValid();
    }

    // -------------------------------------------------------------------
    // Timer and visualisation

    /** updateRecordingTimer at time `now`. */
    method UpdateRecordingTimer(now: int)
      requires Valid() && startTime <= now
      modifies this
      ensures Snapshot() == Tick(old(Snapshot()), now) && Valid()
    {
      var elapsed := now - startTime;
      var minutes := elapsed / 60000;
      var seconds := (elapsed / 1000) % 60;
      var hundredths := (elapsed % 1000) / 10;
      timerText := Pad2(minutes) + ":" + Pad2(seconds) + "." + Pad2(hundredths);
      TickPreservesValid(old(Snapshot()), now);
    }

    /** startRecordingTimer: take the start time, schedule the interval and
        show the first text at once. The new interval id replaces the stored
        one without clearing it, so an interval still scheduled leaks. */
    method StartRecordingTimer(now: int)
      modifies this
      ensures Snapshot() == old(Snapshot()).(startTime := now, timerRunning := true, timerText := TimerText(0),
        leakedIntervals := old(leakedIntervals) + if old(timerRunning) then 1 else 0)
    {
      startTime := now;
      if timerRunning {
        leakedIntervals := leakedIntervals + 1;
      }
      timerRunning := true;
      timerText := TimerText(now - startTime);
    }

    /** stopRecordingTimer. */
    method StopRecordingTimer()
      modifies this
      ensures Snapshot() == old(Snapshot()).(timerRunning := false)
    {
      if timerRunning {
        timerRunning := false;
      }
    }

    /** startAudioVisualization: only with an analyser and while recording. */
    method StartAudioVisualization()
      modifies this
      ensures Snapshot() == old(Snapshot()).(animationRunning :=
        if analyser && isRecording then true else old(animationRunning))
    {
      if !analyser || !isRecording {
        return;
      }
      animationRunning := true;
    }

    /** stopAudioVisualization. */
    method StopAudioVisualization()
      modifies this
      ensures Snapshot() == old(Snapshot()).(animationRunning := false)
    {
      if animationRunning {
        animationRunning := false;
      }
    }

    /** One drawVisualization frame. */
    method OnAnimationFrame()
      requires Valid()
      modifies this
      ensures Snapshot() == DrawFrame(old(Snapshot())) && Valid()
    {
      if !isRecording || !analyser {
        animationRunning := false;
      }
      DrawFramePreservesValid(old(Snapshot()));
    }

    // -------------------------------------------------------------------
    // Cleanup and resets

    /** cleanupRecordingResources. */
    method CleanupRecordingResources()
      requires Valid()
      modifies this
      ensures Snapshot() == Cleanup(old(Snapshot())) && Valid()
    {
      StopRecordingTimer();
      StopAudioVisualization();
      if mediaRecorder.Some? && mediaRecorder.value.state != Inactive {
        mediaRecorder := None;
      }
      if mediaStream.Stream? {
        mediaStream := NoStream;
      }
      if audioContext.Context? && !audioContext.closed {
        audioContext := NoContext;
      }
      CleanupPreservesValid(old(Snapshot()));
    }

    /** resetRecordingState. */
    method ResetRecordingState()
      requires Valid()
      modifies this
      ensures Snapshot() == ResetState(old(Snapshot())) && Valid()
    {
      isRecording := false;
      mediaRecorder := None;
      audioChunks := [];
      ui := Idle;
    }

    /** resetRecording: release everything, reset, and show "00:00". */
    method ResetRecording()
      requires Valid()
      modifies this
      ensures Snapshot() == Lifecycle.ResetRecording(old(Snapshot())) && Valid()
    {
      CleanupRecordingResources();
      ResetRecordingState();
      timerText := "00:00";
      ResetRecordingPreservesValid(old(Snapshot()));
    }

    // -------------------------------------------------------------------
    // Start

    /** initializeRecordingSystem; a failure is returned instead of thrown,
        after the cleanup the catch block runs. */
    method InitializeRecordingSystem(env: Env) returns (failure: Option<Failure>)
      requires Valid()
      modifies this
      ensures var r := Initialize(old(Snapshot()), env);
        Snapshot() == r.s && (failure == None <==> r.Ready?) && (r.Failed? ==> failure == Some(r.failure))
      ensures Valid()
    {
      if !env.mediaDevices {
        failure := Some(NoMediaDevices);
        CleanupRecordingResources();
        return;
      }
      if !env.mediaRecorderApi {
        failure := Some(NoMediaRecorderApi);
        CleanupRecordingResources();
        return;
      }
      var supportedMimeType := FindSupportedMimeType(MainCandidates, env.supported);
      if supportedMimeType == None {
        failure := Some(NoSupportedFormat);
        CleanupRecordingResources();
        return;
      }
      match env.acquisition
      case Refused(name) =>
        failure := Some(Failure.Refused(name));
        CleanupRecordingResources();
        return;
      case Granted =>
      mediaStream := Stream(true);
      failure := ConnectAudioGraph(env.audioGraph);
    }

    /** The AudioContext, its analyser and the source node on the granted
        stream; a throw runs the cleanup. */
    method ConnectAudioGraph(graph: AudioGraph) returns (failure: Option<Failure>)
      requires Valid()
      modifies this
      ensures var r := ConnectGraph(old(Snapshot()), graph);
        Snapshot() == r.s && (failure == None <==> r.Ready?) && (r.Failed? ==> failure == Some(r.failure))
      ensures Valid()
    {
      if graph == NoContextClass || graph == ContextThrew {
        failure := Some(if graph == NoContextClass then NoAudioContext else AudioGraphRejected);
        CleanupRecordingResources();
        return;
      }
      if audioContext == Context(false) {
        leakedContexts := leakedContexts + 1;
      }
      audioContext := Context(false);
      analyser := true;
      if graph == SourceThrew {
        failure := Some(AudioGraphRejected);
        CleanupRecordingResources();
        return;
      }
      failure := None;
    }

    /** The catch block of startRecording. */
    method FailStart(f: Failure) returns (outcome: StartOutcome)
      requires Valid()
      modifies this
      ensures Step(Snapshot(), outcome) == StartFailure(old(Snapshot()), f) && Valid()
    {
      ui := ErrorUi(f);
      CleanupRecordingResources();
      outcome := StartFailed(f);
    }

    /** startRecording after the microphone is ready: codec choice, the
        MediaRecorder constructor, then the recording state, the timer and
        the visualisation. */
    method LaunchRecorder(env: Env) returns (outcome: StartOutcome)
      requires Valid()
      modifies this
      ensures Step(Snapshot(), outcome) == Launch(old(Snapshot()), env) && Valid()
    {
      if !env.mediaRecorderApi {
        outcome := FailStart(NoMediaRecorderApi);
        return;
      }
      var supportedMimeType := ChooseMimeType(MainCandidates, env.supported);
      assert supportedMimeType == MimeTypeOrFallback(MainCandidates, env.supported);
      if !env.supported(supportedMimeType) {
        outcome := FailStart(RecorderRejected);
        return;
      }
      if !env.recorderStarts {
        mediaRecorder := Some(MediaRecorder(supportedMimeType, Inactive));
        isRecording := true;
        startTime := env.now;
        outcome := FailStart(RecorderStartFailed);
        return;
      }
      ghost var t := Snapshot();
      BeginRecording(supportedMimeType, env.now);
      outcome := Started;
      assert Launch(t, env) == Step(Snapshot(), Started);
      LaunchPreservesValid(t, env);
    }

    /** The success path of startRecording: the recorder is created and
        started, then the state, the timer and the visualisation follow. */
    method BeginRecording(mimeType: string, now: int)
      requires animationRunning ==> analyser
      modifies this
      ensures Snapshot() == Begin(old(Snapshot()), mimeType, now)
    {
      mediaRecorder := Some(MediaRecorder(mimeType, Inactive));
      isRecording := true;
      startTime := now;
      mediaRecorder := Some(MediaRecorder(mimeType, Recording));
      ui := RecordingUi;
      StartRecordingTimer(now);
      StartAudioVisualization();
    }

    /** startRecording. */
    method StartRecording(env: Env) returns (outcome: StartOutcome)
      requires Valid()
      modifies this
      ensures Step(Snapshot(), outcome) == Start(old(Snapshot()), env) && Valid()
    {
      if !env.hasUser {
        return RedirectLogin;
      }
      if !env.hasText {
        return RedirectLibrary;
      }
      if isRecording {
        return AlreadyRecording;
      }
      currentBlob := None;
      audioChunks := [];
      ghost var cleared := Snapshot();
      if mediaStream == NoStream || !mediaStream.active {
        var failure := InitializeRecordingSystem(env);
        if failure.Some? {
          outcome := FailStart(failure.value);
          return;
        }
      }
      assert Acquire(cleared, env) == Ready(Snapshot());
      outcome := LaunchRecorder(env);
    }

    // -------------------------------------------------------------------
    // Capture, stop and processing

    /** ondataavailable. */
    method OnDataAvailable(data: Option<Blob>)
      requires Valid()
      modifies this
      ensures Snapshot() == OnData(old(Snapshot()), data) && Valid()
    {
      if data.Some? && data.value.Size() > 0 {
        audioChunks := audioChunks + [data.value];
      }
      OnDataPreservesValid(old(Snapshot()), data);
    }

    /** processRecording, with convertToWAV's decoding supplied by the
        platform as `decode` and its WAV built by Wav.AudioBufferToWav. */
    method ProcessRecording(decode: seq<Byte> -> Decoded)
      requires Valid()
      modifies this
      ensures Snapshot() == Process(old(Snapshot()), decode) && Valid()
    {
      ProcessPreservesValid(Snapshot(), decode);
      if |audioChunks| == 0 {
        ui := ErrorUi(EmptyCapture);
        mediaRecorder := None;
        return;
      }
      if mediaRecorder == None {
        ui := ErrorUi(RecorderMissing);
        mediaRecorder := None;
        return;
      }
      var audioBlob := Blob(Concat(audioChunks), mediaRecorder.value.mimeType);
      match decode(audioBlob.bytes)
      case DecodeError =>
        ui := ErrorUi(DecodeFailed);
        mediaRecorder := None;
        leakedContexts := leakedContexts + 1;
      case Decoded(audioBuffer) =>
        StoreWav(audioBuffer);
    }

    /** The success path of processRecording: the decoded audio becomes a
        WAV blob, the success screen shows and the recorder is dropped. */
    method StoreWav(audioBuffer: PcmBuffer)
      modifies this
      ensures Snapshot() == old(Snapshot()).(currentBlob := Some(WavBlob(audioBuffer)), ui := Success, recorder := None)
    {
      var wavBuffer := AudioBufferToWav(audioBuffer);
      var wavBlob := Blob(wavBuffer[..], "audio/wav");
      assert wavBlob == WavBlob(audioBuffer);
      currentBlob := Some(wavBlob);
      ui := Success;
      mediaRecorder := None;
    }

    /** The recorder's onstop handler. */
    method OnStop(decode: seq<Byte> -> Decoded)
      requires Valid()
      modifies this
      ensures Snapshot() == Process(old(Snapshot()), decode) && Valid()
    {
      ProcessRecording(decode);
    }

    /** stopRecording. */
    method StopRecording(decode: seq<Byte> -> Decoded)
      requires Valid()
      modifies this
      ensures Snapshot() == Stop(old(Snapshot()), decode) && Valid()
    {
      if !isRecording || mediaRecorder == None {
        return;
      }
      isRecording := false;
      StopRecordingTimer();
      StopAudioVisualization();
      ui := Processing;
      StopPreservesValid(old(Snapshot()), decode);
      if mediaRecorder.value.state == Recording {
        mediaRecorder := Some(mediaRecorder.value.(state := Inactive));
      } else {
        ProcessRecording(decode);
      }
    }

    /** The recorder's onerror handler. */
    method OnRecorderError()
      requires Valid()
      modifies this
      ensures Snapshot() == OnError(old(Snapshot())) && Valid()
    {
      ResetRecordingState();
    }

    /** The platform ends the microphone track by itself. */
    method OnTrackEnded()
      requires Valid()
      modifies this
      ensures Snapshot() == TrackEnded(old(Snapshot())) && Valid()
    {
      if mediaStream.Stream? {
        mediaStream := Stream(false);
      }
      if mediaRecorder.Some? {
        mediaRecorder := Some(mediaRecorder.value.(state := Inactive));
      }
      TrackEndedPreservesValid(old(Snapshot()));
    }
  }
}
