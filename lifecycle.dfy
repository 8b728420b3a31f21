/** The main recorder of frontend/js/recording.js as a state machine over
    the fields of `recordingState`. Platform objects are reduced to what the
    code inspects: whether a stream exists and is active, a recorder's MIME
    type and its state, whether an AudioContext exists and is closed, and
    whether the interval timer and the animation frame are scheduled. The
    environment supplies everything the code asks the platform. */
module Lifecycle {
  import opened Js
  import opened Browser
  import opened Codec
  import opened Wav

  /** A MediaStream: absent (null) or present and active or not. */
  datatype Stream = NoStream | Stream(active: bool)

  /** MediaRecorder.state; "paused" is never entered by this code. */
  datatype RecorderState = Recording | Inactive

  datatype MediaRecorder = MediaRecorder(mimeType: string, state: RecorderState)

  /** An AudioContext: absent or present and closed or not. */
  datatype Context = NoContext | Context(closed: bool)

  /** Why a start or a capture failed. */
  datatype Failure =
    | NoMediaDevices          // navigator.mediaDevices.getUserMedia missing
    | NoMediaRecorderApi      // window.MediaRecorder missing
    | NoSupportedFormat       // no candidate MIME type supported
    | Refused(errorName: string)  // getUserMedia rejected
    | RecorderRejected        // new MediaRecorder threw on the chosen type
    | EmptyCapture            // "Нет аудиоданных": no chunk was kept
    | RecorderMissing         // the recorder was already null when building the Blob
    | DecodeFailed            // decodeAudioData rejected
    | NoAudioContext          // neither AudioContext nor webkitAudioContext exists
    | AudioGraphRejected      // the AudioContext constructor or createMediaStreamSource threw
    | RecorderStartFailed     // MediaRecorder.start threw

  /** The five states of updateRecordingUI; an error remembers its cause. */
  datatype Ui = Idle | RecordingUi | Processing | Success | ErrorUi(failure: Failure)

  /** The advice startRecording appends to its error message. */
  datatype Advice = AllowMicrophone | ConnectMicrophone | MicrophoneBusy | ErrorMessage

  /** recordingState, plus the timer text and the UI state it drives.
      `timerRunning` says whether the interval stored in timerInterval is
      scheduled and `context` is the AudioContext stored in audioContext.
      The last two fields count what the browser still holds but no field
      refers to any more: intervals whose id was overwritten by a later
      setInterval, open AudioContexts replaced by a new one, and the
      AudioContext of a WAV conversion whose decode failed. No code path
      can clear or close them. */
  datatype State = State(
    isRecording: bool,
    stream: Stream,
    recorder: Option<MediaRecorder>,
    chunks: seq<Blob>,
    startTime: int,
    timerRunning: bool,
    animationRunning: bool,
    analyser: bool,
    context: Context,
    currentBlob: Option<Blob>,
    timerText: string,
    ui: Ui,
    leakedIntervals: nat,
    leakedContexts: nat)

  /** The initial value of recordingState. */
  function Initial(): (s: State)
    ensures !s.isRecording && s.stream == NoStream && s.recorder == None && s.chunks == [] && s.currentBlob == None
    ensures !TimerScheduled(s) && s.leakedContexts == 0
  {
    State(false, NoStream, None, [], 0, false, false, false, NoContext, None, "00:00", Idle, 0, 0)
  }

  /** Whether some updateRecordingTimer interval is still scheduled: the
      stored one or a leaked one. Each of them rewrites the #timer text. */
  predicate TimerScheduled(s: State) {
    s.timerRunning || s.leakedIntervals > 0
  }

  /** How building the visualisation graph after the microphone grant
      ends: it succeeds, the AudioContext class is missing, its
      constructor throws, or createMediaStreamSource throws after the
      context and the analyser exist. */
  datatype AudioGraph = GraphBuilt | NoContextClass | ContextThrew | SourceThrew

  /** What startRecording learns from its surroundings: the logged-in user
      and selected text of the app, what the browser offers, the outcome of
      getUserMedia and of the audio graph, and the clock. */
  datatype Env = Env(
    hasUser: bool,
    hasText: bool,
    mediaDevices: bool,
    mediaRecorderApi: bool,
    supported: string -> bool,
    acquisition: Acquisition,
    audioGraph: AudioGraph,
    recorderStarts: bool,
    now: int)

  /** The result of startRecording besides the new state. */
  datatype StartOutcome = RedirectLogin | RedirectLibrary | AlreadyRecording | Started | StartFailed(failure: Failure)

  datatype Step = Step(next: State, outcome: StartOutcome)

  /** A WAV Blob holds at least a header and whole int16 samples. */
  predicate IsWavBlob(b: Blob) {
    b.mimeType == "audio/wav" && |b.bytes| >= HeaderSize && (|b.bytes| - HeaderSize) % 2 == 0
  }

  /** The properties every reachable state has. */
  predicate Valid(s: State) {
    (s.recorder.Some? && s.recorder.value.state == Recording ==> s.isRecording) &&
    (s.animationRunning ==> s.analyser) &&
    (forall i :: 0 <= i < |s.chunks| ==> s.chunks[i].Size() > 0) &&
    (s.currentBlob.Some? ==> IsWavBlob(s.currentBlob.value))
  }

  // ---------------------------------------------------------------------
  // Timer text

  /** updateRecordingTimer's text for `elapsed` milliseconds:
      minutes, seconds within the minute and hundredths. */
  function TimerText(elapsed: nat): string {
    Pad2(elapsed / 60000) + ":" + Pad2((elapsed / 1000) % 60) + "." + Pad2((elapsed % 1000) / 10)
  }

  /** Reads a timer text back as hundredths of a second: the digits before
      the ':' are minutes, then two digits of seconds and two of hundredths. */
  function ReadTimerText(t: string): Option<nat> {
    if |t| < 8 || t[|t| - 6] != ':' || t[|t| - 3] != '.' then None
    else
      var m, sec, cs := t[..|t| - 6], t[|t| - 5..|t| - 3], t[|t| - 2..];
      if !AllDigits(m) || !AllDigits(sec) || !AllDigits(cs) then None
      else Some(ParseDigits(m) * 6000 + ParseDigits(sec) * 100 + ParseDigits(cs))
  }

  /** The timer's three fields together are the elapsed time in hundredths. */
  lemma ClockArithmetic(elapsed: nat)
    ensures (elapsed / 60000) * 6000 + ((elapsed / 1000) % 60) * 100 + (elapsed % 1000) / 10 == elapsed / 10
    ensures (elapsed / 1000) % 60 < 60 && (elapsed % 1000) / 10 < 100
  {
    var secs, ms := elapsed / 1000, elapsed % 1000;
    assert elapsed == 1000 * secs + ms;
    var mins, s := secs / 60, secs % 60;
    assert secs == 60 * mins + s;
    assert elapsed == 60000 * mins + (1000 * s + ms) && 1000 * s + ms < 60000;
    assert elapsed / 60000 == mins;
    assert elapsed == 10 * (6000 * mins + 100 * s + ms / 10) + ms % 10;
    assert elapsed / 10 == 6000 * mins + 100 * s + ms / 10;
  }

  /** The timer shows the elapsed time truncated to hundredths: seconds
      below 60, two-digit hundredths, and minutes that may grow past two
      digits. */
  lemma TimerTextReadsBack(elapsed: nat)
    ensures ReadTimerText(TimerText(elapsed)) == Some(elapsed / 10)
  {
    var m, sec, cs := Pad2(elapsed / 60000), Pad2((elapsed / 1000) % 60), Pad2((elapsed % 1000) / 10);
    var t := TimerText(elapsed);
    ClockArithmetic(elapsed);
    assert t == m + ":" + sec + "." + cs;
    assert t[..|t| - 6] == m && t[|t| - 5..|t| - 3] == sec && t[|t| - 2..] == cs;
    Pad2RoundTrip(elapsed / 60000);
    Pad2RoundTrip((elapsed / 1000) % 60);
    Pad2RoundTrip((elapsed % 1000) / 10);
  }

  /** updateRecordingTimer on a tick at time `now`. */
  function Tick(s: State, now: int): State
    requires s.startTime <= now
  {
    s.(timerText := TimerText(now - s.startTime))
  }

  /** A tick changes only the timer text, which then reads back as the
      time since the start in hundredths of a second. */
  lemma TickShowsElapsed(s: State, now: int)
    requires s.startTime <= now
    ensures ReadTimerText(Tick(s, now).timerText) == Some((now - s.startTime) / 10)
    ensures Tick(s, now).(timerText := s.timerText) == s
  {
    ShowsElapsed(now - s.startTime, Tick(s, now).timerText);
  }

  lemma ShowsElapsed(e: nat, t: string)
    requires t == TimerText(e)
    ensures ReadTimerText(t) == Some(e / 10)
  {
    TimerTextReadsBack(e);
  }


  // ---------------------------------------------------------------------
  // Cleanup and resets

  /** cleanupRecordingResources: stop the timer and the animation, stop and
      drop a recorder that is not inactive, stop and drop the stream, close
      and drop a context that is not closed. */
  function Cleanup(s: State): State {
    s.(timerRunning := false,
       animationRunning := false,
       recorder := if s.recorder.Some? && s.recorder.value.state != Inactive then None else s.recorder,
       stream := NoStream,
       context := if s.context.Context? && !s.context.closed then NoContext else s.context)
  }

  /** After a cleanup no stream, stored timer, animation, recording recorder
      or open context is held, and the capture itself is untouched. Leaked
      intervals and contexts are out of its reach and stay. */
  lemma CleanupReleases(s: State)
    ensures var r := Cleanup(s);
      r.stream == NoStream && !r.timerRunning && !r.animationRunning &&
      (r.recorder == None || r.recorder.value.state == Inactive) &&
      (r.context == NoContext || r.context.closed) &&
      r.chunks == s.chunks && r.currentBlob == s.currentBlob && r.isRecording == s.isRecording && r.ui == s.ui &&
      r.leakedIntervals == s.leakedIntervals && r.leakedContexts == s.leakedContexts
  {
  }

  /** A second cleanup finds nothing left to release. */
  lemma CleanupIdempotent(s: State)
    ensures Cleanup(Cleanup(s)) == Cleanup(s)
  {
  }

  /** resetRecordingState. */
  function ResetState(s: State): (r: State)
    ensures !r.isRecording && r.recorder == None && r.chunks == [] && r.ui == Idle
    ensures r.stream == s.stream && r.context == s.context && r.analyser == s.analyser &&
            r.timerRunning == s.timerRunning && r.animationRunning == s.animationRunning &&
            r.startTime == s.startTime && r.timerText == s.timerText && r.currentBlob == s.currentBlob
  {
    s.(isRecording := false, recorder := None, chunks := [], ui := Idle)
  }

  /** resetRecording: cleanup, reset and the timer text back to "00:00". */
  function ResetRecording(s: State): State {
    ResetState(Cleanup(s)).(timerText := "00:00")
  }

  /** After resetRecording nothing the state refers to is held or running
      and a new start is not refused as already recording; the last WAV
      stays available. Leaked intervals and contexts stay. */
  lemma ResetRecordingIdle(s: State)
    ensures var r := ResetRecording(s);
      !r.isRecording && r.recorder == None && r.stream == NoStream && !r.timerRunning &&
      !r.animationRunning && r.chunks == [] && r.ui == Idle && r.timerText == "00:00" &&
      r.currentBlob == s.currentBlob && (r.context == NoContext || r.context.closed) &&
      r.leakedIntervals == s.leakedIntervals && r.leakedContexts == s.leakedContexts
  {
  }

  // ---------------------------------------------------------------------
  // Start

  /** The advice startRecording gives for an error name. */
  function AdviceFor(errorName: string): (a: Advice)
    ensures a == AllowMicrophone <==> errorName == "NotAllowedError"
    ensures a == ConnectMicrophone <==> errorName == "NotFoundError"
    ensures a == MicrophoneBusy <==> errorName == "NotReadableError"
  {
    if errorName == "NotAllowedError" then AllowMicrophone
    else if errorName == "NotFoundError" then ConnectMicrophone
    else if errorName == "NotReadableError" then MicrophoneBusy
    else ErrorMessage
  }

  /** The name of the error a failure is thrown as: a DOMException name for
      the platform's refusals, "Error" for the code's own throws and
      "TypeError" for a call on a missing object. */
  function ErrorName(f: Failure): string {
    match f
    case Refused(name) => name
    case RecorderRejected => "NotSupportedError"
    case RecorderMissing => "TypeError"
    case DecodeFailed => "EncodingError"
    case NoAudioContext => "TypeError"
    case AudioGraphRejected => "NotSupportedError"
    case RecorderStartFailed => "InvalidStateError"
    case _ => "Error"
  }

  /** Only a refused microphone can earn specific advice. */
  lemma AdviceOnlyForRefusals(f: Failure)
    ensures AdviceFor(ErrorName(f)) != ErrorMessage ==> f.Refused?
  {
  }

  /** Either a state ready to record from or a failure, with the state the
      failing step left behind. */
  datatype Init = Ready(s: State) | Failed(failure: Failure, s: State)

  /** A new AudioContext and analyser stored over the old ones; an old
      context that is still open is not closed and leaks. */
  function OpenContext(s: State): State {
    s.(context := Context(false), analyser := true,
       leakedContexts := s.leakedContexts + (if s.context == Context(false) then 1 else 0))
  }

  /** initializeRecordingSystem: API checks, a supported type, the
      microphone, then the AudioContext, its analyser and the source node.
      Every failure runs the cleanup before rethrowing, which also stops a
      stream that was just granted. */
  function Initialize(s: State, env: Env): (r: Init)
    ensures r.Ready? ==> r.s.stream == Stream(true) && r.s.analyser && r.s.context == Context(false)
    ensures r.Ready? <==> (env.mediaDevices && env.mediaRecorderApi &&
                           FirstSupported(MainCandidates, env.supported).Some? && env.acquisition == Granted &&
                           env.audioGraph == GraphBuilt)
    ensures r.Failed? ==>
      r.s.stream == NoStream && !r.s.timerRunning && !r.s.animationRunning &&
      (r.s.context == NoContext || r.s.context.closed) && r.s.chunks == s.chunks &&
      r.s.currentBlob == s.currentBlob && r.s.isRecording == s.isRecording
    ensures r.Failed? && r.failure != AudioGraphRejected ==> r.s == Cleanup(s)
    ensures r.Failed? ==> Cleanup(r.s) == r.s
  {
    if !env.mediaDevices then Failed(NoMediaDevices, Cleanup(s))
    else if !env.mediaRecorderApi then Failed(NoMediaRecorderApi, Cleanup(s))
    else if FirstSupported(MainCandidates, env.supported).None? then Failed(NoSupportedFormat, Cleanup(s))
    else match env.acquisition
      case Refused(name) => Failed(Failure.Refused(name), Cleanup(s))
      case Granted => ConnectGraph(s.(stream := Stream(true)), env.audioGraph)
  }

  /** The visualisation graph after the grant: the AudioContext and its
      analyser, then the source node on the granted stream. */
  function ConnectGraph(s: State, graph: AudioGraph): (r: Init)
    ensures r.Ready? <==> graph == GraphBuilt
    ensures r.Ready? ==> r.s.stream == s.stream && r.s.analyser && r.s.context == Context(false)
    ensures r.Failed? ==> r.failure == (if graph == NoContextClass then NoAudioContext else AudioGraphRejected)
    ensures r.Failed? ==> r.s.stream == NoStream && Cleanup(r.s) == r.s
    ensures r.Failed? ==>
      !r.s.timerRunning && !r.s.animationRunning && (r.s.context == NoContext || r.s.context.closed) &&
      r.s.chunks == s.chunks && r.s.currentBlob == s.currentBlob && r.s.isRecording == s.isRecording
    ensures r.Failed? && graph == NoContextClass ==> r.s == Cleanup(s)
  {
    match graph
    case NoContextClass => Failed(NoAudioContext, Cleanup(s))
    case ContextThrew => Failed(AudioGraphRejected, Cleanup(s))
    case SourceThrew => Failed(AudioGraphRejected, Cleanup(OpenContext(s)))
    case GraphBuilt => Ready(OpenContext(s))
  }

  /** A microphone grant is not enough: when the audio graph cannot be
      built the start fails and the granted stream is released. */
  lemma GrantedButGraphFails(s: State, env: Env)
    requires env.hasUser && env.hasText && !s.isRecording && NeedsStream(s)
    requires env.mediaDevices && env.mediaRecorderApi && FirstSupported(MainCandidates, env.supported).Some?
    requires env.acquisition == Granted && env.audioGraph != GraphBuilt
    ensures Start(s, env).outcome ==
      StartFailed(if env.audioGraph == NoContextClass then NoAudioContext else AudioGraphRejected)
    ensures Start(s, env).next.stream == NoStream && !Start(s, env).next.isRecording
  {
  }

  /** Whether startRecording has to (re)acquire the microphone. */
  predicate NeedsStream(s: State) {
    s.stream == NoStream || !s.stream.active
  }

  /** startRecording's catch block. */
  function StartFailure(s: State, f: Failure): Step {
    Step(Cleanup(s).(ui := ErrorUi(f)), StartFailed(f))
  }

  /** initializeRecordingSystem runs only when there is no live stream. */
  function Acquire(s: State, env: Env): Init {
    if NeedsStream(s) then Initialize(s, env) else Ready(s)
  }

  /** The recording state startRecording sets up once a recorder exists:
      recorder started, flag set, start time taken, timer at "00:00.00"
      and the visualisation running when there is an analyser. */
  function Begin(t: State, mimeType: string, now: int): State {
    t.(recorder := Some(MediaRecorder(mimeType, Recording)),
       isRecording := true,
       startTime := now,
       timerRunning := true,
       leakedIntervals := t.leakedIntervals + (if t.timerRunning then 1 else 0),
       timerText := TimerText(0),
       animationRunning := t.analyser,
       ui := RecordingUi)
  }

  /** Codec choice, the MediaRecorder constructor and its start, after
      acquisition. The recording flag and the start time are set before
      start is called, and the catch block's cleanup does not reset the
      flag nor drop the recorder, which never left the inactive state. */
  function Launch(t: State, env: Env): Step {
    if !env.mediaRecorderApi then StartFailure(t, NoMediaRecorderApi)
    else
      var mimeType := MimeTypeOrFallback(MainCandidates, env.supported);
      if !env.supported(mimeType) then StartFailure(t, RecorderRejected)
      else if !env.recorderStarts then
        StartFailure(t.(recorder := Some(MediaRecorder(mimeType, Inactive)), isRecording := true,
                        startTime := env.now),
                     RecorderStartFailed)
      else Step(Begin(t, mimeType, env.now), Started)
  }

  /** startRecording. */
  function Start(s: State, env: Env): Step {
    if !env.hasUser then Step(s, RedirectLogin)
    else if !env.hasText then Step(s, RedirectLibrary)
    else if s.isRecording then Step(s, AlreadyRecording)
    else match Acquire(s.(currentBlob := None, chunks := []), env)
      case Failed(f, t) => StartFailure(t, f)
      case Ready(t) => Launch(t, env)
  }

  /** The three guards come first, in order, and change nothing. */
  lemma StartGuards(s: State, env: Env)
    ensures !env.hasUser ==> Start(s, env) == Step(s, RedirectLogin)
    ensures env.hasUser && !env.hasText ==> Start(s, env) == Step(s, RedirectLibrary)
    ensures env.hasUser && env.hasText && s.isRecording ==> Start(s, env) == Step(s, AlreadyRecording)
  {
  }

  /** A start that gets past the guards has dropped the previous WAV and the
      previous chunks, whatever happens next. */
  lemma StartClearsCapture(s: State, env: Env)
    requires env.hasUser && env.hasText && !s.isRecording
    ensures Start(s, env).next.currentBlob == None && Start(s, env).next.chunks == []
  {
  }

  /** A live stream is reused: the microphone is not asked again, so the
      outcome does not depend on what getUserMedia would answer. */
  lemma StartReusesLiveStream(s: State, env: Env, acquisition: Acquisition)
    requires s.stream == Stream(true)
    ensures Start(s, env) == Start(s, env.(acquisition := acquisition))
  {
  }

  /** A successful start records with the first supported type, runs the
      timer from "00:00.00" and animates only with an analyser. */
  lemma StartSucceeds(s: State, env: Env)
    requires Start(s, env).outcome == Started
    ensures var r := Start(s, env).next;
      r.isRecording && r.timerRunning && r.timerText == "00:00.00" && r.startTime == env.now &&
      r.recorder == Some(MediaRecorder(FirstSupported(MainCandidates, env.supported).value, Recording)) &&
      r.stream == Stream(true) && r.ui == RecordingUi && r.chunks == [] && r.currentBlob == None &&
      (r.animationRunning <==> r.analyser)
  {
    var cleared := s.(currentBlob := None, chunks := []);
    AcquireReady(cleared, env);
    var t := Acquire(cleared, env).s;
    LaunchStarted(t, env);
    TimerTextZero();
  }

  /** A successful acquisition leaves a live stream and the capture as it was. */
  lemma AcquireReady(s: State, env: Env)
    ensures Acquire(s, env).Ready? ==>
      var t := Acquire(s, env).s;
      t.stream == Stream(true) && t.chunks == s.chunks && t.currentBlob == s.currentBlob &&
      t.isRecording == s.isRecording
  {
  }

  /** A launch that starts records with the first supported type. */
  lemma LaunchStarted(t: State, env: Env)
    requires Launch(t, env).outcome == Started
    ensures Launch(t, env).next == Begin(t, FirstSupported(MainCandidates, env.supported).value, env.now)
  {
    FallbackOnlyWhenUnsupported(env.supported);
  }

  /** At the start the timer shows zero. */
  lemma TimerTextZero()
    ensures TimerText(0) == "00:00.00"
  {
  }

  /** A failed start holds no stream and no running timer, and shows the
      error. */
  lemma StartFailureReleases(s: State, env: Env)
    requires Start(s, env).outcome.StartFailed?
    ensures var r := Start(s, env).next;
      r.stream == NoStream && !r.timerRunning && !r.animationRunning &&
      r.ui == ErrorUi(Start(s, env).outcome.failure)
    ensures Start(s, env).outcome.failure != RecorderStartFailed ==> !Start(s, env).next.isRecording
    ensures Start(s, env).outcome.failure == RecorderStartFailed ==> Start(s, env).next.isRecording
  {
  }

  /** A recorder whose start throws leaves the recording flag set with an
      inactive recorder and nothing captured: every later start is refused
      as already recording. A stop gets out of it, by processing the empty
      capture at once, and so does resetRecording. */
  lemma StartThrowLeavesFlagSet(s: State, env: Env, decode: seq<Byte> -> Decoded)
    requires Start(s, env).outcome == StartFailed(RecorderStartFailed)
    ensures var r := Start(s, env).next;
      r.isRecording && r.recorder.Some? && r.recorder.value.state == Inactive && r.chunks == [] &&
      Start(r, env) == Step(r, AlreadyRecording) &&
      !Stop(r, decode).isRecording && Stop(r, decode).ui == ErrorUi(EmptyCapture) &&
      !ResetRecording(r).isRecording
  {
    StartClearsCapture(s, env);
  }

  /** A second start while the first succeeded is refused and changes
      nothing. */
  lemma StartTwice(s: State, env: Env)
    requires Start(s, env).outcome == Started
    ensures Start(Start(s, env).next, env) == Step(Start(s, env).next, AlreadyRecording)
  {
  }

  // ---------------------------------------------------------------------
  // Capture, stop and processing

  /** ondataavailable: a chunk is kept only when it exists and is not empty. */
  function OnData(s: State, data: Option<Blob>): State {
    if data.Some? && data.value.Size() > 0 then s.(chunks := s.chunks + [data.value]) else s
  }

  /** A run of dataavailable events delivered one after the other. */
  function Deliver(s: State, events: seq<Option<Blob>>): State
    decreases |events|
  {
    if events == [] then s else Deliver(OnData(s, events[0]), events[1..])
  }

  /** The non-empty chunks of a run of events, in arrival order. */
  function NonEmpty(events: seq<Option<Blob>>): (r: seq<Blob>)
    ensures forall i :: 0 <= i < |r| ==> r[i].Size() > 0
  {
    if events == [] then []
    else if events[0].Some? && events[0].value.Size() > 0 then [events[0].value] + NonEmpty(events[1..])
    else NonEmpty(events[1..])
  }

  /** Delivering events appends exactly their non-empty chunks, in order,
      and touches nothing else. */
  lemma {:induction false} DeliverAppendsNonEmpty(s: State, events: seq<Option<Blob>>)
    ensures Deliver(s, events) == s.(chunks := s.chunks + NonEmpty(events))
    decreases |events|
  {
    if events != [] {
      DeliverAppendsNonEmpty(OnData(s, events[0]), events[1..]);
    }
  }

  /** The bytes of new Blob(chunks): the chunks' bytes one after the other. */
  function Concat(chunks: seq<Blob>): (r: seq<Byte>)
    ensures chunks == [] ==> r == []
  {
    if chunks == [] then [] else Concat(chunks[..|chunks| - 1]) + chunks[|chunks| - 1].bytes
  }

  lemma WholeSamples(n: nat)
    ensures (HeaderSize + 2 * n - HeaderSize) % 2 == 0
  {
  }

  /** convertToWAV after decoding: audioBufferToWAV wrapped in an audio/wav Blob. */
  function WavBlob(pcm: PcmBuffer): (b: Blob)
    ensures IsWavBlob(b)
  {
    var samples := Interleave(pcm.channels, pcm.length);
    var bytes := WavFile(samples, pcm.sampleRate, |pcm.channels|);
    WholeSamples(|samples|);
    assert |bytes| == HeaderSize + 2 * |samples|;
    Blob(WavFile(samples, pcm.sampleRate, |pcm.channels|), "audio/wav")
  }

  /** Whether processing gets as far as the WAV conversion and the decode
      fails there. */
  predicate DecodeFails(s: State, decode: seq<Byte> -> Decoded) {
    s.chunks != [] && s.recorder.Some? && decode(Concat(s.chunks)).DecodeError?
  }

  /** processRecording with the platform decoder `decode`. The recorder is
      dropped on every path (the `finally`). A failed decode leaves the
      conversion's AudioContext open: it is closed only after a decode. */
  function Process(s: State, decode: seq<Byte> -> Decoded): State {
    if s.chunks == [] then s.(ui := ErrorUi(EmptyCapture), recorder := None)
    else if s.recorder == None then s.(ui := ErrorUi(RecorderMissing), recorder := None)
    else match decode(Concat(s.chunks))
      case DecodeError => s.(ui := ErrorUi(DecodeFailed), recorder := None, leakedContexts := s.leakedContexts + 1)
      case Decoded(pcm) => s.(currentBlob := Some(WavBlob(pcm)), ui := Success, recorder := None)
  }

  /** Processing ends without a recorder and keeps the capture. */
  lemma ProcessDropsRecorder(s: State, decode: seq<Byte> -> Decoded)
    ensures var r := Process(s, decode);
      r.recorder == None && r.chunks == s.chunks && r.isRecording == s.isRecording && r.stream == s.stream
  {
  }

  /** Processing reports success exactly when it produced a WAV from a
      non-empty capture, and the WAV is then the decoded audio's. */
  lemma ProcessSuccess(s: State, decode: seq<Byte> -> Decoded)
    ensures Process(s, decode).ui == Success <==>
      (s.chunks != [] && s.recorder.Some? && decode(Concat(s.chunks)).Decoded?)
    ensures Process(s, decode).ui == Success ==>
      Process(s, decode).currentBlob == Some(WavBlob(decode(Concat(s.chunks)).pcm))
  {
    if s.chunks != [] && s.recorder.Some? && decode(Concat(s.chunks)).Decoded? {
      var pcm := decode(Concat(s.chunks)).pcm;
      assert Process(s, decode) == s.(currentBlob := Some(WavBlob(pcm)), ui := Success, recorder := None);
    }
  }

  /** On every failure the previous WAV stays as it was, and an empty
      capture is reported as such. */
  lemma ProcessFailure(s: State, decode: seq<Byte> -> Decoded)
    ensures Process(s, decode).ui != Success ==> Process(s, decode).currentBlob == s.currentBlob
    ensures s.chunks == [] ==> Process(s, decode).ui == ErrorUi(EmptyCapture)
  {
  }

  /** The WAV a successful processing stores reads back as the quantised,
      interleaved decoded samples at the decoded rate. */
  lemma ProcessedWavReadsBack(s: State, decode: seq<Byte> -> Decoded)
    requires Process(s, decode).ui == Success
    requires var pcm := decode(Concat(s.chunks)).pcm;
      FitsFields(|Interleave(pcm.channels, pcm.length)|, pcm.sampleRate, |pcm.channels|)
    ensures var pcm := decode(Concat(s.chunks)).pcm;
      ParseWav(Process(s, decode).currentBlob.value.bytes) ==
        Some(WavData(pcm.sampleRate, |pcm.channels|, QuantizeAll(Interleave(pcm.channels, pcm.length))))
  {
    var pcm := decode(Concat(s.chunks)).pcm;
    assert Process(s, decode).currentBlob == Some(WavBlob(pcm));
    ParseWavFile(Interleave(pcm.channels, pcm.length), pcm.sampleRate, |pcm.channels|);
  }

  /** stopRecording. When the recorder is still recording it is asked to
      stop and processing waits for its onstop; otherwise processing runs
      at once. */
  function Stop(s: State, decode: seq<Byte> -> Decoded): State {
    if !s.isRecording || s.recorder == None then s
    else
      var t := s.(isRecording := false, timerRunning := false, animationRunning := false, ui := Processing);
      if t.recorder.value.state == Recording then t.(recorder := Some(t.recorder.value.(state := Inactive)))
      else Process(t, decode)
  }

  /** A stop without a recording in progress changes nothing; otherwise it
      ends the recording and the stored timer and the animation; leaked
      intervals keep running. */
  lemma StopEffect(s: State, decode: seq<Byte> -> Decoded)
    ensures !s.isRecording || s.recorder == None ==> Stop(s, decode) == s
    ensures s.isRecording && s.recorder.Some? ==>
      var r := Stop(s, decode);
      !r.isRecording && !r.timerRunning && !r.animationRunning && r.chunks == s.chunks &&
      r.leakedIntervals == s.leakedIntervals &&
      (s.recorder.value.state == Recording ==> r.recorder == Some(s.recorder.value.(state := Inactive)) && r.ui == Processing) &&
      (s.recorder.value.state != Recording ==> r.recorder == None && r.ui != Processing)
  {
  }

  /** onerror of the recorder: resetRecordingState only. The interval
      timer and the stream are not released. */
  function OnError(s: State): State {
    ResetState(s)
  }

  /** After an error the timer, when it was running, keeps running. */
  lemma OnErrorKeepsTimer(s: State)
    ensures OnError(s).timerRunning == s.timerRunning && OnError(s).stream == s.stream
    ensures !OnError(s).isRecording && OnError(s).ui == Idle
  {
  }

  /** The platform ends the capture by itself (the track ended): the stream
      turns inactive and a recording recorder stops, which will fire onstop. */
  function TrackEnded(s: State): State {
    s.(stream := if s.stream.Stream? then Stream(false) else NoStream,
       recorder := if s.recorder.Some? then Some(s.recorder.value.(state := Inactive)) else None)
  }

  /** When the platform stops the recorder and its onstop is delivered
      before the user presses stop, the recorder is gone while isRecording
      is still true: stop and start both refuse until resetRecording. */
  lemma StuckAfterPlatformStop(s: State, decode: seq<Byte> -> Decoded, env: Env)
    requires Start(s, env).outcome == Started
    ensures var r := Process(TrackEnded(Start(s, env).next), decode);
      r.isRecording && r.recorder == None &&
      Stop(r, decode) == r &&
      (env.hasUser && env.hasText ==> Start(r, env) == Step(r, AlreadyRecording)) &&
      !ResetRecording(r).isRecording
  {
  }

  /** One requestAnimationFrame callback of the visualisation: it stops
      rescheduling itself once recording is over or the analyser is gone. */
  function DrawFrame(s: State): State {
    if !s.isRecording || !s.analyser then s.(animationRunning := false) else s
  }

  /** After a recorder error the animation is still scheduled, and the next
      frame ends it; a frame never restarts a stopped animation. */
  lemma FrameEndsAnimationAfterError(s: State)
    ensures s.animationRunning ==> OnError(s).animationRunning && !DrawFrame(OnError(s)).animationRunning
    ensures !s.animationRunning ==> !DrawFrame(s).animationRunning
  {
  }

  // ---------------------------------------------------------------------
  // Leaked intervals and contexts

  /** Nothing ever clears a leaked interval or closes a leaked context: the
      counts survive every transition but a start, processing and a stop,
      which can only add to them. */
  lemma LeaksPersist(s: State, data: Option<Blob>, now: int)
    requires s.startTime <= now
    ensures SameLeaks(s, Cleanup(s)) && SameLeaks(s, ResetRecording(s)) && SameLeaks(s, OnError(s))
    ensures SameLeaks(s, OnData(s, data)) && SameLeaks(s, TrackEnded(s))
    ensures SameLeaks(s, DrawFrame(s)) && SameLeaks(s, Tick(s, now))
  {
  }

  /** Processing leaks one AudioContext exactly when the decode fails; a
      stop does so exactly when it processes at once and the decode fails.
      Neither touches the intervals. */
  lemma ProcessLeaksOnDecodeFailure(s: State, decode: seq<Byte> -> Decoded)
    ensures Process(s, decode).leakedIntervals == s.leakedIntervals
    ensures Process(s, decode).leakedContexts == s.leakedContexts + if DecodeFails(s, decode) then 1 else 0
    ensures Stop(s, decode).leakedIntervals == s.leakedIntervals
    ensures Stop(s, decode).leakedContexts == s.leakedContexts +
      if s.isRecording && s.recorder.Some? && s.recorder.value.state != Recording && DecodeFails(s, decode)
      then 1 else 0
  {
  }

  /** Start, a non-empty chunk, stop, onstop, and a decode that fails: the
      failure is shown and one more AudioContext stays open for good. */
  lemma FailedDecodeLeaksContext(s: State, env: Env, data: Blob, decode: seq<Byte> -> Decoded)
    requires Start(s, env).outcome == Started
    requires data.Size() > 0 && decode(data.bytes).DecodeError?
    ensures var first := Start(s, env).next;
      var stopped := Stop(OnData(first, Some(data)), decode);
      var r := Process(stopped, decode);
      stopped.ui == Processing && r.ui == ErrorUi(DecodeFailed) &&
      r.leakedContexts == first.leakedContexts + 1
  {
    StartSucceeds(s, env);
    var first := Start(s, env).next;
    var stopped := Stop(OnData(first, Some(data)), decode);
    assert stopped.chunks == [data];
    assert Concat([data]) == data.bytes by {
      assert [data][..0] == [];
    }
  }

  lemma StartOnlyAddsLeaks(s: State, env: Env)
    ensures s.leakedIntervals <= Start(s, env).next.leakedIntervals
    ensures s.leakedContexts <= Start(s, env).next.leakedContexts
  {
    if env.hasUser && env.hasText && !s.isRecording {
      var cleared := s.(currentBlob := None, chunks := []);
      match Acquire(cleared, env)
      case Failed(f, t) =>
      case Ready(t) =>
    }
  }

  predicate SameLeaks(a: State, b: State) {
    a.leakedIntervals == b.leakedIntervals && a.leakedContexts == b.leakedContexts
  }

  /** Start, recorder error, start again: the recorder error leaves the
      interval scheduled and the second start stores a new interval id over
      it. The first interval then outlives stop and resetRecording, and its
      next tick overwrites the "00:00" that resetRecording shows. */
  lemma RestartAfterErrorLeaksInterval(s: State, env: Env, decode: seq<Byte> -> Decoded, now: int)
    requires Start(s, env).outcome == Started
    requires env.now <= now
    ensures var first := Start(s, env).next;
      var second := Start(OnError(first), env);
      second.outcome == Started &&
      second.next.leakedIntervals == first.leakedIntervals + 1 &&
      var stopped := Stop(second.next, decode);
      !stopped.timerRunning && TimerScheduled(stopped) &&
      TimerScheduled(ResetRecording(stopped)) &&
      ResetRecording(stopped).timerText == "00:00" &&
      Tick(ResetRecording(stopped), now).timerText != "00:00"
  {
    var first := Start(s, env).next;
    StartSucceeds(s, env);
    var a := OnError(first);
    assert a.stream == Stream(true) && !a.isRecording && a.timerRunning;
    var cleared := a.(currentBlob := None, chunks := []);
    assert Acquire(cleared, env) == Ready(cleared);
    assert Launch(cleared, env).outcome == Started by {
      LaunchStarted(Start(s, env).next, env) by {
        FirstStartLaunched(s, env);
      }
    }
    LaunchStarted(cleared, env);
    var second := Start(a, env).next;
    var r := ResetRecording(Stop(second, decode));
    assert r.startTime == env.now;
    assert |TimerText(now - r.startTime)| >= 8;
  }

  /** Stop, the track ends, start again: the fresh initialisation stores a
      new AudioContext over the one still open, which nothing closes. */
  lemma RestartAfterTrackEndLeaksContext(s: State, env: Env, decode: seq<Byte> -> Decoded)
    requires Start(s, env).outcome == Started && NeedsStream(s)
    ensures var first := Start(s, env).next;
      var ended := TrackEnded(Stop(first, decode));
      ended.context == Context(false) &&
      Start(ended, env).outcome == Started &&
      Start(ended, env).next.leakedContexts == first.leakedContexts + 1 &&
      Start(ended, env).next.context == Context(false)
  {
    var first := Start(s, env).next;
    StartSucceeds(s, env);
    FirstStartLaunched(s, env);
    assert Acquire(s.(currentBlob := None, chunks := []), env).Ready?;
    var ended := TrackEnded(Stop(first, decode));
    var cleared := ended.(currentBlob := None, chunks := []);
    assert Acquire(cleared, env).Ready?;
    var t := Acquire(cleared, env).s;
    LaunchStarted(t, env);
  }

  /** A successful start passed the API and codec checks of its launch. */
  lemma FirstStartLaunched(s: State, env: Env)
    requires Start(s, env).outcome == Started
    ensures env.mediaRecorderApi && env.supported(MimeTypeOrFallback(MainCandidates, env.supported))
  {
  }

  // ---------------------------------------------------------------------
  // Invariant

  lemma InitialValid()
    ensures Valid(Initial())
  {
  }

  /** Every transition keeps the invariant. */
  lemma StartPreservesValid(s: State, env: Env)
    requires Valid(s)
    ensures Valid(Start(s, env).next)
  {
    if env.hasUser && env.hasText && !s.isRecording {
      var cleared := s.(currentBlob := None, chunks := []);
      assert Valid(cleared);
      match Acquire(cleared, env)
      case Failed(f, t) =>
        AcquireFailedValid(cleared, env);
        StartFailurePreservesValid(t, f);
      case Ready(t) =>
        AcquirePreservesValid(cleared, env);
        LaunchPreservesValid(t, env);
    }
  }

  lemma AcquirePreservesValid(s: State, env: Env)
    requires Valid(s) && Acquire(s, env).Ready?
    ensures Valid(Acquire(s, env).s)
  {
  }

  lemma AcquireFailedValid(s: State, env: Env)
    requires Valid(s) && Acquire(s, env).Failed?
    ensures Valid(Acquire(s, env).s)
  {
  }

  lemma StartFailurePreservesValid(s: State, f: Failure)
    requires Valid(s)
    ensures Valid(StartFailure(s, f).next)
  {
  }

  lemma LaunchPreservesValid(t: State, env: Env)
    requires Valid(t)
    ensures Valid(Launch(t, env).next)
  {
  }

  lemma ProcessPreservesValid(s: State, decode: seq<Byte> -> Decoded)
    requires Valid(s)
    ensures Valid(Process(s, decode))
  {
    if s.chunks != [] && s.recorder.Some? && decode(Concat(s.chunks)).Decoded? {
      var pcm := decode(Concat(s.chunks)).pcm;
      assert Process(s, decode) == s.(currentBlob := Some(WavBlob(pcm)), ui := Success, recorder := None);
    }
  }

  lemma StopPreservesValid(s: State, decode: seq<Byte> -> Decoded)
    requires Valid(s)
    ensures Valid(Stop(s, decode))
  {
    if s.isRecording && s.recorder.Some? {
      var t := s.(isRecording := false, timerRunning := false, animationRunning := false, ui := Processing);
      if t.recorder.value.state != Recording {
        ProcessPreservesValid(t, decode);
      }
    }
  }

  lemma OnDataPreservesValid(s: State, data: Option<Blob>)
    requires Valid(s)
    ensures Valid(OnData(s, data))
  {
  }

  lemma OnErrorPreservesValid(s: State)
    requires Valid(s)
    ensures Valid(OnError(s))
  {
  }

  lemma TrackEndedPreservesValid(s: State)
    requires Valid(s)
    ensures Valid(TrackEnded(s))
  {
  }

  lemma CleanupPreservesValid(s: State)
    requires Valid(s)
    ensures Valid(Cleanup(s))
  {
  }

  lemma ResetRecordingPreservesValid(s: State)
    requires Valid(s)
    ensures Valid(ResetRecording(s))
  {
  }

  lemma DrawFramePreservesValid(s: State)
    requires Valid(s)
    ensures Valid(DrawFrame(s))
  {
  }

  lemma TickPreservesValid(s: State, now: int)
    requires Valid(s) && s.startTime <= now
    ensures Valid(Tick(s, now))
  {
  }
}
