/** Codec negotiation of frontend/js/recording.js: the first MIME type of a
    fixed preference list that MediaRecorder.isTypeSupported accepts. The
    platform predicate is a parameter. */
module Codec {
  import opened Js

  /** The preference order of initializeRecordingSystem and startRecording. */
  const MainCandidates: seq<string> :=
    ["audio/webm;codecs=opus", "audio/webm", "audio/ogg;codecs=opus", "audio/mp4", "audio/mpeg"]

  /** The shorter order of startPracticeRecording. */
  const PracticeCandidates: seq<string> :=
    ["audio/webm;codecs=opus", "audio/webm", "audio/ogg;codecs=opus"]

  /** What startRecording and startPracticeRecording use when nothing matches. */
  const Fallback: string := "audio/webm"

  /** The first candidate the platform supports, if there is one. */
  function FirstSupported(candidates: seq<string>, supported: string -> bool): (r: Option<string>)
    ensures r.Some? ==> r.value in candidates && supported(r.value)
    ensures r.None? <==> (forall i :: 0 <= i < |candidates| ==> !supported(candidates[i]))
  {
    if candidates == [] then None
    else if supported(candidates[0]) then Some(candidates[0])
    else FirstSupported(candidates[1..], supported)
  }

  /** The choice is the earliest supported entry: every candidate before it
      is unsupported. */
  lemma {:induction false} FirstSupportedIsFirst(candidates: seq<string>, supported: string -> bool, i: nat)
    requires i < |candidates| && supported(candidates[i])
    requires forall j :: 0 <= j < i ==> !supported(candidates[j])
    ensures FirstSupported(candidates, supported) == Some(candidates[i])
  {
    if i > 0 {
      FirstSupportedIsFirst(candidates[1..], supported, i - 1);
    }
  }

  /** The loop with `break` of startRecording (and of startPracticeRecording
      over its shorter list): the first supported entry, else the fallback. */
  method ChooseMimeType(candidates: seq<string>, supported: string -> bool) returns (mimeType: string)
    ensures FirstSupported(candidates, supported).Some? ==> mimeType == FirstSupported(candidates, supported).value
    ensures FirstSupported(candidates, supported).None? ==> mimeType == Fallback
  {
    mimeType := Fallback;
    for i := 0 to |candidates|
      invariant FirstSupported(candidates, supported) == FirstSupported(candidates[i..], supported)
      invariant mimeType == Fallback
    {
      if supported(candidates[i]) {
        mimeType := candidates[i];
        break;
      }
      assert candidates[i..][1..] == candidates[i + 1..];
    }
  }

  /** The loop of initializeRecordingSystem, which throws instead of falling
      back: None stands for the thrown error. */
  method FindSupportedMimeType(candidates: seq<string>, supported: string -> bool) returns (found: Option<string>)
    ensures found == FirstSupported(candidates, supported)
  {
    found := None;
    var i := 0;
    while i < |candidates|
      invariant 0 <= i <= |candidates|
      invariant FirstSupported(candidates, supported) == FirstSupported(candidates[i..], supported)
      invariant found == None
    {
      if supported(candidates[i]) {
        found := Some(candidates[i]);
        return;
      }
      assert candidates[i..][1..] == candidates[i + 1..];
      i := i + 1;
    }
  }

  /** The choice startRecording makes, as a value. */
  function MimeTypeOrFallback(candidates: seq<string>, supported: string -> bool): string {
    match FirstSupported(candidates, supported)
    case Some(m) => m
    case None => Fallback
  }

  /** The fallback is itself on the main list, so startRecording only ever
      falls back when "audio/webm" is unsupported: the MediaRecorder it
      then constructs is given a type the platform refuses. */
  lemma FallbackOnlyWhenUnsupported(supported: string -> bool)
    ensures FirstSupported(MainCandidates, supported).None? ==> !supported(Fallback)
    ensures supported(MimeTypeOrFallback(MainCandidates, supported)) <==> FirstSupported(MainCandidates, supported).Some?
  {
    assert MainCandidates[1] == Fallback;
  }

  /** The practice list is a prefix of the main list: when it has a
      supported entry both recorders pick the same type. */
  lemma PracticeAgreesWithMain(supported: string -> bool)
    ensures FirstSupported(PracticeCandidates, supported).Some? ==>
      FirstSupported(MainCandidates, supported) == FirstSupported(PracticeCandidates, supported)
    ensures FirstSupported(MainCandidates, supported).None? ==> FirstSupported(PracticeCandidates, supported).None?
  {
    if FirstSupported(PracticeCandidates, supported).Some? {
      var i := if supported(PracticeCandidates[0]) then 0 else if supported(PracticeCandidates[1]) then 1 else 2;
      FirstSupportedIsFirst(PracticeCandidates, supported, i);
      FirstSupportedIsFirst(MainCandidates, supported, i);
    }
  }
}
