/** The page, practice-session and analysis rules of frontend/js/app.js:
    showPage's access guard with loadPageData's redirects, goBack's table,
    startPracticeSession's choice of words and nextWord's advance, and the
    checks of analyzeAndShowResults before it calls analyzeAudio.

    Navigation does not touch the recorder: showPage tests
    window.recordingState, which recording.js never sets (it declares
    recordingState with a top-level `let`), so the branch that would stop a
    running recording never runs and ShowPage has no recorder input. */
module App {
  import opened Js
  import opened Browser
  import Api
  import Lifecycle
  import Wav

  // ---------------------------------------------------------------------
  // showPage and goBack

  datatype User = User(role: string)

  /** What showPage consults: the current user, the ids of the page
      elements in the document, whether a text is selected (currentText)
      and an analysis is loaded (analysisResult), and whether
      window.practiceWords holds a word at window.currentPracticeIndex. */
  datatype Nav = Nav(user: Option<User>, pages: set<string>, hasText: bool, hasResult: bool,
                     hasSessionWord: bool)

  /** What a showPage call leaves behind: the value of currentPage and the
      page element marked active, if any. */
  datatype Screen = Screen(current: string, visible: Option<string>)

  const ProtectedPages: set<string> :=
    {"library", "recording", "results", "practice", "practice-session", "profile", "admin"}

  predicate IsAdmin(user: Option<User>) {
    user.Some? && user.value.role == "admin"
  }

  /** How far a page is from a page that never redirects, for termination. */
  function Rank(pageId: string): nat {
    if pageId == "login" then 0 else if pageId == "library" || pageId == "practice" then 1 else 2
  }

  /** showPage(pageId) from page `current`. A protected page without a user
      goes to login, admin without the admin role goes to library. An id
      with no element hides every page and leaves currentPage as it was.
      Otherwise the page becomes current and visible, and loadPageData then
      sends recording without a text and results without an analysis to
      library, and practice-session without a current word to practice
      (loadPracticeSession). */
  function ShowPage(nav: Nav, current: string, pageId: string): Screen
    decreases Rank(pageId)
  {
    if pageId in ProtectedPages && nav.user.None? then ShowPage(nav, current, "login")
    else if pageId == "admin" && !IsAdmin(nav.user) then ShowPage(nav, current, "library")
    else if pageId !in nav.pages then Screen(current, None)
    else if (pageId == "recording" && !nav.hasText) || (pageId == "results" && !nav.hasResult) then
      ShowPage(nav, pageId, "library")
    else if pageId == "practice-session" && !nav.hasSessionWord then
      ShowPage(nav, pageId, "practice")
    else Screen(pageId, Some(pageId))
  }

  /** The page someone may be left on: one that exists, is not protected
      unless there is a user, is admin only for an administrator, and is
      recording, results or practice-session only with a text, an analysis
      or a current word to show. */
  predicate Permitted(nav: Nav, page: string) {
    page in nav.pages && (page in ProtectedPages ==> nav.user.Some?) &&
    (page == "admin" ==> IsAdmin(nav.user)) &&
    (page == "recording" ==> nav.hasText) && (page == "results" ==> nav.hasResult) &&
    (page == "practice-session" ==> nav.hasSessionWord)
  }

  /** In a document with login, library and practice pages, showPage never
      leaves anyone on a page they may not see: the page it shows is
      permitted and is currentPage; when it shows none (an id without an
      element) currentPage stays. A permitted page asked for is the page
      shown. */
  lemma {:induction false} ShowPageSafe(nav: Nav, current: string, pageId: string)
    requires "login" in nav.pages && "library" in nav.pages && "practice" in nav.pages
    ensures var shown := ShowPage(nav, current, pageId);
      (shown.visible.Some? ==> shown.visible.value == shown.current && Permitted(nav, shown.current)) &&
      (shown.visible.None? ==> shown.current == current && pageId !in nav.pages) &&
      (Permitted(nav, pageId) ==> shown == Screen(pageId, Some(pageId)))
    decreases Rank(pageId)
  {
    if pageId in ProtectedPages && nav.user.None? {
      ShowPageSafe(nav, current, "login");
    } else if pageId == "admin" && !IsAdmin(nav.user) {
      ShowPageSafe(nav, current, "library");
    } else if pageId in nav.pages && ((pageId == "recording" && !nav.hasText) || (pageId == "results" && !nav.hasResult)) {
      ShowPageSafe(nav, pageId, "library");
    } else if pageId in nav.pages && pageId == "practice-session" && !nav.hasSessionWord {
      ShowPageSafe(nav, pageId, "practice");
    }
  }

  /** The guards: no user means the login page, a user who is not an
      administrator asking for admin gets the library, and a practice
      session without a current word falls back to the practice page. */
  lemma ShowPageGuards(nav: Nav, current: string, pageId: string)
    ensures pageId in ProtectedPages && nav.user.None? ==>
      ShowPage(nav, current, pageId) == (if "login" in nav.pages then Screen("login", Some("login")) else Screen(current, None))
    ensures pageId == "admin" && nav.user.Some? && !IsAdmin(nav.user) ==>
      ShowPage(nav, current, pageId) == (if "library" in nav.pages then Screen("library", Some("library")) else Screen(current, None))
    ensures pageId == "practice-session" && nav.user.Some? && !nav.hasSessionWord &&
            "practice-session" in nav.pages && "practice" in nav.pages ==>
      ShowPage(nav, current, pageId) == Screen("practice", Some("practice"))
  {
  }

  /** goBack's table; any other page goes back to home. */
  const BackMap: map<string, string> := map[
    "recording" := "library", "results" := "recording", "practice-session" := "practice",
    "login" := "home", "register" := "login", "admin" := "library"]

  function BackTarget(current: string): string {
    if current in BackMap then BackMap[current] else "home"
  }

  /** goBack: showPage of the previous page. */
  function GoBack(nav: Nav, current: string): Screen {
    ShowPage(nav, current, BackTarget(current))
  }

  /** Going back always moves, except at home, and three steps back from
      anywhere reach home. */
  lemma BackTargetReachesHome(page: string)
    ensures BackTarget(page) == page <==> page == "home"
    ensures BackTarget(BackTarget(BackTarget(page))) == "home"
  {
    assert "home" !in BackMap && "library" !in BackMap && "practice" !in BackMap;
  }

  // ---------------------------------------------------------------------
  // Practice session

  /** An entry of /words/my: practice_count may be missing or null. */
  datatype PracticeWord = PracticeWord(word: string, practiceCount: Option<int>)

  /** (w.practice_count || 0) < 3 */
  predicate NeedsPractice(w: PracticeWord) {
    (if w.practiceCount.Some? then w.practiceCount.value else 0) < 3
  }

  /** words.filter(w => (w.practice_count || 0) < 3) */
  function SelectPracticeWords(words: seq<PracticeWord>): seq<PracticeWord> {
    if words == [] then []
    else
      var rest := SelectPracticeWords(words[..|words| - 1]);
      if NeedsPractice(words[|words| - 1]) then rest + [words[|words| - 1]] else rest
  }

  /** The filter keeps each word that needs practice as often as it occurs
      and drops every other word. */
  lemma {:induction false} SelectPracticeWordsCounts(words: seq<PracticeWord>)
    ensures forall w :: multiset(SelectPracticeWords(words))[w] == if NeedsPractice(w) then multiset(words)[w] else 0
  {
    if words != [] {
      var init, last := words[..|words| - 1], words[|words| - 1];
      SelectPracticeWordsCounts(init);
      assert words == init + [last];
    }
  }

  /** The filter keeps the original order: it works piece by piece. */
  lemma {:induction false} SelectPracticeWordsAppend(a: seq<PracticeWord>, b: seq<PracticeWord>)
    ensures SelectPracticeWords(a + b) == SelectPracticeWords(a) + SelectPracticeWords(b)
  {
    if b == [] {
      assert a + b == a;
    } else {
      var b' := b[..|b| - 1];
      SelectPracticeWordsAppend(a, b');
      assert (a + b)[..|a + b| - 1] == a + b';
      assert (a + b)[|a + b| - 1] == b[|b| - 1];
    }
  }

  /** window.practiceWords and window.currentPracticeIndex. */
  datatype SessionState = SessionState(words: seq<PracticeWord>, index: int)

  datatype Advanced = Advanced(next: SessionState, finished: bool)

  /** nextWord: move to the next word, or end the session (clearing the
      list) once the index reaches the end. */
  function Advance(s: SessionState): Advanced {
    var index := s.index + 1;
    if index >= |s.words| then Advanced(SessionState([], 0), true)
    else Advanced(s.(index := index), false)
  }

  /** k calls of nextWord. */
  function AdvanceTimes(s: SessionState, k: nat): SessionState {
    if k == 0 then s else Advance(AdvanceTimes(s, k - 1)).next
  }

  /** A session started on n words shows them in turn: after k < n calls of
      nextWord the index is k. */
  lemma {:induction false} SessionVisitsInOrder(words: seq<PracticeWord>, k: nat)
    requires k < |words|
    ensures AdvanceTimes(SessionState(words, 0), k) == SessionState(words, k)
  {
    if k > 0 {
      SessionVisitsInOrder(words, k - 1);
    }
  }

  /** ... and the n-th call ends it, with the list cleared; no earlier call
      does. */
  lemma SessionEndsAfterLastWord(words: seq<PracticeWord>, k: nat)
    requires k < |words|
    ensures var step := Advance(AdvanceTimes(SessionState(words, 0), k));
      step.finished <==> k == |words| - 1
    ensures k == |words| - 1 ==> AdvanceTimes(SessionState(words, 0), k + 1) == SessionState([], 0)
  {
    SessionVisitsInOrder(words, k);
  }

  datatype SessionStart = NoWords | AllPracticed | SessionStarted

  /** The practice-session globals of app.js, updated in place. */
  class PracticeSession {
    var practiceWords: seq<PracticeWord>
    var currentPracticeIndex: int

    function Snapshot(): SessionState
      reads this
    {
      SessionState(practiceWords, currentPracticeIndex)
    }

    constructor ()
      ensures practiceWords == [] && currentPracticeIndex == 0
    {
      practiceWords, currentPracticeIndex := [], 0;
    }

    /** startPracticeSession, given how the /words/my request ended. */
    method StartPracticeSession(fetched: Api.Fetched<seq<PracticeWord>>) returns (outcome: SessionStart)
      modifies this
      ensures var words := Api.GetMyWords(fetched);
        (outcome == NoWords <==> words == []) &&
        (outcome == AllPracticed <==> words != [] && SelectPracticeWords(words) == []) &&
        (outcome == SessionStarted ==> Snapshot() == SessionState(SelectPracticeWords(words), 0)) &&
        (outcome != SessionStarted ==> Snapshot() == old(Snapshot()))
    {
      var words := Api.GetMyWords(fetched);
      if |words| == 0 {
        return NoWords;
      }
      var selected := SelectPracticeWords(words);
      if |selected| == 0 {
        return AllPracticed;
      }
      practiceWords := selected;
      currentPracticeIndex := 0;
      outcome := SessionStarted;
    }

    /** nextWord. */
    method NextWord() returns (finished: bool)
      modifies this
      ensures Advanced(Snapshot(), finished) == Advance(old(Snapshot()))
    {
      var index := currentPracticeIndex;
      index := index + 1;
      currentPracticeIndex := index;
      finished := index >= |practiceWords|;
      if finished {
        practiceWords := [];
        currentPracticeIndex := 0;
      }
    }
  }

  // ---------------------------------------------------------------------
  // analyzeAndShowResults

  /** analyzeAndShowResults refuses recordings under this many bytes. */
  const MinAnalyzeBytes: nat := 1000

  datatype AnalyzeDecision = NoRecording | NoText | TooShort | Analyze(blob: Blob)

  /** The checks before analyzeAudio is called, with the recording taken
      from window.audioBlob or else from recordingState.currentBlob. */
  function AnalyzeGuard(windowBlob: Option<Blob>, currentBlob: Option<Blob>, hasText: bool): AnalyzeDecision {
    var blob := if windowBlob.Some? then windowBlob else currentBlob;
    if blob.None? then NoRecording
    else if !hasText then NoText
    else if blob.value.Size() < MinAnalyzeBytes then TooShort
    else Analyze(blob.value)
  }

  /** The refusals come in the order: no recording, no text, too short. */
  lemma AnalyzeGuardOrder(windowBlob: Option<Blob>, currentBlob: Option<Blob>, hasText: bool)
    ensures var d := AnalyzeGuard(windowBlob, currentBlob, hasText);
      (d == NoRecording <==> windowBlob.None? && currentBlob.None?) &&
      (d == NoText <==> (windowBlob.Some? || currentBlob.Some?) && !hasText) &&
      (d.Analyze? <==> (hasText && (windowBlob.Some? || currentBlob.Some?) &&
        (if windowBlob.Some? then windowBlob.value else currentBlob.value).Size() >= MinAnalyzeBytes)) &&
      (d.Analyze? ==> d.blob == if windowBlob.Some? then windowBlob.value else currentBlob.value)
  {
  }

  /** The two size limits disagree: a recording of 1000 to 9999 bytes
      passes this check and is then refused by analyzeAudio as too short. */
  lemma GuardsDisagree(blob: Blob, textId: int, userId: Option<int>)
    requires MinAnalyzeBytes <= blob.Size() < Api.MinAudioBytes
    ensures AnalyzeGuard(Some(blob), Some(blob), true) == Analyze(blob)
    ensures Api.AnalyzeAudio(textId, Some(blob), userId) == Api.Rejected("Audio too short")
  {
  }

  /** For the recorder's own WAV of n interleaved samples: it passes this
      check from n = 478 on, but analyzeAudio sends it only from n = 4978
      on. */
  lemma RecordedWavThresholds(pcm: PcmBuffer, textId: int, userId: Option<int>)
    ensures var n := pcm.length * |pcm.channels|;
      var blob := Lifecycle.WavBlob(pcm);
      (AnalyzeGuard(Some(blob), Some(blob), true).Analyze? <==> n >= 478) &&
      (Api.AnalyzeAudio(textId, Some(blob), userId).Post? <==> 4978 <= n <= 26214378)
  {
    Wav.InterleaveLength(pcm.channels, pcm.length);
    Api.RecordedWavIsSent(textId, pcm, userId);
  }
}
