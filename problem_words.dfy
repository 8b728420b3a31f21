/** extractProblemWords of frontend/js/app.js: the words to practise after
    an analysis, gathered from three parts of the server's feedback, then
    trimmed, freed of duplicates (first occurrence kept) and cut to 15.

    The client builds the list with push loops and `includes` checks on the
    untrimmed words; ProblemWords below states the same result without
    them, and ExtractProblemWords is proved to compute it. */
module ProblemWords {
  import opened Js

  // ---------------------------------------------------------------------
  // The feedback object (absent or non-array fields are None)

  datatype ErrorWord = ErrorWord(referenceWord: Option<string>)
  datatype ErrorEntry = ErrorEntry(words: Option<seq<Option<string>>>)
  datatype Feedback = Feedback(
    errorWords: Option<seq<ErrorWord>>,
    problemWords: Option<seq<Option<string>>>,
    errors: Option<seq<ErrorEntry>>)
  datatype AnalysisResult = AnalysisResult(feedback: Option<Feedback>)

  /** The most words returned. */
  const MaxProblemWords: nat := 15

  /** `!(w && w.trim() !== '')`: missing, empty or only white space. */
  predicate Blank(w: Option<string>) {
    w.None? || Trim(w.value) == []
  }

  /** The words that are not blank, in order. */
  function NonBlank(ws: seq<Option<string>>): (r: seq<string>)
    ensures forall i :: 0 <= i < |r| ==> Trim(r[i]) != []
  {
    if ws == [] then []
    else
      var rest := NonBlank(ws[..|ws| - 1]);
      if Blank(ws[|ws| - 1]) then rest else rest + [ws[|ws| - 1].value]
  }

  /** The reference_word of every entry of error_words. */
  function ReferenceWords(errs: seq<ErrorWord>): seq<Option<string>> {
    seq(|errs|, i requires 0 <= i < |errs| => errs[i].referenceWord)
  }

  /** The `words` arrays of the entries of errors, one after the other. */
  function Flatten(entries: seq<ErrorEntry>): seq<Option<string>> {
    if entries == [] then []
    else
      var last := entries[|entries| - 1];
      Flatten(entries[..|entries| - 1]) + (if last.words.Some? then last.words.value else [])
  }

  function OrEmpty<T>(o: Option<seq<T>>): seq<T> {
    if o.Some? then o.value else []
  }

  /** Every candidate in the order the client visits them. */
  function Candidates(f: Feedback): seq<string> {
    NonBlank(ReferenceWords(OrEmpty(f.errorWords))) + NonBlank(OrEmpty(f.problemWords)) +
    NonBlank(Flatten(OrEmpty(f.errors)))
  }

  // ---------------------------------------------------------------------
  // Sequence helpers

  function TrimAll(ws: seq<string>): seq<string> {
    seq(|ws|, i requires 0 <= i < |ws| => Trim(ws[i]))
  }

  /** [...new Set(ws)]: each value once, at its first occurrence. */
  function Dedupe(ws: seq<string>): seq<string> {
    if ws == [] then []
    else
      var d := Dedupe(ws[..|ws| - 1]);
      if ws[|ws| - 1] in d then d else d + [ws[|ws| - 1]]
  }

  /** .filter(word => word.length > 0) */
  function NonEmpty(ws: seq<string>): seq<string> {
    if ws == [] then []
    else NonEmpty(ws[..|ws| - 1]) + (if ws[|ws| - 1] == [] then [] else [ws[|ws| - 1]])
  }

  /** .slice(0, 15) */
  function FirstFifteen(ws: seq<string>): (r: seq<string>)
    ensures |r| <= MaxProblemWords && r <= ws
    ensures |ws| <= MaxProblemWords ==> r == ws
  {
    if |ws| <= MaxProblemWords then ws else ws[..MaxProblemWords]
  }

  predicate NoDuplicates(ws: seq<string>) {
    forall i, j :: 0 <= i < j < |ws| ==> ws[i] != ws[j]
  }

  /** The index of the first occurrence of w. */
  function FirstIndex(ws: seq<string>, w: string): (k: nat)
    requires w in ws
    ensures k < |ws| && ws[k] == w && w !in ws[..k]
  {
    if ws[0] == w then 0 else 1 + FirstIndex(ws[1..], w)
  }

  // ---------------------------------------------------------------------
  // The result

  /** What extractProblemWords returns: nothing without feedback, otherwise
      the first 15 distinct trimmed candidates. */
  function ProblemWords(analysisResult: Option<AnalysisResult>): seq<string> {
    if analysisResult.None? || analysisResult.value.feedback.None? then []
    else FirstFifteen(Dedupe(TrimAll(Candidates(analysisResult.value.feedback.value))))
  }

  /** One `forEach` with the `includes` check: push each non-blank word not
      already in the list (compared untrimmed). */
  function AddNew(words: seq<string>, ws: seq<Option<string>>): seq<string> {
    if ws == [] then words else Push(AddNew(words, ws[..|ws| - 1]), ws[|ws| - 1])
  }

  /** The body of that forEach. */
  function Push(words: seq<string>, w: Option<string>): seq<string> {
    if !Blank(w) && w.value !in words then words + [w.value] else words
  }

  /** The list the three loops build. */
  function Pushed(f: Feedback): seq<string> {
    AddNew(AddNew(NonBlank(ReferenceWords(OrEmpty(f.errorWords))), OrEmpty(f.problemWords)),
           Flatten(OrEmpty(f.errors)))
  }

  /** The last statement: trim, dedupe, drop empty strings, take 15. */
  function Finish(words: seq<string>): seq<string> {
    FirstFifteen(NonEmpty(Dedupe(TrimAll(words))))
  }

  /** extractProblemWords with its loops. */
  method ExtractProblemWords(analysisResult: Option<AnalysisResult>) returns (result: seq<string>)
    ensures result == ProblemWords(analysisResult)
  {
    var words: seq<string> := [];
    if analysisResult.None? || analysisResult.value.feedback.None? {
      return words;
    }
    var feedback := analysisResult.value.feedback.value;
    if feedback.errorWords.Some? {
      words := PushReferenceWords(feedback.errorWords.value);
    }
    if feedback.problemWords.Some? {
      words := PushNew(words, feedback.problemWords.value);
    }
    if feedback.errors.Some? {
      words := PushErrorWords(words, feedback.errors.value);
    }
    var uniqueWords := NonEmpty(Dedupe(TrimAll(words)));
    result := FirstFifteen(uniqueWords);
    PushedIsCandidates(feedback);
  }

  /** The error_words loop: every non-blank reference_word, with no
      includes check. */
  method PushReferenceWords(errs: seq<ErrorWord>) returns (words: seq<string>)
    ensures words == NonBlank(ReferenceWords(errs))
  {
    words := [];
    var i := 0;
    while i < |errs|
      invariant 0 <= i <= |errs|
      invariant words == NonBlank(ReferenceWords(errs[..i]))
    {
      assert ReferenceWords(errs[..i + 1])[..i] == ReferenceWords(errs[..i]);
      if !Blank(errs[i].referenceWord) {
        words := words + [errs[i].referenceWord.value];
      }
      i := i + 1;
    }
    assert errs[..i] == errs;
  }

  /** A loop with the includes check (problem_words, and each entry's
      words in errors). */
  method PushNew(start: seq<string>, ws: seq<Option<string>>) returns (words: seq<string>)
    ensures words == AddNew(start, ws)
  {
    words := start;
    var i := 0;
    while i < |ws|
      invariant 0 <= i <= |ws|
      invariant words == AddNew(start, ws[..i])
    {
      assert ws[..i + 1][..i] == ws[..i];
      var word := ws[i];
      if !Blank(word) && word.value !in words {
        words := words + [word.value];
      }
      assert words == Push(AddNew(start, ws[..i]), ws[i]);
      i := i + 1;
    }
    assert ws[..i] == ws;
  }

  /** The errors loop: each entry's words array in turn. */
  method PushErrorWords(start: seq<string>, entries: seq<ErrorEntry>) returns (words: seq<string>)
    ensures words == AddNew(start, Flatten(entries))
  {
    words := start;
    var i := 0;
    while i < |entries|
      invariant 0 <= i <= |entries|
      invariant words == AddNew(start, Flatten(entries[..i]))
    {
      assert entries[..i + 1][..i] == entries[..i];
      if entries[i].words.Some? {
        words := PushNew(words, entries[i].words.value);
        AddNewAppend(start, Flatten(entries[..i]), entries[i].words.value);
        assert Flatten(entries[..i + 1]) == Flatten(entries[..i]) + entries[i].words.value;
      } else {
        assert Flatten(entries[..i + 1]) == Flatten(entries[..i]) + [];
        assert Flatten(entries[..i]) + [] == Flatten(entries[..i]);
      }
      i := i + 1;
    }
    assert entries[..i] == entries;
  }

  /** Two loops in a row are one loop over both lists. */
  lemma {:induction false} AddNewAppend(start: seq<string>, a: seq<Option<string>>, b: seq<Option<string>>)
    ensures AddNew(AddNew(start, a), b) == AddNew(start, a + b)
  {
    if b == [] {
      assert a + b == a;
    } else {
      var b', x := b[..|b| - 1], b[|b| - 1];
      AddNewAppend(start, a, b');
      assert (a + b)[..|a + b| - 1] == a + b' && (a + b)[|a + b| - 1] == x;
      calc {
        AddNew(start, a + b);
        Push(AddNew(start, a + b'), x);
        Push(AddNew(AddNew(start, a), b'), x);
        AddNew(AddNew(start, a), b);
      }
    }
  }

  // ---------------------------------------------------------------------
  // Dedupe

  /** Dedupe keeps exactly the values of its input. */
  lemma {:induction false} DedupeElems(ws: seq<string>)
    ensures forall w :: w in Dedupe(ws) <==> w in ws
  {
    if ws != [] {
      DedupeElems(ws[..|ws| - 1]);
      assert ws == ws[..|ws| - 1] + [ws[|ws| - 1]];
    }
  }

  /** Dedupe leaves no value twice. */
  lemma {:induction false} DedupeNoDuplicates(ws: seq<string>)
    ensures NoDuplicates(Dedupe(ws))
  {
    if ws != [] {
      DedupeNoDuplicates(ws[..|ws| - 1]);
    }
  }

  lemma DedupeSnoc(ws: seq<string>, w: string)
    ensures Dedupe(ws + [w]) == if w in Dedupe(ws) then Dedupe(ws) else Dedupe(ws) + [w]
  {
    assert (ws + [w])[..|ws|] == ws;
  }

  /** Lists with the same deduplication keep it when the same words are
      added to both. */
  lemma {:induction false} DedupeCongruent(a: seq<string>, b: seq<string>, c: seq<string>)
    requires Dedupe(a) == Dedupe(b)
    ensures Dedupe(a + c) == Dedupe(b + c)
  {
    if c != [] {
      var c' := c[..|c| - 1];
      var w := c[|c| - 1];
      DedupeCongruent(a, b, c');
      DedupeSnoc(a + c', w);
      DedupeSnoc(b + c', w);
      assert a + c == (a + c') + [w];
      assert b + c == (b + c') + [w];
    } else {
      assert a + c == a && b + c == b;
    }
  }

  /** The values of r are values of ws, in the order of their first
      occurrence in ws. */
  predicate InFirstOccurrenceOrder(r: seq<string>, ws: seq<string>) {
    forall i, j :: 0 <= i < j < |r| ==> r[i] in ws && r[j] in ws && FirstIndex(ws, r[i]) < FirstIndex(ws, r[j])
  }

  /** Dedupe keeps the order of first occurrences. */
  lemma {:induction false} DedupeFirstOccurrence(ws: seq<string>)
    ensures InFirstOccurrenceOrder(Dedupe(ws), ws)
  {
    if ws != [] {
      var init, w := ws[..|ws| - 1], ws[|ws| - 1];
      DedupeFirstOccurrence(init);
      DedupeElems(init);
      assert ws == init + [w];
      var d := Dedupe(init);
      var r := Dedupe(ws);
      forall i, j | 0 <= i < j < |r|
        ensures r[i] in ws && r[j] in ws && FirstIndex(ws, r[i]) < FirstIndex(ws, r[j])
      {
        assert d[i] in init;
        FirstIndexExtend(init, w, d[i]);
        if j < |d| {
          assert d[j] in init;
          FirstIndexExtend(init, w, d[j]);
        } else {
          assert w !in init && r[j] == w;
          FirstIndexNew(init, w);
        }
      }
    } else {
      assert Dedupe(ws) == [];
    }
  }

  lemma {:induction false} FirstIndexExtend(ws: seq<string>, w: string, x: string)
    requires x in ws
    ensures FirstIndex(ws + [w], x) == FirstIndex(ws, x)
  {
    if ws[0] != x {
      assert (ws + [w])[1..] == ws[1..] + [w];
      FirstIndexExtend(ws[1..], w, x);
    }
  }

  lemma FirstIndexNew(ws: seq<string>, w: string)
    requires w !in ws
    ensures FirstIndex(ws + [w], w) == |ws|
  {
  }

  // ---------------------------------------------------------------------
  // The includes checks change nothing

  lemma TrimAllAppend(a: seq<string>, b: seq<string>)
    ensures TrimAll(a + b) == TrimAll(a) + TrimAll(b)
  {
  }

  /** Skipping a word already pushed gives the same deduplicated, trimmed
      list as pushing it. */
  lemma {:induction false} AddNewDedupe(words: seq<string>, ws: seq<Option<string>>)
    ensures Dedupe(TrimAll(AddNew(words, ws))) == Dedupe(TrimAll(words + NonBlank(ws)))
  {
    if ws == [] {
      assert words + [] == words;
    } else {
      var init, w := ws[..|ws| - 1], ws[|ws| - 1];
      AddNewDedupe(words, init);
      PushDedupe(AddNew(words, init), words + NonBlank(init), w);
      assert words + NonBlank(ws) == (words + NonBlank(init)) + (if Blank(w) then [] else [w.value]);
    }
  }

  /** One step of AddNewDedupe. */
  lemma PushDedupe(pushed: seq<string>, full: seq<string>, w: Option<string>)
    requires Dedupe(TrimAll(pushed)) == Dedupe(TrimAll(full))
    ensures Dedupe(TrimAll(Push(pushed, w))) == Dedupe(TrimAll(full + (if Blank(w) then [] else [w.value])))
  {
    if Blank(w) {
      assert full + [] == full;
    } else {
      var t := Trim(w.value);
      TrimAllAppend(full, [w.value]);
      DedupeSnoc(TrimAll(full), t);
      if w.value in pushed {
        var k :| 0 <= k < |pushed| && pushed[k] == w.value;
        assert TrimAll(pushed)[k] == t;
        DedupeElems(TrimAll(pushed));
      } else {
        TrimAllAppend(pushed, [w.value]);
        DedupeSnoc(TrimAll(pushed), t);
      }
    }
  }

  /** Every candidate is non-empty once trimmed, so the final filter removes
      nothing. */
  lemma {:induction false} NonEmptyKeeps(ws: seq<string>)
    requires forall i :: 0 <= i < |ws| ==> ws[i] != []
    ensures NonEmpty(ws) == ws
  {
    if ws != [] {
      NonEmptyKeeps(ws[..|ws| - 1]);
    }
  }

  /** The loops with their includes checks compute ProblemWords. */
  lemma PushedIsCandidates(f: Feedback)
    ensures Finish(Pushed(f)) == FirstFifteen(Dedupe(TrimAll(Candidates(f))))
  {
    var b := NonBlank(ReferenceWords(OrEmpty(f.errorWords)));
    var p := OrEmpty(f.problemWords);
    var e := Flatten(OrEmpty(f.errors));
    var middle := AddNew(b, p);
    AddNewDedupe(middle, e);
    AddNewDedupe(b, p);
    TrimAllAppend(middle, NonBlank(e));
    TrimAllAppend(b + NonBlank(p), NonBlank(e));
    DedupeCongruent(TrimAll(middle), TrimAll(b + NonBlank(p)), TrimAll(NonBlank(e)));
    var d := Dedupe(TrimAll(Candidates(f)));
    DedupeElems(TrimAll(Candidates(f)));
    forall i | 0 <= i < |d| ensures d[i] != [] {
      assert d[i] in TrimAll(Candidates(f));
      CandidatesNotBlank(f);
    }
    NonEmptyKeeps(d);
  }

  /** Trimmed candidates are non-empty and trimmed. */
  lemma CandidatesNotBlank(f: Feedback)
    ensures forall w :: w in TrimAll(Candidates(f)) ==> w != [] && Trim(w) == w
  {
    var c := Candidates(f);
    CandidatesNonEmpty(f);
    forall w | w in TrimAll(c) ensures w != [] && Trim(w) == w {
      var k :| 0 <= k < |c| && TrimAll(c)[k] == w;
      TrimIdempotent(c[k]);
    }
  }

  lemma CandidatesNonEmpty(f: Feedback)
    ensures forall k :: 0 <= k < |Candidates(f)| ==> Trim(Candidates(f)[k]) != []
  {
    var a := NonBlank(ReferenceWords(OrEmpty(f.errorWords)));
    var b := NonBlank(OrEmpty(f.problemWords));
    var e := NonBlank(Flatten(OrEmpty(f.errors)));
    var c := Candidates(f);
    assert c == a + b + e;
    forall k | 0 <= k < |c| ensures Trim(c[k]) != [] {
      if k < |a| {
        assert c[k] == a[k];
      } else if k < |a| + |b| {
        assert c[k] == b[k - |a|];
      } else {
        assert c[k] == e[k - |a| - |b|];
      }
    }
  }

  // ---------------------------------------------------------------------
  // Properties of the result

  /** At most 15 words, each trimmed and non-empty, none twice; nothing
      without feedback. */
  lemma ProblemWordsShape(analysisResult: Option<AnalysisResult>)
    ensures var r := ProblemWords(analysisResult);
      |r| <= MaxProblemWords && NoDuplicates(r) &&
      (forall i :: 0 <= i < |r| ==> r[i] != [] && Trim(r[i]) == r[i]) &&
      (analysisResult.None? || analysisResult.value.feedback.None? ==> r == [])
  {
    if analysisResult.Some? && analysisResult.value.feedback.Some? {
      var f := analysisResult.value.feedback.value;
      var t := TrimAll(Candidates(f));
      var d := Dedupe(t);
      var r := ProblemWords(analysisResult);
      assert r == FirstFifteen(d);
      DedupeElems(t);
      DedupeNoDuplicates(t);
      CandidatesNotBlank(f);
      assert forall i :: 0 <= i < |r| ==> r[i] == d[i] && d[i] in t;
    }
  }

  /** Each word is the trimmed form of a candidate, and the words come in
      the order in which they first occur among the trimmed candidates. */
  lemma ProblemWordsOrder(f: Feedback)
    ensures var r := ProblemWords(Some(AnalysisResult(Some(f))));
      InFirstOccurrenceOrder(r, TrimAll(Candidates(f))) &&
      forall w :: w in r ==> w in TrimAll(Candidates(f))
  {
    var t := TrimAll(Candidates(f));
    var d := Dedupe(t);
    var r := FirstFifteen(d);
    DedupeFirstOccurrence(t);
    DedupeElems(t);
    assert forall i :: 0 <= i < |r| ==> r[i] == d[i];
  }

  /** When there are at most 15 distinct trimmed candidates, every
      non-blank candidate is in the result in trimmed form. */
  lemma ProblemWordsComplete(f: Feedback, w: string)
    requires w in Candidates(f) && |Dedupe(TrimAll(Candidates(f)))| <= MaxProblemWords
    ensures Trim(w) in ProblemWords(Some(AnalysisResult(Some(f))))
  {
    var c := Candidates(f);
    var k :| 0 <= k < |c| && c[k] == w;
    assert TrimAll(c)[k] == Trim(w);
    DedupeElems(TrimAll(c));
  }
}
