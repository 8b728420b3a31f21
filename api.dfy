/** The decisions of frontend/js/api.js that do not depend on the network:
    the checks analyzeAudio makes before it sends anything, the form it
    would send, the normalisation of saveProblemWords' reply, updateText's
    id check with parseInt, and the fallbacks of getMyWords, getWordStats
    and getAdminStats. What the server answers is an input. */
module Api {
  import opened Js
  import opened Browser
  import opened Wav
  import opened Lifecycle

  // ---------------------------------------------------------------------
  // Integers as text

  /** Number.prototype.toString for an integer. */
  function IntToString(n: int): (r: string)
    ensures |r| >= 1
  {
    if n < 0 then "-" + NatToString(-n) else NatToString(n)
  }

  /** The value of a digit character in radixes up to 36. */
  function DigitValue(c: char): nat {
    if '0' <= c <= '9' then c as nat - '0' as nat
    else if 'a' <= c <= 'z' then c as nat - 'a' as nat + 10
    else if 'A' <= c <= 'Z' then c as nat - 'A' as nat + 10
    else 36
  }

  predicate IsRadixDigit(c: char, radix: nat) {
    DigitValue(c) < radix
  }

  /** The number of radix digits at the start of s. */
  function RadixRun(s: string, radix: nat): (k: nat)
    ensures k <= |s|
    ensures forall i :: 0 <= i < k ==> IsRadixDigit(s[i], radix)
    ensures k == |s| || !IsRadixDigit(s[k], radix)
  {
    if s == [] || !IsRadixDigit(s[0], radix) then 0 else 1 + RadixRun(s[1..], radix)
  }

  /** The value of a string of radix digits, most significant first. */
  function RadixValue(s: string, radix: nat): nat {
    if s == [] then 0 else radix * RadixValue(s[..|s| - 1], radix) + DigitValue(s[|s| - 1])
  }

  /** parseInt(string) with no radix argument: leading white space, an
      optional sign, then the magnitude; NaN (None) when there is none. */
  function ParseInt(input: string): Option<int> {
    var s := TrimStart(input);
    var negative := |s| > 0 && s[0] == '-';
    var unsigned := if |s| > 0 && (s[0] == '-' || s[0] == '+') then s[1..] else s;
    match ParseMagnitude(unsigned)
    case None => None
    case Some(magnitude) => Some(if negative then 0 - magnitude else magnitude)
  }

  /** The unsigned part: a "0x" or "0X" prefix selects radix 16, then the
      longest run of digits of the radix; None when that run is empty. */
  function ParseMagnitude(unsigned: string): Option<nat> {
    var hex := |unsigned| >= 2 && unsigned[0] == '0' && (unsigned[1] == 'x' || unsigned[1] == 'X');
    var radix := if hex then 16 else 10;
    var digits := if hex then unsigned[2..] else unsigned;
    var k := RadixRun(digits, radix);
    if k == 0 then None else Some(RadixValue(digits[..k], radix))
  }

  /** In radix 10 the digit value is ParseDigits'. */
  lemma {:induction false} RadixValueDecimal(s: string)
    requires AllDigits(s)
    ensures RadixValue(s, 10) == ParseDigits(s)
  {
    if s != [] {
      RadixValueDecimal(s[..|s| - 1]);
    }
  }

  /** A run of decimal digits followed by something that is not a digit. */
  lemma {:induction false} DecimalRun(d: string, t: string)
    requires AllDigits(d) && (t == [] || !IsDigit(t[0]))
    ensures RadixRun(d + t, 10) == |d|
  {
    if d != [] {
      assert (d + t)[1..] == d[1..] + t;
      DecimalRun(d[1..], t);
    } else {
      assert d + t == t;
    }
  }

  /** The decimal text of a natural number, with anything after it that
      does not continue the number, reads back as that number. */
  lemma ParseNatText(m: nat, t: string)
    requires t == [] || (!IsDigit(t[0]) && t[0] != 'x' && t[0] != 'X')
    ensures ParseMagnitude(NatToString(m) + t) == Some(m)
  {
    var d := NatToString(m);
    DecimalRun(d, t);
    assert (d + t)[..|d|] == d;
    RadixValueDecimal(d);
    NatToStringRoundTrip(m);
    if m == 0 {
      assert d == "0";
    } else {
      assert d[0] != '0' by { NatToStringLeadingDigit(m); }
    }
  }

  /** Only zero is written with a leading "0". */
  lemma {:induction false} NatToStringLeadingDigit(m: nat)
    requires m > 0
    ensures NatToString(m)[0] != '0'
  {
    if m >= 10 {
      NatToStringLeadingDigit(m / 10);
      assert NatToString(m) == NatToString(m / 10) + [DigitChar(m % 10)];
    }
  }

  /** parseInt reads an integer's own text back, and ignores anything
      after it that does not continue the number. */
  lemma ParseIntRoundTrip(n: int, t: string)
    requires t == [] || (!IsDigit(t[0]) && t[0] != 'x' && t[0] != 'X')
    ensures ParseInt(IntToString(n) + t) == Some(n)
  {
    if n < 0 {
      ParseNegative(-n, t);
      assert "-" + NatToString(-n) + t == IntToString(n) + t;
    } else {
      ParseUnsigned(n, t);
    }
  }

  /** A string that starts with a digit or a sign has no leading blank. */
  lemma NotWhitespace(s: string)
    requires |s| > 0 && (IsDigit(s[0]) || s[0] == '-')
    ensures TrimStart(s) == s
  {
    assert !IsWhitespace(s[0]);
  }

  lemma ParseIntUnsignedText(s: string)
    requires |s| > 0 && TrimStart(s) == s && s[0] != '-' && s[0] != '+'
    ensures ParseInt(s) == ParseMagnitude(s)
  {
  }

  lemma ParseUnsigned(m: nat, t: string)
    requires t == [] || (!IsDigit(t[0]) && t[0] != 'x' && t[0] != 'X')
    ensures ParseInt(NatToString(m) + t) == Some(m)
  {
    var s := NatToString(m) + t;
    assert IsDigit(s[0]);
    NotWhitespace(s);
    ParseNatText(m, t);
    ParseIntUnsignedText(s);
  }

  lemma ParseNegative(m: nat, t: string)
    requires m > 0
    requires t == [] || (!IsDigit(t[0]) && t[0] != 'x' && t[0] != 'X')
    ensures ParseInt("-" + NatToString(m) + t) == Some(0 - m)
  {
    var u := NatToString(m) + t;
    var s := "-" + NatToString(m) + t;
    assert s[1..] == u;
    ParseNatText(m, t);
    ParseSigned(s, m);
  }

  /** A '-' before a magnitude parseInt reads negates it. */
  lemma ParseSigned(s: string, m: nat)
    requires |s| > 0 && s[0] == '-' && ParseMagnitude(s[1..]) == Some(m)
    ensures ParseInt(s) == Some(0 - m)
  {
    NotWhitespace(s);
    assert TrimStart(s) == s && s[0] == '-';
    var unsigned := s[1..];
    assert ParseMagnitude(unsigned) == Some(m);
  }

  // ---------------------------------------------------------------------
  // updateText

  /** What updateText does before the request: refuse an id parseInt cannot
      read, or send the PUT to the path built from the parsed number. */
  datatype UpdateOutcome = InvalidTextId(message: string) | Put(path: string)

  function UpdateText(textId: string): (r: UpdateOutcome)
    ensures r.InvalidTextId? <==> ParseInt(textId) == None
    ensures r.InvalidTextId? ==> r.message == "Invalid text ID: " + textId
    ensures r.Put? ==> r.path == "/admin/texts/" + IntToString(ParseInt(textId).value)
  {
    match ParseInt(textId)
    case None => InvalidTextId("Invalid text ID: " + textId)
    case Some(numericId) => Put("/admin/texts/" + IntToString(numericId))
  }

  /** The path names the parsed id: reading it back gives the number
      parseInt found in the argument, so an id with trailing text (say
      "12abc") updates text 12. */
  lemma UpdateTextPathReadsBack(textId: string)
    requires UpdateText(textId).Put?
    ensures var p := UpdateText(textId).path;
      |p| > 13 && p[..13] == "/admin/texts/" && ParseInt(p[13..]) == ParseInt(textId)
  {
    var n := ParseInt(textId).value;
    var p := UpdateText(textId).path;
    assert p[13..] == IntToString(n) + [];
    ParseIntRoundTrip(n, []);
  }

  /** An integer id is used as it is. */
  lemma UpdateTextWithIntegerId(n: int)
    ensures UpdateText(IntToString(n)) == Put("/admin/texts/" + IntToString(n))
  {
    ParseIntRoundTrip(n, []);
    assert IntToString(n) + [] == IntToString(n);
  }

  // ---------------------------------------------------------------------
  // analyzeAudio

  /** analyzeAudio refuses recordings under this many bytes. */
  const MinAudioBytes: nat := 10000
  /** ... and over 50 MiB. */
  const MaxAudioBytes: nat := 50 * 1024 * 1024

  /** A FormData entry. */
  datatype FormValue = Text(text: string) | File(blob: Blob, filename: string)

  /** What analyzeAudio does before the network: a TypeError from reading
      the size of a null blob, one of the three refusals it throws, or the
      form it posts to /analyze together with whether it warned about the
      type. */
  datatype AnalyzeStart =
    | NullBlob
    | Rejected(message: string)
    | Post(form: seq<(string, FormValue)>, typeWarning: bool)

  /** analyzeAudio up to the fetch. `userId` is currentUser.id when there is
      a current user with one. */
  function AnalyzeAudio(textId: int, audioBlob: Option<Blob>, userId: Option<int>): AnalyzeStart {
    if audioBlob.None? then NullBlob
    else
      var blob := audioBlob.value;
      if blob.Size() == 0 then Rejected("No audio data")
      else if blob.Size() < MinAudioBytes then Rejected("Audio too short")
      else if blob.Size() > MaxAudioBytes then Rejected("Audio too large")
      else
        var form := [("text_id", Text(IntToString(textId))), ("audio", File(blob, "recording.wav")),
                     ("language", Text("en")), ("sample_rate", Text("16000")), ("format", Text("wav"))];
        var withUser := if userId.Some? && userId.value != 0 then form + [("user_id", Text(IntToString(userId.value)))] else form;
        Post(withUser, blob.mimeType != "audio/wav")
  }

  /** A request is made exactly for a blob of 10000 to 52428800 bytes; the
      refusals come in the order empty, short, large. */
  lemma AnalyzeAudioGuards(textId: int, audioBlob: Option<Blob>, userId: Option<int>)
    ensures var r := AnalyzeAudio(textId, audioBlob, userId);
      (r.NullBlob? <==> audioBlob.None?) &&
      (r.Post? <==> audioBlob.Some? && MinAudioBytes <= audioBlob.value.Size() <= MaxAudioBytes) &&
      (r == Rejected("No audio data") <==> audioBlob.Some? && audioBlob.value.Size() == 0) &&
      (r == Rejected("Audio too short") <==> audioBlob.Some? && 0 < audioBlob.value.Size() < MinAudioBytes) &&
      (r == Rejected("Audio too large") <==> audioBlob.Some? && audioBlob.value.Size() > MaxAudioBytes)
  {
  }

  /** The MIME type never decides whether the blob is sent, only whether a
      warning is logged. */
  lemma AnalyzeAudioIgnoresType(textId: int, bytes: seq<Byte>, t1: string, t2: string, userId: Option<int>)
    ensures AnalyzeAudio(textId, Some(Blob(bytes, t1)), userId).Post? ==
            AnalyzeAudio(textId, Some(Blob(bytes, t2)), userId).Post?
    ensures AnalyzeAudio(textId, Some(Blob(bytes, t1)), userId).Post? ==>
            AnalyzeAudio(textId, Some(Blob(bytes, t1)), userId).typeWarning == (t1 != "audio/wav")
  {
  }

  /** The form carries the blob under "audio" as recording.wav and the
      fixed fields, in order, with user_id last when there is a user. */
  lemma AnalyzeAudioForm(textId: int, blob: Blob, userId: Option<int>)
    requires MinAudioBytes <= blob.Size() <= MaxAudioBytes
    ensures var f := AnalyzeAudio(textId, Some(blob), userId).form;
      |f| == (if userId.Some? && userId.value != 0 then 6 else 5) &&
      f[0] == ("text_id", Text(IntToString(textId))) && f[1] == ("audio", File(blob, "recording.wav")) &&
      f[2] == ("language", Text("en")) && f[3] == ("sample_rate", Text("16000")) && f[4] == ("format", Text("wav")) &&
      (|f| == 6 ==> f[5] == ("user_id", Text(IntToString(userId.value))))
  {
  }

  /** The WAV the recorder builds from n interleaved samples is sent exactly
      when 4978 <= n <= 26214378, and never draws the type warning. */
  lemma RecordedWavIsSent(textId: int, pcm: PcmBuffer, userId: Option<int>)
    ensures var n := pcm.length * |pcm.channels|;
      var r := AnalyzeAudio(textId, Some(WavBlob(pcm)), userId);
      (r.Post? <==> 4978 <= n <= 26214378) && (r.Post? ==> !r.typeWarning)
  {
    InterleaveLength(pcm.channels, pcm.length);
  }

  // ---------------------------------------------------------------------
  // saveProblemWords

  /** The parsed JSON reply of /words/save: null, a value with no fields
      (a number, string or boolean), or an object whose fields of interest
      may be absent. A defined `success` is modelled as a boolean. */
  datatype SaveReply =
    | NullReply
    | Primitive(truthy: bool)
    | Object(success: Option<bool>, message: Option<string>, savedWords: Option<seq<string>>)

  /** How the request ended: apiFetch threw (network or HTTP error), or it
      returned a reply. */
  datatype SaveCall = Threw(error: string) | Returned(reply: SaveReply)

  /** What saveProblemWords resolves to. */
  datatype SaveResult =
    | ServerReply(reply: SaveReply)
    | Saved(message: string, savedWords: seq<string>)
    | NotSaved(message: string, error: string)
  {
    /** The `success` field of the returned object. */
    function Success(): bool {
      match this
      case ServerReply(r) => r.Object? && r.success.Some? && r.success.value
      case Saved(_, _) => true
      case NotSaved(_, _) => false
    }
  }

  const DefaultSavedMessage: string := "Слова сохранены успешно"
  const NotSavedMessage: string := "Не удалось сохранить слова"
  /** The message of the TypeError thrown by reading `.message` of null. */
  const NullPropertyError: string := "Cannot read properties of null (reading 'message')"

  /** saveProblemWords after the request. */
  function SaveProblemWords(words: seq<string>, call: SaveCall): SaveResult {
    match call
    case Threw(e) => NotSaved(NotSavedMessage, e)
    case Returned(reply) =>
      match reply
      case Object(Some(_), _, _) => ServerReply(reply)
      case NullReply => NotSaved(NotSavedMessage, NullPropertyError)
      case Primitive(_) => Saved(DefaultSavedMessage, words)
      case Object(None, message, savedWords) =>
        Saved(if message.None? || message.value == "" then DefaultSavedMessage else message.value,
              if savedWords.None? then words else savedWords.value)
  }

  /** The result always has a defined success field: the server's own when
      its reply has one, true when a reply without one came back, false when
      the request failed or the reply was null. */
  lemma SaveProblemWordsSuccess(words: seq<string>, call: SaveCall)
    ensures var r := SaveProblemWords(words, call);
      (r.ServerReply? <==> call.Returned? && call.reply.Object? && call.reply.success.Some?) &&
      (r.ServerReply? ==> r.reply == call.reply && r.Success() == call.reply.success.value) &&
      (r.Saved? <==> call.Returned? && !call.reply.NullReply? && !(call.reply.Object? && call.reply.success.Some?)) &&
      (r.NotSaved? <==> call.Threw? || call.reply.NullReply?) &&
      (r.NotSaved? ==> r.message == NotSavedMessage && !r.Success())
  {
  }

  /** Without a saved_words field in the reply the caller's words are
      reported as saved; a non-empty message from the server is kept. */
  lemma SaveProblemWordsDefaults(words: seq<string>, call: SaveCall)
    requires SaveProblemWords(words, call).Saved?
    ensures var r := SaveProblemWords(words, call);
      r.Success() &&
      (call.reply.Primitive? ==> r.savedWords == words && r.message == DefaultSavedMessage) &&
      (call.reply.Object? && call.reply.savedWords.None? ==> r.savedWords == words) &&
      (call.reply.Object? && call.reply.savedWords.Some? ==> r.savedWords == call.reply.savedWords.value) &&
      (call.reply.Object? && call.reply.message.Some? && call.reply.message.value != "" ==>
        r.message == call.reply.message.value)
  {
  }

  // ---------------------------------------------------------------------
  // Reads that fall back to a default

  /** The outcome of a GET through apiFetch. */
  datatype Fetched<T> = Fetched(value: T) | FetchFailed

  datatype WordStats = WordStats(total: int, practiced: int, mastered: int, today: int)
  datatype AdminStats = AdminStats(totalTexts: int, totalUsers: int, totalPractices: int)

  const ZeroWordStats: WordStats := WordStats(0, 0, 0, 0)
  const ZeroAdminStats: AdminStats := AdminStats(0, 0, 0)

  /** getMyWords: the reply, or [] when the request fails. */
  function GetMyWords<W>(r: Fetched<seq<W>>): (words: seq<W>)
    ensures r.FetchFailed? ==> words == []
    ensures r.Fetched? ==> words == r.value
  {
    if r.Fetched? then r.value else []
  }

  /** getWordStats: the reply, or all four counts zero. */
  function GetWordStats(r: Fetched<WordStats>): (stats: WordStats)
    ensures r.FetchFailed? ==> stats.total == 0 && stats.practiced == 0 && stats.mastered == 0 && stats.today == 0
    ensures r.Fetched? ==> stats == r.value
  {
    if r.Fetched? then r.value else ZeroWordStats
  }

  /** getAdminStats: the reply, or all three counts zero. */
  function GetAdminStats(r: Fetched<AdminStats>): (stats: AdminStats)
    ensures r.FetchFailed? ==> stats.totalTexts == 0 && stats.totalUsers == 0 && stats.totalPractices == 0
    ensures r.Fetched? ==> stats == r.value
  {
    if r.Fetched? then r.value else ZeroAdminStats
  }
}
