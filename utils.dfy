/** The string helpers and validators of frontend/js/utils.js: formatTime,
    truncateText, formatNumber, isValidEmail, isValidPassword and
    isValidUsername. Each regular expression is modelled twice: as the set
    of strings it matches, stated with the positions the match needs, and
    as the function the client evaluates, proved to agree with it. */
module Utils {
  import opened Js

  // ---------------------------------------------------------------------
  // formatTime

  /** formatTime: "MM:SS" from a number of seconds; NaN and negative
      numbers show "00:00". */
  function FormatTime(seconds: Number): string {
    if seconds.NaN? || seconds.value < 0.0 then "00:00"
    else
      var mins := FloorNat(seconds.value / 60.0);
      var secs := FloorNat(Rem(seconds.value, 60.0));
      Pad2(mins) + ":" + Pad2(secs)
  }

  /** Reads "M...M:SS" back as a number of seconds: any number of minute
      digits, a colon, two digits of seconds. */
  function ReadClock(t: string): Option<nat> {
    if |t| < 5 || t[|t| - 3] != ':' then None
    else
      var m, sec := t[..|t| - 3], t[|t| - 2..];
      if !AllDigits(m) || !AllDigits(sec) then None
      else Some(ParseDigits(m) * 60 + ParseDigits(sec))
  }

  lemma FloorShift(x: real, k: int)
    ensures (x - k as real).Floor == x.Floor - k
  {
  }

  /** The two fields of formatTime for s >= 0: whole minutes, and the
      whole seconds within the minute. */
  lemma {:induction false} ClockFields(s: real)
    requires 0.0 <= s
    ensures var mins, secs := FloorNat(s / 60.0), FloorNat(Rem(s, 60.0));
      secs < 60 && secs == s.Floor % 60 && mins * 60 + secs == s.Floor
  {
    var mins := FloorNat(s / 60.0);
    var r := Rem(s, 60.0);
    assert r == s - 60.0 * mins as real;
    FloorShift(s, 60 * mins);
    assert r.Floor == s.Floor - 60 * mins;
    assert 0 <= s.Floor - 60 * mins < 60;
  }

  /** formatTime shows "00:00" for NaN or a negative number, and otherwise
      reads back as the whole seconds, with seconds below 60 and minutes of
      two digits or more. */
  lemma FormatTimeReadsBack(seconds: Number)
    ensures seconds.NaN? || seconds.value < 0.0 ==> FormatTime(seconds) == "00:00"
    ensures seconds.Num? && 0.0 <= seconds.value ==>
      ReadClock(FormatTime(seconds)) == Some(seconds.value.Floor) &&
      FormatTime(seconds)[|FormatTime(seconds)| - 3] == ':' &&
      ParseDigits(FormatTime(seconds)[|FormatTime(seconds)| - 2..]) < 60
  {
    if seconds.Num? && 0.0 <= seconds.value {
      var s := seconds.value;
      var mins, secs := FloorNat(s / 60.0), FloorNat(Rem(s, 60.0));
      ClockFields(s);
      ClockText(mins, secs);
      assert FormatTime(seconds) == Pad2(mins) + ":" + Pad2(secs);
    }
  }

  /** A clock text built from minutes and seconds reads back as their sum. */
  lemma ClockText(mins: nat, secs: nat)
    requires secs < 60
    ensures var t := Pad2(mins) + ":" + Pad2(secs);
      ReadClock(t) == Some(mins * 60 + secs) && t[|t| - 3] == ':' && ParseDigits(t[|t| - 2..]) == secs
  {
    SplitAtColon(Pad2(mins), Pad2(secs));
    Pad2RoundTrip(mins);
    Pad2RoundTrip(secs);
  }

  lemma SplitAtColon(a: string, b: string)
    requires |b| == 2
    ensures var t := a + ":" + b;
      t[|t| - 3] == ':' && t[..|t| - 3] == a && t[|t| - 2..] == b
  {
  }

  // ---------------------------------------------------------------------
  // truncateText

  /** truncateText's default maxLength. */
  const DefaultMaxLength: int := 100

  /** truncateText: the text itself when it fits, otherwise its first
      maxLength - 3 characters (none when that is negative: substring
      clamps) followed by "...". */
  function TruncateText(text: string, maxLength: int): (r: string)
    ensures |text| <= maxLength ==> r == text
    ensures |text| > maxLength ==>
      |r| == (if maxLength < 3 then 3 else maxLength) && r[|r| - 3..] == "..." && r[..|r| - 3] == text[..|r| - 3]
  {
    if |text| <= maxLength then text
    else text[..if maxLength - 3 < 0 then 0 else maxLength - 3] + "..."
  }

  /** Truncating twice is truncating once: a truncated text already fits,
      or (for maxLength below 3) is "..." again. */
  lemma TruncateIdempotent(text: string, maxLength: int)
    ensures TruncateText(TruncateText(text, maxLength), maxLength) == TruncateText(text, maxLength)
  {
    if |text| > maxLength && maxLength < 3 {
      assert TruncateText(text, maxLength) == "...";
    }
  }

  /** A result is never longer than the larger of maxLength and 3, and a
      text that is cut keeps a prefix of the original. */
  lemma TruncateBounded(text: string, maxLength: int)
    ensures |TruncateText(text, maxLength)| <= (if maxLength < 3 then 3 else maxLength) || TruncateText(text, maxLength) == text
    ensures TruncateText(text, maxLength) != text ==>
      var r := TruncateText(text, maxLength);
      |r| >= 3 && r[..|r| - 3] <= text
  {
  }

  // ---------------------------------------------------------------------
  // formatNumber: num.toString().replace(/\B(?=(\d{3})+(?!\d))/g, ',')

  /** A \w character at index i (outside the string there is none). */
  predicate IsWordAt(s: string, i: int) {
    0 <= i < |s| && IsWordChar(s[i])
  }

  /** \B at position p: both sides are word characters or neither is. */
  predicate NotBoundary(s: string, p: nat) {
    IsWordAt(s, p - 1) == IsWordAt(s, p)
  }

  /** k groups of three digits start at p and no digit follows them. */
  predicate GroupsEndAt(s: string, p: nat, k: nat) {
    1 <= k && p + 3 * k <= |s| && (forall i :: p <= i < p + 3 * k ==> IsDigit(s[i])) &&
    (p + 3 * k == |s| || !IsDigit(s[p + 3 * k]))
  }

  /** The lookahead (?=(\d{3})+(?!\d)) succeeds at p. */
  ghost predicate LookaheadAt(s: string, p: nat) {
    exists k: nat :: GroupsEndAt(s, p, k)
  }

  /** The pattern matches the empty string at p, so a comma goes there. */
  ghost predicate PatternAt(s: string, p: nat) {
    NotBoundary(s, p) && LookaheadAt(s, p)
  }

  /** The number of consecutive digits from p on. */
  function DigitRun(s: string, p: nat): (n: nat)
    requires p <= |s|
    ensures p + n <= |s|
    decreases |s| - p
  {
    if p == |s| || !IsDigit(s[p]) then 0 else 1 + DigitRun(s, p + 1)
  }

  /** The run is all digits and stops at the end or at a non-digit. */
  lemma {:induction false} DigitRunShape(s: string, p: nat)
    requires p <= |s|
    ensures var n := DigitRun(s, p);
      (forall i :: p <= i < p + n ==> IsDigit(s[i])) && (p + n == |s| || !IsDigit(s[p + n]))
    decreases |s| - p
  {
    if p < |s| && IsDigit(s[p]) {
      DigitRunShape(s, p + 1);
    }
  }

  /** A run of digits that ends at q has length q - p. */
  lemma {:induction false} DigitRunIs(s: string, p: nat, q: nat)
    requires p <= q <= |s|
    requires forall i :: p <= i < q ==> IsDigit(s[i])
    requires q == |s| || !IsDigit(s[q])
    ensures DigitRun(s, p) == q - p
    decreases q - p
  {
    if p < q {
      DigitRunIs(s, p + 1, q);
    }
  }

  /** Whether the client puts a comma before position p: the run of digits
      from p is a positive multiple of three long and p is not a word
      boundary. */
  predicate CommaBefore(s: string, p: nat)
    requires p <= |s|
  {
    NotBoundary(s, p) && DigitRun(s, p) >= 3 && DigitRun(s, p) % 3 == 0
  }

  /** The computed test is the regular expression's. */
  lemma CommaBeforeIsPattern(s: string, p: nat)
    requires p <= |s|
    ensures CommaBefore(s, p) <==> PatternAt(s, p)
  {
    var n := DigitRun(s, p);
    if LookaheadAt(s, p) {
      var k: nat :| GroupsEndAt(s, p, k);
      DigitRunIs(s, p, p + 3 * k);
    }
    if n >= 3 && n % 3 == 0 {
      DigitRunShape(s, p);
      assert GroupsEndAt(s, p, n / 3);
    }
  }

  /** What position p of the input becomes: an optional comma, then the
      character itself. */
  function Piece(s: string, p: nat): string
    requires p < |s|
  {
    (if CommaBefore(s, p) then "," else "") + [s[p]]
  }

  /** The output for the first n positions of the input. */
  function FormatPrefix(s: string, n: nat): string
    requires n <= |s|
  {
    if n == 0 then [] else FormatPrefix(s, n - 1) + Piece(s, n - 1)
  }

  /** formatNumber, given num.toString(). */
  function FormatNumber(numText: string): string {
    FormatPrefix(numText, |numText|)
  }

  /** The text with every comma deleted. */
  function StripCommas(s: string): string {
    if s == [] then [] else StripCommas(s[..|s| - 1]) + (if s[|s| - 1] == ',' then [] else [s[|s| - 1]])
  }

  lemma {:induction false} StripCommasAppend(a: string, b: string)
    ensures StripCommas(a + b) == StripCommas(a) + StripCommas(b)
    decreases |b|
  {
    if b != [] {
      var b' := b[..|b| - 1];
      assert (a + b)[..|a + b| - 1] == a + b';
      var last := if b[|b| - 1] == ',' then [] else [b[|b| - 1]];
      assert (a + b)[|a + b| - 1] == b[|b| - 1];
      StripCommasAppend(a, b');
      calc {
        StripCommas(a + b);
        StripCommas(a + b') + last;
        StripCommas(a) + StripCommas(b') + last;
        StripCommas(a) + (StripCommas(b') + last);
      }
    } else {
      assert a + b == a;
    }
  }

  /** Deleting the commas of the output gives the input without its own
      commas: formatNumber only inserts commas. */
  lemma {:induction false} FormatPrefixStrips(s: string, n: nat)
    requires n <= |s|
    ensures StripCommas(FormatPrefix(s, n)) == StripCommas(s[..n])
  {
    if n > 0 {
      FormatPrefixStrips(s, n - 1);
      FormatPrefixStripsStep(s, n);
    }
  }

  /** One more position keeps the stripped output equal to the stripped
      input. */
  lemma FormatPrefixStripsStep(s: string, n: nat)
    requires 0 < n <= |s|
    requires StripCommas(FormatPrefix(s, n - 1)) == StripCommas(s[..n - 1])
    ensures StripCommas(FormatPrefix(s, n)) == StripCommas(s[..n])
  {
    PieceStrips(s, n - 1);
    StripCommasAppend(FormatPrefix(s, n - 1), Piece(s, n - 1));
    StripCommasAppend(s[..n - 1], [s[n - 1]]);
    assert s[..n] == s[..n - 1] + [s[n - 1]];
  }

  /** A piece loses at most its comma. */
  lemma PieceStrips(s: string, p: nat)
    requires p < |s|
    ensures StripCommas(Piece(s, p)) == StripCommas([s[p]])
  {
    if CommaBefore(s, p) {
      StripCommasAppend(",", [s[p]]);
      assert StripCommas(",") == [];
    } else {
      assert Piece(s, p) == [s[p]];
    }
  }

  lemma FormatNumberStrips(numText: string)
    ensures StripCommas(FormatNumber(numText)) == StripCommas(numText)
  {
    FormatPrefixStrips(numText, |numText|);
    assert numText[..|numText|] == numText;
  }

  /** When the pieces of s from `offset` on are those of t, the output for
      s continues with the output for t. */
  lemma {:induction false} FormatPrefixShift(s: string, t: string, offset: nat, n: nat)
    requires offset + n <= |s| && n <= |t|
    requires forall q :: 0 <= q < n ==> Piece(s, offset + q) == Piece(t, q)
    ensures FormatPrefix(s, offset + n) == FormatPrefix(s, offset) + FormatPrefix(t, n)
  {
    if n > 0 {
      FormatPrefixShift(s, t, offset, n - 1);
      assert Piece(s, offset + n - 1) == Piece(t, n - 1);
    }
  }

  /** On a string of digits a comma goes before position p exactly when p
      is not the first position and a multiple of three digits follows. */
  lemma CommaOnDigits(s: string, p: nat)
    requires AllDigits(s) && p < |s|
    ensures CommaBefore(s, p) <==> 0 < p && (|s| - p) % 3 == 0
  {
    DigitRunIs(s, p, |s|);
  }

  /** Thousands separators by the usual rule, as an independent reference:
      the last three digits become their own group. */
  function GroupThousands(digits: string): string
    decreases |digits|
  {
    if |digits| <= 3 then digits
    else GroupThousands(digits[..|digits| - 3]) + "," + digits[|digits| - 3..]
  }

  /** On a string of digits formatNumber is the usual grouping by three
      from the right. */
  lemma {:induction false} FormatNumberDigits(s: string)
    requires AllDigits(s)
    ensures FormatNumber(s) == GroupThousands(s)
    decreases |s|
  {
    if |s| <= 3 {
      NoCommaPrefix(s, |s|);
      assert s[..|s|] == s;
    } else {
      var n := |s| - 3;
      var a, b := s[..n], s[n..];
      assert AllDigits(a) by {
        forall i | 0 <= i < |a| ensures IsDigit(a[i]) { assert a[i] == s[i]; }
      }
      calc {
        FormatNumber(s);
        FormatPrefix(s, |s|);
        { LastGroup(s); }
        FormatPrefix(s, n) + "," + b;
        { DropLastGroup(s); }
        FormatPrefix(a, |a|) + "," + b;
        { FormatNumberDigits(a); }
        GroupThousands(a) + "," + b;
        GroupThousands(s);
      }
    }
  }

  /** The output before the last group does not depend on that group. */
  lemma DropLastGroup(s: string)
    requires AllDigits(s) && |s| > 3
    ensures FormatPrefix(s, |s| - 3) == FormatPrefix(s[..|s| - 3], |s| - 3)
  {
    var n := |s| - 3;
    PiecesAgree(s, n);
    FormatPrefixShift(s, s[..n], 0, n);
    assert FormatPrefix(s, 0) == [];
  }

  /** Cutting the last three digits leaves every remaining position's
      piece as it was. */
  lemma PiecesAgree(s: string, n: nat)
    requires AllDigits(s) && n + 3 == |s|
    ensures forall q :: 0 <= q < n ==> Piece(s, 0 + q) == Piece(s[..n], q)
  {
    forall q | 0 <= q < n
      ensures Piece(s, 0 + q) == Piece(s[..n], q)
    {
      CommaOnDigits(s, q);
      CommaOnDigits(s[..n], q);
    }
  }

  /** The last three digits of more than three are preceded by a comma. */
  lemma LastGroup(s: string)
    requires AllDigits(s) && |s| > 3
    ensures FormatPrefix(s, |s|) == FormatPrefix(s, |s| - 3) + "," + s[|s| - 3..]
  {
    var n := |s| - 3;
    CommaOnDigits(s, n);
    CommaOnDigits(s, n + 1);
    CommaOnDigits(s, n + 2);
    calc {
      FormatPrefix(s, |s|);
      FormatPrefix(s, n + 2) + Piece(s, n + 2);
      FormatPrefix(s, n + 1) + Piece(s, n + 1) + Piece(s, n + 2);
      FormatPrefix(s, n) + Piece(s, n) + Piece(s, n + 1) + Piece(s, n + 2);
      FormatPrefix(s, n) + ("," + [s[n]]) + [s[n + 1]] + [s[n + 2]];
      { assert s[n..] == [s[n], s[n + 1], s[n + 2]]; }
      FormatPrefix(s, n) + "," + s[n..];
    }
  }

  /** Up to three digits get no comma. */
  lemma {:induction false} NoCommaPrefix(s: string, n: nat)
    requires AllDigits(s) && |s| <= 3 && n <= |s|
    ensures FormatPrefix(s, n) == s[..n]
  {
    if n > 0 {
      NoCommaPrefix(s, n - 1);
      CommaOnDigits(s, n - 1);
      assert s[..n] == s[..n - 1] + [s[n - 1]];
    }
  }

  /** The grouped digits give back the digits. */
  lemma {:induction false} GroupThousandsStrips(digits: string)
    requires AllDigits(digits)
    ensures StripCommas(GroupThousands(digits)) == digits
    decreases |digits|
  {
    if |digits| <= 3 {
      StripCommasNone(digits);
    } else {
      var a, b := digits[..|digits| - 3], digits[|digits| - 3..];
      var g := GroupThousands(a);
      calc {
        StripCommas(GroupThousands(digits));
        { assert GroupThousands(digits) == g + ("," + b); }
        StripCommas(g + ("," + b));
        { StripCommasAppend(g, "," + b); }
        StripCommas(g) + StripCommas("," + b);
        { GroupThousandsStrips(a); StripCommaThen(b); }
        a + b;
      }
      assert a + b == digits;
    }
  }

  /** The grouped digits do not start with a comma and have one comma per
      complete group of three after the first digit. */
  lemma {:induction false} GroupThousandsLength(digits: string)
    requires digits != []
    ensures GroupThousands(digits)[0] != ',' || digits[0] == ','
    ensures |GroupThousands(digits)| == |digits| + (|digits| - 1) / 3
    decreases |digits|
  {
    if |digits| > 3 {
      var a := digits[..|digits| - 3];
      GroupThousandsLength(a);
      assert a[0] == digits[0];
    }
  }

  /** A comma followed by digits loses just the comma. */
  lemma StripCommaThen(b: string)
    requires AllDigits(b)
    ensures StripCommas("," + b) == b
  {
    StripCommasAppend(",", b);
    assert StripCommas(",") == StripCommas([]) + [];
    StripCommasNone(b);
  }

  /** A string of digits has no comma to delete. */
  lemma {:induction false} StripCommasNone(s: string)
    requires AllDigits(s)
    ensures StripCommas(s) == s
  {
    if s != [] {
      StripCommasNone(s[..|s| - 1]);
    }
  }

  /** For a non-negative integer, formatNumber groups its decimal digits
      by three from the right. */
  lemma FormatNumberNat(n: nat)
    ensures FormatNumber(NatToString(n)) == GroupThousands(NatToString(n))
    ensures StripCommas(FormatNumber(NatToString(n))) == NatToString(n)
  {
    FormatNumberDigits(NatToString(n));
    GroupThousandsStrips(NatToString(n));
  }

  /** A block of digits with no word character before it and no digit
      after it is formatted as the digits alone would be. */
  lemma {:induction false} DigitBlock(s: string, offset: nat, t: string)
    requires AllDigits(t) && offset + |t| <= |s| && s[offset..offset + |t|] == t
    requires offset == 0 || !IsWordChar(s[offset - 1])
    requires offset + |t| == |s| || !IsDigit(s[offset + |t|])
    ensures FormatPrefix(s, offset + |t|) == FormatPrefix(s, offset) + FormatNumber(t)
  {
    assert forall i :: offset <= i < offset + |t| ==> s[i] == t[i - offset];
    forall q | 0 <= q < |t|
      ensures Piece(s, offset + q) == Piece(t, q)
    {
      DigitRunIs(s, offset + q, offset + |t|);
      DigitRunIs(t, q, |t|);
    }
    FormatPrefixShift(s, t, offset, |t|);
  }

  /** As written, the pattern also groups the digits after a decimal point,
      because "." is a word boundary before the fraction as it is before
      the integer part: "1234.5678" becomes "1,234.5,678". */
  lemma {:induction false} FormatNumberGroupsFraction(a: string, f: string)
    requires AllDigits(a) && AllDigits(f)
    ensures FormatNumber(a + "." + f) == GroupThousands(a) + "." + GroupThousands(f)
  {
    var s := a + "." + f;
    var n := |a|;
    assert s[0..n] == a && s[n] == '.' && s[n + 1..n + 1 + |f|] == f && |s| == n + 1 + |f|;
    calc {
      FormatNumber(s);
      FormatPrefix(s, n + 1 + |f|);
      { DigitBlock(s, n + 1, f); }
      FormatPrefix(s, n + 1) + FormatNumber(f);
      { assert DigitRun(s, n) == 0; assert Piece(s, n) == "."; }
      FormatPrefix(s, n) + "." + FormatNumber(f);
      { DigitBlock(s, 0, a); }
      FormatNumber(a) + "." + FormatNumber(f);
      { FormatNumberDigits(a); FormatNumberDigits(f); }
      GroupThousands(a) + "." + GroupThousands(f);
    }
  }

  /** The concrete case: the fraction "5678" is split. */
  lemma FormatNumberDecimalExample()
    ensures FormatNumber("1234.5678") == "1,234.5,678"
  {
    FormatNumberGroupsFraction("1234", "5678");
    assert "1234" + "." + "5678" == "1234.5678";
    assert GroupThousands("1234") == "1,234" && GroupThousands("5678") == "5,678";
  }

  /** Grouping as evidently intended: only the digits before the first
      decimal point are grouped; the fraction is kept as it is. */
  function FormatNumberIntegerPart(numText: string): string {
    if '.' in numText then
      var i := IndexOf(numText, '.');
      FormatNumber(numText[..i]) + numText[i..]
    else FormatNumber(numText)
  }

  /** The first index of c in s. */
  function IndexOf(s: string, c: char): (i: nat)
    requires c in s
    ensures i < |s| && s[i] == c && c !in s[..i]
    ensures forall k :: 0 <= k < i ==> s[k] != c
  {
    if s[0] == c then 0 else 1 + IndexOf(s[1..], c)
  }

  /** The corrected grouping keeps the fraction and groups the integer
      digits by three from the right. */
  lemma FormatNumberIntegerPartKeepsFraction(a: string, f: string)
    requires AllDigits(a) && AllDigits(f)
    ensures FormatNumberIntegerPart(a + "." + f) == GroupThousands(a) + "." + f
  {
    var s := a + "." + f;
    assert s[|a|] == '.';
    assert '.' !in a;
    var i := IndexOf(s, '.');
    assert s[..|a|] == a;
    assert i == |a|;
    assert s[i..] == "." + f;
    FormatNumberDigits(a);
  }

  // ---------------------------------------------------------------------
  // isValidEmail: /^[^\s@]+@[^\s@]+\.[^\s@]+$/

  /** Every character is in [^\s@]. */
  predicate NoSpaceOrAt(s: string) {
    forall i :: 0 <= i < |s| ==> !IsWhitespace(s[i]) && s[i] != '@'
  }

  /** The pattern matches with its "@" at `at` and its "." at `dot`. */
  predicate EmailSplit(s: string, at: nat, dot: nat) {
    0 < at && at + 1 < dot && dot + 1 < |s| && s[at] == '@' && s[dot] == '.' &&
    NoSpaceOrAt(s[..at]) && NoSpaceOrAt(s[at + 1..dot]) && NoSpaceOrAt(s[dot + 1..])
  }

  /** The strings the regular expression matches. */
  ghost predicate EmailPattern(s: string) {
    exists at, dot :: EmailSplit(s, at, dot)
  }

  predicate NoWhitespace(s: string) {
    forall i :: 0 <= i < |s| ==> !IsWhitespace(s[i])
  }

  /** isValidEmail, decided directly: no whitespace, one "@" with
      something before it, and a "." in the domain that is neither its
      first nor its last character. */
  function IsValidEmail(email: string): bool {
    NoWhitespace(email) && '@' in email &&
    var at := IndexOf(email, '@');
    0 < at && at + 2 < |email| && '@' !in email[at + 1..] && '.' in email[at + 2..|email| - 1]
  }

  /** isValidEmail accepts exactly the strings the pattern matches. */
  lemma IsValidEmailMatchesPattern(email: string)
    ensures IsValidEmail(email) <==> EmailPattern(email)
  {
    if IsValidEmail(email) {
      var at := IndexOf(email, '@');
      var mid := email[at + 2..|email| - 1];
      var k :| 0 <= k < |mid| && mid[k] == '.';
      var dot := at + 2 + k;
      assert email[dot] == '.';
      forall i | 0 <= i < at ensures email[i] != '@' {
        assert email[..at][i] == email[i];
      }
      forall i | at + 1 <= i < |email| ensures email[i] != '@' {
        assert email[at + 1..][i - at - 1] == email[i];
      }
      assert EmailSplit(email, at, dot);
    }
    if EmailPattern(email) {
      var at: nat, dot: nat :| EmailSplit(email, at, dot);
      forall i | 0 <= i < |email|
        ensures !IsWhitespace(email[i]) && (i != at ==> email[i] != '@')
      {
        if i < at {
          assert email[..at][i] == email[i];
        } else if at < i < dot {
          assert email[at + 1..dot][i - at - 1] == email[i];
        } else if dot < i {
          assert email[dot + 1..][i - dot - 1] == email[i];
        }
      }
      assert email[..at] == email[..at];
      assert IndexOf(email, '@') == at;
      assert email[at + 1..][dot - at - 1] == '.';
      var tail := email[at + 1..];
      assert '@' !in tail by {
        forall i | 0 <= i < |tail| ensures tail[i] != '@' {
          assert tail[i] == email[at + 1 + i];
        }
      }
      assert email[at + 2..|email| - 1][dot - at - 2] == '.';
    }
  }

  // ---------------------------------------------------------------------
  // isValidPassword and isValidUsername

  /** isValidPassword: `password && password.length >= 6`, as the truth
      value the callers test; null and undefined are None. */
  function IsValidPassword(password: Option<string>): (ok: bool)
    ensures ok <==> password.Some? && |password.value| >= 6
  {
    password.Some? && password.value != "" && |password.value| >= 6
  }

  /** An anchored [A-Za-z0-9_]{min,max}: one class character at a time,
      with the bounds counted down. */
  function MatchWordChars(s: string, min: nat, max: nat): bool {
    if s == [] then min == 0
    else max > 0 && IsWordChar(s[0]) && MatchWordChars(s[1..], if min > 0 then min - 1 else 0, max - 1)
  }

  /** isValidUsername: /^[a-zA-Z0-9_]{3,20}$/. */
  function IsValidUsername(username: string): bool {
    MatchWordChars(username, 3, 20)
  }

  /** The bounded repetition matches exactly the strings of class
      characters whose length is within the bounds. */
  lemma {:induction false} MatchWordCharsIff(s: string, min: nat, max: nat)
    ensures MatchWordChars(s, min, max) <==>
      min <= |s| <= max && forall i :: 0 <= i < |s| ==> IsWordChar(s[i])
  {
    if s != [] {
      MatchWordCharsIff(s[1..], if min > 0 then min - 1 else 0, if max > 0 then max - 1 else 0);
      assert forall i :: 1 <= i < |s| ==> s[i] == s[1..][i - 1];
    }
  }

  /** A username is valid exactly when it has 3 to 20 characters, all
      letters, digits or underscores. */
  lemma IsValidUsernameIff(username: string)
    ensures IsValidUsername(username) <==>
      3 <= |username| <= 20 && forall i :: 0 <= i < |username| ==> IsWordChar(username[i])
  {
    MatchWordCharsIff(username, 3, 20);
  }
}
