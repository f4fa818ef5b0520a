/** The three regular expressions of the schema registry (DATE_ISO, URL_FORMAT and
    CONTEXT), each given twice: as the language the pattern denotes under
    `re.search`, written as a predicate that follows the pattern's structure, and as
    a hand-written recogniser that scans the string. A lemma per pattern proves the
    two agree on every string. */
module Patterns {
  import opened Wrappers

  predicate IsDigit(c: char)
  {
    '0' <= c <= '9'
  }

  predicate AllDigits(w: string)
  {
    forall i :: 0 <= i < |w| ==> IsDigit(w[i])
  }

  // ----------------------------------------------------------------------------
  // DATE_ISO
  // ----------------------------------------------------------------------------

  /** `(1[0-2]|0[1-9])` */
  predicate IsMonth(w: string)
  {
    && |w| == 2
    && ((w[0] == '1' && '0' <= w[1] <= '2') || (w[0] == '0' && '1' <= w[1] <= '9'))
  }

  /** `(3[01]|0[1-9]|[12][0-9])`: no day-of-month check beyond 01 to 31 */
  predicate IsDay(w: string)
  {
    && |w| == 2
    && (|| (w[0] == '3' && (w[1] == '0' || w[1] == '1'))
        || (w[0] == '0' && '1' <= w[1] <= '9')
        || ((w[0] == '1' || w[0] == '2') && IsDigit(w[1])))
  }

  /** `(?:[1-9][0-9]*)?[0-9]{4}`: exactly four digits, or more than four digits
      not starting with `0` */
  predicate IsYear(w: string)
  {
    AllDigits(w) && (|w| == 4 || (|w| > 4 && w[0] != '0'))
  }

  /** The date part of DATE_ISO, `-?<year>-<month>-<day>`: an optionally signed year
      followed by the fixed-width tail `-MM-DD`. */
  predicate IsDateWord(w: string)
  {
    && |w| >= 6
    && var year := w[..|w| - 6];
    && (IsYear(year) || (|year| > 0 && year[0] == '-' && IsYear(year[1..])))
    && w[|w| - 6] == '-' && IsMonth(w[|w| - 5..|w| - 3])
    && w[|w| - 3] == '-' && IsDay(w[|w| - 2..])
  }

  /** The strings `re.search(DATE_ISO, s)` finds a match in. The pattern is anchored
      at the start by `^`; its time group, which holds the pattern's only `$`, is
      starred and so may match zero times. A date word on some prefix is therefore
      enough, and whatever follows it is never looked at. */
  ghost predicate DateIsoLanguage(s: string)
  {
    exists n :: 0 <= n <= |s| && IsDateWord(s[..n])
  }

  /** The number of consecutive digits of `s` from index `i` on. */
  function DigitRun(s: string, i: nat): (n: nat)
    requires i <= |s|
    ensures i + n <= |s|
    ensures forall j :: i <= j < i + n ==> IsDigit(s[j])
    ensures i + n == |s| || !IsDigit(s[i + n])
    decreases |s| - i
  {
    if i < |s| && IsDigit(s[i]) then 1 + DigitRun(s, i + 1) else 0
  }

  /** Recogniser for DATE_ISO: skip an optional sign, take the whole run of year
      digits, then expect `-MM-DD`. */
  function MatchesDateIso(s: string): (r: bool)
    ensures r ==> |s| >= 10
  {
    var start := if |s| > 0 && s[0] == '-' then 1 else 0;
    var n := DigitRun(s, start);
    var dash := start + n;
    && (n == 4 || (n > 4 && s[start] != '0'))
    && dash + 6 <= |s|
    && s[dash] == '-' && IsMonth(s[dash + 1..dash + 3])
    && s[dash + 3] == '-' && IsDay(s[dash + 4..dash + 6])
  }

  /** A run of digits that stops at a non-digit is the whole run DigitRun measures. */
  lemma {:induction false} DigitRunIs(s: string, i: nat, k: nat)
    requires i + k < |s|
    requires forall j :: i <= j < i + k ==> IsDigit(s[j])
    requires !IsDigit(s[i + k])
    ensures DigitRun(s, i) == k
    decreases k
  {
    if k > 0 {
      DigitRunIs(s, i + 1, k - 1);
    }
  }

  /** The recogniser accepts only strings with a date word on a prefix. */
  lemma DateIsoSound(s: string)
    requires MatchesDateIso(s)
    ensures DateIsoLanguage(s)
  {
    var start := if |s| > 0 && s[0] == '-' then 1 else 0;
    var dash := start + DigitRun(s, start);
    var w := s[..dash + 6];
    var year := w[..|w| - 6];
    var digits := s[start..dash];
    assert AllDigits(digits) by {
      forall j | 0 <= j < |digits|
        ensures IsDigit(digits[j])
      {
        assert digits[j] == s[start + j];
      }
    }
    assert IsYear(digits);
    assert year == s[..dash];
    if start == 1 {
      assert year[0] == '-' && year[1..] == digits;
    } else {
      assert year == digits;
    }
    assert w[|w| - 6] == '-' && w[|w| - 3] == '-';
    assert IsMonth(w[|w| - 5..|w| - 3]) by {
      var month, wm := s[dash + 1..dash + 3], w[|w| - 5..|w| - 3];
      assert IsMonth(month);
      assert wm[0] == w[dash + 1] == s[dash + 1] == month[0];
      assert wm[1] == w[dash + 2] == s[dash + 2] == month[1];
    }
    assert IsDay(w[|w| - 2..]) by {
      var day, wd := s[dash + 4..dash + 6], w[|w| - 2..];
      assert IsDay(day);
      assert wd[0] == w[dash + 4] == s[dash + 4] == day[0];
      assert wd[1] == w[dash + 5] == s[dash + 5] == day[1];
    }
    assert IsDateWord(w);
  }

  /** A date word on the prefix `s[..m]` is found by the recogniser. */
  lemma DateIsoComplete(s: string, m: nat)
    requires m <= |s| && IsDateWord(s[..m])
    ensures MatchesDateIso(s)
  {
    var w := s[..m];
    var year := w[..m - 6];
    var start := if IsYear(year) then 0 else 1;
    var digits := year[start..];
    assert IsYear(digits);
    assert start == (if |s| > 0 && s[0] == '-' then 1 else 0) by {
      assert s[0] == year[0];
      assert start == 0 ==> IsDigit(digits[0]);
    }
    forall j | start <= j < m - 6
      ensures IsDigit(s[j])
    {
      assert s[j] == digits[j - start];
    }
    DigitRunIs(s, start, m - 6 - start);
    assert s[start] == digits[0];
    assert s[m - 6] == w[m - 6] && s[m - 3] == w[m - 3];
    var month, day := s[m - 5..m - 3], s[m - 2..m];
    assert IsMonth(month) by {
      var wm := w[m - 5..m - 3];
      assert IsMonth(wm);
      assert month[0] == s[m - 5] == w[m - 5] == wm[0];
      assert month[1] == s[m - 4] == w[m - 4] == wm[1];
    }
    assert IsDay(day) by {
      var wd := w[m - 2..];
      assert IsDay(wd);
      assert day[0] == s[m - 2] == w[m - 2] == wd[0];
      assert day[1] == s[m - 1] == w[m - 1] == wd[1];
    }
  }

  lemma DateIsoCorrect(s: string)
    ensures MatchesDateIso(s) <==> DateIsoLanguage(s)
  {
    if MatchesDateIso(s) {
      DateIsoSound(s);
    }
    if DateIsoLanguage(s) {
      var m :| 0 <= m <= |s| && IsDateWord(s[..m]);
      DateIsoComplete(s, m);
    }
  }

  // ----------------------------------------------------------------------------
  // URL_FORMAT
  // ----------------------------------------------------------------------------

  /** `http`, then `k` letters `s`, then `://`: the words of `http(s)*://` */
  function UrlPrefix(k: nat): (w: string)
    ensures |w| == k + 7
  {
    "http" + seq(k, _ => 's') + "://"
  }

  /** The strings `re.search(URL_FORMAT, s)` finds a match in: `^` anchors the
      pattern at the start and nothing anchors its end. */
  ghost predicate UrlFormatLanguage(s: string)
  {
    exists k: nat :: UrlPrefix(k) <= s
  }

  /** The first index from `i` on that does not hold the letter `s`. */
  function SkipEsses(s: string, i: nat): (j: nat)
    requires i <= |s|
    ensures i <= j <= |s|
    ensures forall m :: i <= m < j ==> s[m] == 's'
    ensures j == |s| || s[j] != 's'
    decreases |s| - i
  {
    if i < |s| && s[i] == 's' then SkipEsses(s, i + 1) else i
  }

  /** A run of `s` letters that stops at another character is the one SkipEsses skips. */
  lemma {:induction false} SkipEssesIs(s: string, i: nat, k: nat)
    requires i + k < |s|
    requires forall m :: i <= m < i + k ==> s[m] == 's'
    requires s[i + k] != 's'
    ensures SkipEsses(s, i) == i + k
    decreases k
  {
    if k > 0 {
      SkipEssesIs(s, i + 1, k - 1);
    }
  }

  /** Recogniser for URL_FORMAT. */
  function MatchesUrlFormat(s: string): (r: bool)
    ensures r ==> |s| >= 7
  {
    && |s| >= 4 && s[..4] == "http"
    && var j := SkipEsses(s, 4);
    && j + 3 <= |s| && s[j..j + 3] == "://"
  }

  /** The recogniser accepts only strings that start with a word of `http(s)*://`. */
  lemma UrlFormatSound(s: string)
    requires MatchesUrlFormat(s)
    ensures UrlFormatLanguage(s)
  {
    var j := SkipEsses(s, 4);
    var k := j - 4;
    assert s[..4] == "http";
    assert s[4..j] == seq(k, _ => 's');
    assert s[j..j + 3] == "://";
    assert s[..j + 3] == s[..4] + s[4..j] + s[j..j + 3];
    assert UrlPrefix(k) <= s;
  }

  /** A string that starts with a word of `http(s)*://` is accepted. */
  lemma UrlFormatComplete(s: string, k: nat)
    requires UrlPrefix(k) <= s
    ensures MatchesUrlFormat(s)
  {
    var p := UrlPrefix(k);
    assert s[..4] == p[..4];
    forall m | 4 <= m < 4 + k
      ensures s[m] == 's'
    {
      assert s[m] == p[m];
    }
    assert s[4 + k] == p[4 + k] == ':';
    SkipEssesIs(s, 4, k);
    var j := SkipEsses(s, 4);
    assert s[j..j + 3] == p[4 + k..];
  }

  lemma UrlFormatCorrect(s: string)
    ensures MatchesUrlFormat(s) <==> UrlFormatLanguage(s)
  {
    if MatchesUrlFormat(s) {
      UrlFormatSound(s);
    }
    if UrlFormatLanguage(s) {
      var k: nat :| UrlPrefix(k) <= s;
      UrlFormatComplete(s, k);
    }
  }

  // ----------------------------------------------------------------------------
  // CONTEXT
  // ----------------------------------------------------------------------------

  /** The words of `https://schema.org`: its `.` is not escaped, so it stands for any
      character but a newline. The trailing `(/)*` may match nothing and adds no
      condition. */
  predicate IsContextWord(w: string)
  {
    |w| == 18 && w[..14] == "https://schema" && w[14] != '\n' && w[15..] == "org"
  }

  /** A context word starts at index `i` of `s`. */
  predicate ContextAt(s: string, i: nat)
  {
    i + 18 <= |s| && IsContextWord(s[i..i + 18])
  }

  /** The strings `re.search(CONTEXT, s)` finds a match in: the pattern has neither
      `^` nor `$`, so a context word anywhere in `s` is enough. */
  ghost predicate ContextLanguage(s: string)
  {
    exists i: nat :: ContextAt(s, i)
  }

  /** The leftmost position, from `from` on, where a context word starts. */
  function FindContext(s: string, from: nat): (r: Option<nat>)
    requires from <= |s|
    ensures r.Some? ==> from <= r.value && ContextAt(s, r.value)
    ensures forall i: nat :: from <= i && (r.None? || i < r.value) ==> !ContextAt(s, i)
    decreases |s| - from
  {
    if from + 18 > |s| then None
    else if ContextAt(s, from) then Some(from)
    else FindContext(s, from + 1)
  }

  /** Recogniser for CONTEXT. */
  function MatchesContext(s: string): (r: bool)
    ensures r ==> |s| >= 18
  {
    FindContext(s, 0).Some?
  }

  lemma ContextCorrect(s: string)
    ensures MatchesContext(s) <==> ContextLanguage(s)
  {
    var r := FindContext(s, 0);
    if r.Some? {
      assert ContextAt(s, r.value);
    }
  }

  // ----------------------------------------------------------------------------
  // Sample strings
  // ----------------------------------------------------------------------------

  /** Whatever follows a date word is accepted with it: the time group, the only
      part of the pattern that could constrain it, is optional. */
  lemma DateIsoIgnoresSuffix(date: string, rest: string)
    requires IsDateWord(date)
    ensures MatchesDateIso(date + rest)
  {
    assert (date + rest)[..|date|] == date;
    DateIsoComplete(date + rest, |date|);
  }

  lemma DateIsoAcceptsDate()
    ensures MatchesDateIso("2023-05-10")
  {
    DigitRunIs("2023-05-10", 0, 4);
  }

  lemma DateIsoAcceptsUtcTime()
    ensures MatchesDateIso("2023-05-10T12:30:00Z")
  {
    var s := "2023-05-10T12:30:00Z";
    assert s[..10] == "2023-05-10";
    DateIsoComplete(s, 10);
  }

  lemma DateIsoAcceptsOffsetTime()
    ensures MatchesDateIso("2023-05-10T12:30:00+02:00")
  {
    var s := "2023-05-10T12:30:00+02:00";
    assert s[..10] == "2023-05-10";
    DateIsoComplete(s, 10);
  }

  lemma DateIsoRejectsMonth13()
    ensures !MatchesDateIso("2023-13-01")
  {
    DigitRunIs("2023-13-01", 0, 4);
  }

  lemma DateIsoRejectsSlashes()
    ensures !MatchesDateIso("05/10/2023")
  {
    DigitRunIs("05/10/2023", 0, 2);
  }

  /** Every `https://` address is accepted, whatever follows the scheme. */
  lemma UrlFormatAcceptsHttps(rest: string)
    ensures MatchesUrlFormat("https://" + rest)
  {
    var s := "https://" + rest;
    assert s[..8] == UrlPrefix(1);
    UrlFormatComplete(s, 1);
  }

  /** The scheme separator `://` starts at index `i` of `s`. */
  predicate SeparatorAt(s: string, i: int)
  {
    0 <= i && i + 3 <= |s| && s[i..i + 3] == "://"
  }

  /** An accepted string holds the separator right after its run of `s` letters. */
  lemma UrlFormatSeparator(s: string)
    ensures MatchesUrlFormat(s) ==> SeparatorAt(s, SkipEsses(s, 4))
  {
  }

  /** No `ftp://` address is accepted, and neither is any string, such as a bare
      host name, that holds no `://`. */
  lemma UrlFormatRejectsOtherSchemes(rest: string, host: string)
    requires forall i :: !SeparatorAt(host, i)
    ensures !MatchesUrlFormat("ftp://" + rest)
    ensures !MatchesUrlFormat(host)
  {
    assert ("ftp://" + rest)[..4][0] != "http"[0];
    UrlFormatSeparator(host);
  }

  lemma ContextExamples()
    ensures MatchesContext("https://schema.org")
    ensures !MatchesContext("http://schema.org")
  {
  }

  /** The context word may sit anywhere, with any text around it, and its `.` may
      be any character other than a newline. */
  lemma ContextUnanchored(pre: string, c: char, post: string)
    requires c != '\n'
    ensures MatchesContext(pre + "https://schema" + [c] + "org" + post)
  {
    var s := pre + "https://schema" + [c] + "org" + post;
    assert s[|pre|..|pre| + 18] == "https://schema" + [c] + "org";
    assert ContextAt(s, |pre|);
    ContextCorrect(s);
  }
}
