/**
 * The recency filter `_posted_within_days`: decides whether a posting's
 * "posted" text lies within the configured number of days before the clock
 * reading the spider took at start-up. Instants are integers counting
 * microseconds; `datetime.fromisoformat` is an abstract function passed in.
 */
module Recency {
  import opened Wrappers
  import opened Text

  /** What `datetime.fromisoformat` makes of a text: it raises (`Unparsed`),
      or gives a naive datetime, or an aware one (as an instant). */
  datatype IsoParse = Unparsed | Naive(local: int) | Aware(at: int)

  /** The filter's answer: keep, drop, or an exception escapes. */
  datatype Recency = Recent | Stale | Raises

  const Hour: int := 3_600_000_000
  const Day: int := 24 * Hour
  /** The spider's fixed time zone, UTC+8. */
  const ZoneOffset: int := 8 * Hour

  /** The text as the filter inspects it: `iso_or_text.strip().lower()`. */
  function Normalised(text: string): string {
    Lower(Strip(text))
  }

  /** `re.match(r"(\d{4}-\d{2}-\d{2})", s)` succeeds. */
  predicate HasDatePrefix(s: string) {
    && |s| >= 10
    && AllDigits(s[0..4]) && s[4] == '-'
    && AllDigits(s[5..7]) && s[7] == '-'
    && AllDigits(s[8..10])
  }

  predicate LeapYear(y: int) {
    y % 4 == 0 && (y % 100 != 0 || y % 400 == 0)
  }

  function DaysInMonth(y: int, m: int): int
    requires 1 <= m <= 12
  {
    if m == 2 then (if LeapYear(y) then 29 else 28)
    else if m in {4, 6, 9, 11} then 30
    else 31
  }

  /** The dates `strptime(..., "%Y-%m-%d")` accepts. */
  predicate ValidDate(y: int, m: int, d: int) {
    1 <= y && 1 <= m <= 12 && 1 <= d <= DaysInMonth(y, m)
  }

  /** Days in the months of year `y` before month `m`. */
  function DaysBeforeMonth(y: int, m: int): int
    requires 1 <= m <= 12
  {
    if m == 1 then 0 else DaysBeforeMonth(y, m - 1) + DaysInMonth(y, m - 1)
  }

  /** Days from 0001-01-01 to the given date in the proleptic Gregorian
      calendar (Python's `toordinal() - 1`). */
  function DayNumber(y: int, m: int, d: int): int
    requires ValidDate(y, m, d)
  {
    var p := y - 1;
    365 * p + p / 4 - p / 100 + p / 400 + DaysBeforeMonth(y, m) + d - 1
  }

  /** Midnight of the date in UTC+8, the instant of
      `strptime(date, "%Y-%m-%d").replace(tzinfo=self.tz)`. */
  function LocalMidnight(y: int, m: int, d: int): int
    requires ValidDate(y, m, d)
  {
    DayNumber(y, m, d) * Day - ZoneOffset
  }

  /** `(self.now - d) <= timedelta(days=self.within_days)`. */
  function Compare(now: int, at: int, withinDays: int): (r: Recency)
    ensures r == Recent <==> now - at <= withinDays * Day
    ensures r != Raises
  {
    if now - at <= withinDays * Day then Recent else Stale
  }

  /** The branch taken when the text starts with a date: `fromisoformat` on
      the text, falling back to the leading date at midnight UTC+8. */
  function DatedVerdict(s: string, withinDays: int, now: int, fromIso: string -> IsoParse): Recency
    requires HasDatePrefix(s)
  {
    match fromIso(Replace(s, 'Z', "+00:00"))
    case Aware(at) => Compare(now, at, withinDays)
    case Naive(_) => Raises
    case Unparsed =>
      var y, m, d := DigitsValue(s[0..4]), DigitsValue(s[5..7]), DigitsValue(s[8..10]);
      if ValidDate(y, m, d) then Compare(now, LocalMidnight(y, m, d), withinDays) else Raises
  }

  predicate DigitsBetween(s: string, i: int, e: int)
    requires 0 <= i <= e <= |s|
  {
    forall j :: i <= j < e ==> IsDigit(s[j])
  }

  predicate SpacesBetween(s: string, i: int, e: int)
    requires 0 <= i <= e <= |s|
  {
    forall j :: i <= j < e ==> s[j] in Whitespace
  }

  /** The end of the run of digits that starts at `i`. */
  function RunEnd(s: string, i: int): (e: int)
    requires 0 <= i <= |s|
    ensures i <= e <= |s| && DigitsBetween(s, i, e)
    ensures e < |s| ==> !IsDigit(s[e])
    decreases |s| - i
  {
    if i < |s| && IsDigit(s[i]) then RunEnd(s, i + 1) else i
  }

  /** The end of the run of whitespace that starts at `i`. */
  function SpaceEnd(s: string, i: int): (e: int)
    requires 0 <= i <= |s|
    ensures i <= e <= |s| && SpacesBetween(s, i, e)
    ensures e < |s| ==> s[e] !in Whitespace
    decreases |s| - i
  {
    if i < |s| && s[i] in Whitespace then SpaceEnd(s, i + 1) else i
  }

  /** `(\d+)\s*day` matches at `i`, with the digit run greedy and the
      whitespace run greedy. */
  predicate DayAt(s: string, i: int)
    requires 0 <= i <= |s|
  {
    i < RunEnd(s, i) && OccursAt(s, "day", SpaceEnd(s, RunEnd(s, i)))
  }

  /** `int(m.group(1))` for a group spanning `i` to `e`. */
  function Group(s: string, i: int, e: int): nat
    requires 0 <= i <= e <= |s| && DigitsBetween(s, i, e)
  {
    assert AllDigits(s[i..e]) by {
      forall j | 0 <= j < e - i ensures IsDigit(s[i..e][j]) { assert s[i..e][j] == s[i + j]; }
    }
    DigitsValue(s[i..e])
  }

  /** The number in `re.search(r"(\d+)\s*day", s)` when it matches, scanning
      from position `j`. */
  function DayCount(s: string, j: int): Option<nat>
    requires 0 <= j <= |s|
    decreases |s| - j
  {
    if j == |s| then None
    else if DayAt(s, j) then Some(Group(s, j, RunEnd(s, j)))
    else DayCount(s, j + 1)
  }

  /** The regular expression's own definition of a match of `(\d+)\s*day`
      at `i` whose group ends at `e`. */
  ghost predicate Matches(s: string, i: int, e: int) {
    && 0 <= i < e <= |s| && DigitsBetween(s, i, e)
    && exists k :: e <= k <= |s| && SpacesBetween(s, e, k) && OccursAt(s, "day", k)
  }

  /** A digit run can only stop where the maximal run stops or earlier. */
  lemma RunBound(s: string, i: int, e: int)
    requires 0 <= i <= e <= |s| && DigitsBetween(s, i, e)
    ensures e <= RunEnd(s, i)
    decreases e - i
  {
    if i < e { RunBound(s, i + 1, e); }
  }

  /** A whitespace run can only stop where the maximal run stops or earlier. */
  lemma SpaceBound(s: string, i: int, e: int)
    requires 0 <= i <= e <= |s| && SpacesBetween(s, i, e)
    ensures e <= SpaceEnd(s, i)
    decreases e - i
  {
    if i < e { SpaceBound(s, i + 1, e); }
  }

  /** The group of a match ends where its digit run ends, and "day" starts
      where the whitespace after it ends. */
  lemma MatchIsGreedy(s: string, i: int, e: int, k: int)
    requires 0 <= i < e <= k <= |s| && DigitsBetween(s, i, e)
    requires SpacesBetween(s, e, k) && OccursAt(s, "day", k)
    ensures e == RunEnd(s, i) && k == SpaceEnd(s, e)
  {
    RunBound(s, i, e);
    SpaceBound(s, e, k);
    DigitsAreNotSpace();
    assert s[k] == 'd';
  }

  lemma DigitsAreNotSpace()
    ensures forall c :: IsDigit(c) ==> c !in Whitespace
    ensures 'd' !in Whitespace
  {
  }

  /** A match at `i` has its group end where the digit run ends, and exists
      exactly when the scanner's test holds at `i`. */
  lemma MatchesAt(s: string, i: int, e: int)
    requires 0 <= i <= |s|
    ensures Matches(s, i, e) <==> DayAt(s, i) && e == RunEnd(s, i)
  {
    if Matches(s, i, e) {
      var k :| e <= k <= |s| && SpacesBetween(s, e, k) && OccursAt(s, "day", k);
      MatchIsGreedy(s, i, e, k);
    }
    if DayAt(s, i) && e == RunEnd(s, i) {
      var k := SpaceEnd(s, e);
      assert e <= k <= |s| && SpacesBetween(s, e, k) && OccursAt(s, "day", k);
    }
  }

  /** The leftmost position at or after `j` where `(\d+)\s*day` matches,
      or `|s|` when there is none. */
  ghost function FirstDay(s: string, j: int): (i: int)
    requires 0 <= j <= |s|
    ensures j <= i <= |s|
    ensures i < |s| ==> DayAt(s, i)
    ensures forall i' :: j <= i' < i ==> !DayAt(s, i')
    decreases |s| - j
  {
    if j == |s| || DayAt(s, j) then j else FirstDay(s, j + 1)
  }

  /** The scanner returns the group of the leftmost match at or after `j`,
      and nothing when there is none. */
  lemma {:induction false} DayCountScans(s: string, j: int)
    requires 0 <= j <= |s|
    ensures DayCount(s, j) ==
      if FirstDay(s, j) < |s| then Some(Group(s, FirstDay(s, j), RunEnd(s, FirstDay(s, j)))) else None
    decreases |s| - j
  {
    if j < |s| && !DayAt(s, j) {
      DayCountScans(s, j + 1);
    }
  }

  /** `DayCount` agrees with the regular expression: `Some(n)` is the value
      of the group of the leftmost match, `None` means no match. */
  lemma DayCountIsSearch(s: string)
    ensures DayCount(s, 0).Some? ==>
      exists i, e :: Matches(s, i, e) && DayCount(s, 0).value == Group(s, i, e)
        && forall i', e' :: Matches(s, i', e') ==> i <= i'
    ensures DayCount(s, 0).None? ==> forall i, e :: !Matches(s, i, e)
  {
    DayCountScans(s, 0);
    if DayCount(s, 0).Some? {
      var i := FirstDay(s, 0);
      MatchesAt(s, i, RunEnd(s, i));
      forall i', e' | Matches(s, i', e') ensures i <= i' {
        MatchesAt(s, i', e');
      }
    } else {
      forall i, e | Matches(s, i, e) ensures false {
        MatchesAt(s, i, e);
      }
    }
  }

  /**
   * `_posted_within_days(text)`: the leading-date branch first, then the
   * "N day(s)" and "yesterday" phrases; every other text, the "hour" and
   * "minute" phrases included, is kept.
   */
  function PostedWithinDays(text: string, withinDays: int, now: int, fromIso: string -> IsoParse): Recency {
    if text == "" then Recent
    else
      var s := Normalised(text);
      if HasDatePrefix(s) then DatedVerdict(s, withinDays, now, fromIso)
      else if Contains(s, "day") then
        match DayCount(s, 0)
        case Some(n) => if n <= withinDays then Recent else Stale
        case None =>
          if Contains(s, "yesterday") then (if withinDays >= 1 then Recent else Stale)
          else Recent
      else Recent
  }

  /** The filter fails open: an empty text, or one with no leading date, no
      "N day" phrase and no "yesterday", is kept. */
  lemma FailsOpen(text: string, withinDays: int, now: int, fromIso: string -> IsoParse)
    requires text == "" || (var s := Normalised(text);
      !HasDatePrefix(s) && DayCount(s, 0).None? && !Contains(s, "yesterday"))
    ensures PostedWithinDays(text, withinDays, now, fromIso) == Recent
  {
  }

  /** Only a text that starts with a date can make the filter raise, and a
      text is dropped only for a date, a day count or "yesterday". */
  lemma DropsOnlyOnEvidence(text: string, withinDays: int, now: int, fromIso: string -> IsoParse)
    ensures var r := PostedWithinDays(text, withinDays, now, fromIso);
      var s := Normalised(text);
      && (r == Raises ==> text != "" && HasDatePrefix(s))
      && (r == Stale ==> text != "" && (HasDatePrefix(s) || DayCount(s, 0).Some? || Contains(s, "yesterday")))
  {
  }

  lemma {:induction false} DayCountContainsDay(s: string, j: int)
    requires 0 <= j <= |s|
    requires DayCount(s, j).Some?
    ensures Contains(s, "day")
    decreases |s| - j
  {
    if !DayAt(s, j) {
      DayCountContainsDay(s, j + 1);
    }
  }

  /** "N day(s)" with no leading date is kept exactly when N <= within_days. */
  lemma DaysPhraseBound(text: string, withinDays: int, now: int, fromIso: string -> IsoParse, n: nat)
    requires text != ""
    requires !HasDatePrefix(Normalised(text)) && DayCount(Normalised(text), 0) == Some(n)
    ensures PostedWithinDays(text, withinDays, now, fromIso) == (if n <= withinDays then Recent else Stale)
  {
    DayCountContainsDay(Normalised(text), 0);
  }

  /** "yesterday" (with no leading date and no day count) is kept exactly
      when within_days >= 1. */
  lemma YesterdayBound(text: string, withinDays: int, now: int, fromIso: string -> IsoParse)
    requires text != ""
    requires var s := Normalised(text);
      !HasDatePrefix(s) && DayCount(s, 0).None? && Contains(s, "yesterday")
    ensures PostedWithinDays(text, withinDays, now, fromIso) == (if withinDays >= 1 then Recent else Stale)
  {
    YesterdayHasDay(Normalised(text));
  }

  lemma YesterdayHasDay(s: string)
    requires Contains(s, "yesterday")
    ensures Contains(s, "day")
  {
    var i :| 0 <= i <= |s| - 9 && OccursAt(s, "yesterday", i);
    assert s[i + 6..i + 9] == s[i..i + 9][6..9];
    assert OccursAt(s, "day", i + 6);
  }

  /** A text with a leading date that `fromisoformat` reads as an aware
      instant is kept exactly when it is at most within_days days old: the
      bound is inclusive. */
  lemma DateBound(text: string, withinDays: int, now: int, fromIso: string -> IsoParse, at: int)
    requires text != ""
    requires var s := Normalised(text);
      HasDatePrefix(s) && fromIso(Replace(s, 'Z', "+00:00")) == Aware(at)
    ensures PostedWithinDays(text, withinDays, now, fromIso) == Recent <==> now - at <= withinDays * Day
    ensures at == now - withinDays * Day ==> PostedWithinDays(text, withinDays, now, fromIso) == Recent
    ensures at == now - (withinDays + 1) * Day ==> PostedWithinDays(text, withinDays, now, fromIso) == Stale
  {
  }

  /** A date-only text such as "2025-10-10" is read by `fromisoformat` as a
      naive datetime; subtracting it from the aware clock reading raises. */
  lemma NaiveDateRaises(text: string, withinDays: int, now: int, fromIso: string -> IsoParse, local: int)
    requires text != ""
    requires var s := Normalised(text);
      HasDatePrefix(s) && fromIso(Replace(s, 'Z', "+00:00")) == Naive(local)
    ensures PostedWithinDays(text, withinDays, now, fromIso) == Raises
  {
  }

  /** The `replace("Z", "+00:00")` never changes the text, because the text
      was lower-cased before it. */
  lemma ZuluRewriteIsInert(text: string)
    ensures Replace(Normalised(text), 'Z', "+00:00") == Normalised(text)
  {
  }

  /** A leading date that `fromisoformat` rejects falls back to that date's
      midnight in UTC+8, or raises when it is no calendar date. */
  lemma FallbackDate(text: string, withinDays: int, now: int, fromIso: string -> IsoParse)
    requires text != ""
    requires var s := Normalised(text);
      HasDatePrefix(s) && fromIso(Replace(s, 'Z', "+00:00")) == Unparsed
    ensures var s := Normalised(text);
      var y, m, d := DigitsValue(s[0..4]), DigitsValue(s[5..7]), DigitsValue(s[8..10]);
      PostedWithinDays(text, withinDays, now, fromIso) ==
        if ValidDate(y, m, d) then (if now - LocalMidnight(y, m, d) <= withinDays * Day then Recent else Stale)
        else Raises
  {
  }
}
