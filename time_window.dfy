/**
 * The time window of the JetStream store: its `duration` computed value,
 * which turns a time-range label ("Live", "Last 15 minutes", ...) into a
 * number of milliseconds, and the `startTime` derived from it.
 *
 * Labels other than "Live" are read with the JavaScript regular expression
 * `/\w+\s+(\d+)\s+(\w+)/` through `exec`, which is neither anchored at the
 * start nor at the end: it returns the leftmost match, and its greedy
 * quantifiers fix what the two groups capture. `Exec` below computes that
 * match by scanning, and `ExecIsLeftmostGreedy` proves it against the
 * declarative reading of the pattern, `Shape`.
 */
module TimeWindow {
  import opened Wrappers

  // ---------------------------------------------------------------------
  // Character classes of the pattern
  // ---------------------------------------------------------------------

  /** `\w`: ASCII letters, ASCII digits and the underscore. */
  predicate IsWordChar(c: char) {
    ('a' <= c <= 'z') || ('A' <= c <= 'Z') || ('0' <= c <= '9') || c == '_'
  }

  /** `\d`: ASCII digits. */
  predicate IsDigit(c: char) {
    '0' <= c <= '9'
  }

  /** `\s`: the white-space and line-terminator characters of ECMAScript. */
  predicate IsSpace(c: char) {
    c == '\t' || c == '\n' || c == '\U{B}' || c == '\U{C}' || c == '\r' || c == ' '
    || c == '\U{A0}' || c == '\U{1680}' || ('\U{2000}' <= c <= '\U{200A}')
    || c == '\U{2028}' || c == '\U{2029}' || c == '\U{202F}' || c == '\U{205F}'
    || c == '\U{3000}' || c == '\U{FEFF}'
  }

  datatype CharClass = Word | Space | Digit

  predicate InClass(c: char, k: CharClass) {
    match k
    case Word => IsWordChar(c)
    case Space => IsSpace(c)
    case Digit => IsDigit(c)
  }

  /** Every character of s[lo..hi] belongs to class `k`. */
  ghost predicate AllIn(s: string, lo: nat, hi: nat, k: CharClass)
    requires lo <= hi <= |s|
  {
    forall m :: lo <= m < hi ==> InClass(s[m], k)
  }

  // ---------------------------------------------------------------------
  // The pattern, declaratively
  // ---------------------------------------------------------------------

  /**
   * `\w+\s+(\d+)\s+(\w+)` matches s[i..f], split into s[i..a] (`\w+`),
   * s[a..b] (`\s+`), s[b..c] (group 1), s[c..e] (`\s+`) and s[e..f]
   * (group 2).
   */
  ghost predicate Shape(s: string, i: nat, a: nat, b: nat, c: nat, e: nat, f: nat) {
    && i < a < b < c < e < f <= |s|
    && AllIn(s, i, a, Word)
    && AllIn(s, a, b, Space)
    && AllIn(s, b, c, Digit)
    && AllIn(s, c, e, Space)
    && AllIn(s, e, f, Word)
  }

  /** Some split of the pattern fits at position `j`. */
  ghost predicate MatchesAt(s: string, j: nat) {
    exists a: nat, b: nat, c: nat, e: nat, f: nat :: Shape(s, j, a, b, c, e, f)
  }

  /** What `exec` returns on success: where the match starts, and the two groups. */
  datatype RegexMatch = RegexMatch(index: nat, number: string, unit: string)

  /**
   * `m` is the match a backtracking matcher reports when it starts at
   * `m.index`: some split of the pattern fits there, the groups are the
   * pieces of that split, and greedy `(\w+)` took every word character it
   * could.
   */
  ghost predicate IsGreedyCapture(s: string, m: RegexMatch) {
    exists a: nat, b: nat, c: nat, e: nat, f: nat :: Shape(s, m.index, a, b, c, e, f)
      && m.number == s[b..c] && m.unit == s[e..f]
      && (f == |s| || !IsWordChar(s[f]))
  }

  // ---------------------------------------------------------------------
  // The pattern, by scanning
  // ---------------------------------------------------------------------

  /** The end of the longest run of class `k` that starts at `i`. */
  function RunEnd(s: string, i: nat, k: CharClass): (r: nat)
    requires i <= |s|
    ensures i <= r <= |s|
    ensures forall m :: i <= m < r ==> InClass(s[m], k)
    ensures r == |s| || !InClass(s[r], k)
    decreases |s| - i
  {
    if i < |s| && InClass(s[i], k) then RunEnd(s, i + 1, k) else i
  }

  datatype Bounds = Bounds(a: nat, b: nat, c: nat, e: nat, f: nat)

  /** Each quantifier of the pattern takes its longest run, starting at `i`. */
  function ScanAt(s: string, i: nat): (r: Option<Bounds>)
    requires i <= |s|
    ensures r.Some? ==> Shape(s, i, r.value.a, r.value.b, r.value.c, r.value.e, r.value.f)
    ensures r.Some? ==> r.value.f == |s| || !IsWordChar(s[r.value.f])
  {
    var a := RunEnd(s, i, Word);
    if a == i then None else
    var b := RunEnd(s, a, Space);
    if b == a then None else
    var c := RunEnd(s, b, Digit);
    if c == b then None else
    var e := RunEnd(s, c, Space);
    if e == c then None else
    var f := RunEnd(s, e, Word);
    if f == e then None else Some(Bounds(a, b, c, e, f))
  }

  /** `exec` from position `i` on: the first position where the scan succeeds. */
  function ExecFrom(s: string, i: nat): (r: Option<RegexMatch>)
    requires i <= |s|
    ensures r.Some? ==> i <= r.value.index < |s|
    ensures r.Some? ==> |r.value.number| > 0 && forall k :: 0 <= k < |r.value.number| ==> IsDigit(r.value.number[k])
    ensures r.Some? ==> |r.value.unit| > 0 && forall k :: 0 <= k < |r.value.unit| ==> IsWordChar(r.value.unit[k])
    decreases |s| - i
  {
    if i == |s| then None
    else match ScanAt(s, i)
      case Some(t) => Some(RegexMatch(i, s[t.b..t.c], s[t.e..t.f]))
      case None => ExecFrom(s, i + 1)
  }

  /** `/\w+\s+(\d+)\s+(\w+)/.exec(s)`; `None` stands for `null`. */
  function Exec(s: string): Option<RegexMatch> {
    ExecFrom(s, 0)
  }

  // ---------------------------------------------------------------------
  // The scan decides the pattern
  // ---------------------------------------------------------------------

  lemma SpaceIsNotWord(c: char)
    requires IsSpace(c)
    ensures !IsWordChar(c) && !IsDigit(c)
  {
  }

  /** A run of class `k` reaches at least as far as any all-`k` stretch. */
  lemma RunEndCovers(s: string, lo: nat, hi: nat, k: CharClass)
    requires lo <= hi <= |s| && AllIn(s, lo, hi, k)
    ensures hi <= RunEnd(s, lo, k)
  {
  }

  /** A run of class `k` stops at the first character outside `k`. */
  lemma RunEndStops(s: string, lo: nat, hi: nat, k: CharClass)
    requires lo <= hi < |s| && AllIn(s, lo, hi, k) && !InClass(s[hi], k)
    ensures RunEnd(s, lo, k) == hi
  {
    RunEndCovers(s, lo, hi, k);
  }

  /**
   * Whenever some split of the pattern fits at `i`, the scan succeeds there
   * with the same first four boundaries and a group 2 at least as long.
   */
  lemma ScanAtComplete(s: string, i: nat, a: nat, b: nat, c: nat, e: nat, f: nat)
    requires Shape(s, i, a, b, c, e, f)
    ensures ScanAt(s, i).Some?
    ensures var t := ScanAt(s, i).value; t.a == a && t.b == b && t.c == c && t.e == e && f <= t.f
  {
    assert InClass(s[a], Space) && InClass(s[b], Digit) && InClass(s[c], Space) && InClass(s[e], Word);
    SpaceIsNotWord(s[a]);
    SpaceIsNotWord(s[c]);
    RunEndStops(s, i, a, Word);
    RunEndStops(s, a, b, Space);
    RunEndStops(s, b, c, Digit);
    RunEndStops(s, c, e, Space);
    RunEndCovers(s, e, f, Word);
  }

  /** Two splits of the pattern at the same position agree on all but the end of group 2. */
  lemma ShapeDetermined(s: string, i: nat, a: nat, b: nat, c: nat, e: nat, f: nat,
                        a': nat, b': nat, c': nat, e': nat, f': nat)
    requires Shape(s, i, a, b, c, e, f) && Shape(s, i, a', b', c', e', f')
    ensures a == a' && b == b' && c == c' && e == e'
  {
    ScanAtComplete(s, i, a, b, c, e, f);
    ScanAtComplete(s, i, a', b', c', e', f');
  }

  /** Where the scan fails, the pattern does not fit. */
  lemma ScanAtDecides(s: string, i: nat)
    requires i <= |s|
    ensures ScanAt(s, i).None? ==> !MatchesAt(s, i)
  {
    if MatchesAt(s, i) {
      var a: nat, b: nat, c: nat, e: nat, f: nat :| Shape(s, i, a, b, c, e, f);
      ScanAtComplete(s, i, a, b, c, e, f);
    }
  }

  lemma {:induction false} ExecFromSpec(s: string, i: nat)
    requires i <= |s|
    ensures ExecFrom(s, i).None? ==> forall j: nat :: i <= j ==> !MatchesAt(s, j)
    ensures ExecFrom(s, i).Some? ==>
      && (forall j: nat :: i <= j < ExecFrom(s, i).value.index ==> !MatchesAt(s, j))
      && IsGreedyCapture(s, ExecFrom(s, i).value)
    decreases |s| - i
  {
    if i < |s| {
      ScanAtDecides(s, i);
      match ScanAt(s, i)
      case Some(t) =>
        var m := ExecFrom(s, i).value;
        assert Shape(s, i, t.a, t.b, t.c, t.e, t.f) && m.number == s[t.b..t.c] && m.unit == s[t.e..t.f];
      case None =>
        ExecFromSpec(s, i + 1);
    }
  }

  /**
   * `Exec` is `exec`: it fails exactly when the pattern fits nowhere, and
   * otherwise reports the leftmost position where it fits, with the groups
   * a greedy backtracking matcher captures there.
   */
  lemma ExecIsLeftmostGreedy(s: string)
    ensures Exec(s).None? <==> forall j: nat :: !MatchesAt(s, j)
    ensures Exec(s).Some? ==>
      && (forall j: nat :: j < Exec(s).value.index ==> !MatchesAt(s, j))
      && IsGreedyCapture(s, Exec(s).value)
  {
    ExecFromSpec(s, 0);
    if Exec(s).Some? {
      var m := Exec(s).value;
      assert exists a: nat, b: nat, c: nat, e: nat, f: nat :: Shape(s, m.index, a, b, c, e, f) && m.number == s[b..c];
      var a: nat, b: nat, c: nat, e: nat, f: nat :| Shape(s, m.index, a, b, c, e, f);
      assert MatchesAt(s, m.index);
    }
  }

  // ---------------------------------------------------------------------
  // parseInt and toLowerCase on the captured groups
  // ---------------------------------------------------------------------

  predicate AllDigits(d: string) {
    forall k :: 0 <= k < |d| ==> IsDigit(d[k])
  }

  function DigitValue(c: char): (v: nat)
    requires IsDigit(c)
    ensures v < 10
  {
    c as int - '0' as int
  }

  function DigitChar(v: nat): (c: char)
    requires v < 10
    ensures IsDigit(c) && DigitValue(c) == v
  {
    ('0' as int + v) as char
  }

  /** `parseInt` of a string of decimal digits (leading zeros allowed). */
  function DecimalValue(d: string): nat
    requires AllDigits(d)
  {
    if d == [] then 0 else DecimalValue(d[..|d| - 1]) * 10 + DigitValue(d[|d| - 1])
  }

  /** The decimal numeral of `n`, without leading zeros. */
  function DecimalDigits(n: nat): (d: string)
    ensures |d| > 0 && AllDigits(d)
  {
    if n < 10 then [DigitChar(n)] else DecimalDigits(n / 10) + [DigitChar(n % 10)]
  }

  /** Reading back the numeral of `n` gives `n`. */
  lemma {:induction false} DecimalRoundTrip(n: nat)
    ensures DecimalValue(DecimalDigits(n)) == n
  {
    var d := DecimalDigits(n);
    if n >= 10 {
      DecimalRoundTrip(n / 10);
      assert d[..|d| - 1] == DecimalDigits(n / 10);
    }
  }

  function LowerChar(c: char): char {
    if 'A' <= c <= 'Z' then (c as int + 32) as char else c
  }

  /** `toLowerCase`, exact on the ASCII strings `(\w+)` captures. */
  function ToLower(s: string): (r: string)
    ensures |r| == |s| && forall k :: 0 <= k < |s| ==> r[k] == LowerChar(s[k])
  {
    seq(|s|, k requires 0 <= k < |s| => LowerChar(s[k]))
  }

  /**
   * Lower-casing leaves no upper-case letter, keeps every other character,
   * keeps word characters word characters, and is idempotent.
   */
  lemma ToLowerNormalizes(s: string)
    ensures forall k :: 0 <= k < |s| ==> !('A' <= ToLower(s)[k] <= 'Z')
    ensures forall k :: 0 <= k < |s| && !('A' <= s[k] <= 'Z') ==> ToLower(s)[k] == s[k]
    ensures AllWord(s) ==> AllWord(ToLower(s))
    ensures ToLower(ToLower(s)) == ToLower(s)
  {
  }

  // ---------------------------------------------------------------------
  // moment's units
  // ---------------------------------------------------------------------

  /** The units a moment duration is built from. */
  datatype TimeUnit = Millisecond | Second | Minute | Hour | Day | Week | Month | Quarter | Year

  /**
   * moment's unit aliases, as far as a lower-cased name can reach them:
   * singular, plural and one-letter shorthand (month and quarter have only
   * upper-case shorthands, which lower-casing never produces).
   */
  function NormalizeUnit(u: string): Option<TimeUnit> {
    if u in {"millisecond", "milliseconds", "ms"} then Some(Millisecond)
    else if u in {"second", "seconds", "s"} then Some(Second)
    else if u in {"minute", "minutes", "m"} then Some(Minute)
    else if u in {"hour", "hours", "h"} then Some(Hour)
    else if u in {"day", "days", "d"} then Some(Day)
    else if u in {"week", "weeks", "w"} then Some(Week)
    else if u in {"month", "months"} then Some(Month)
    else if u in {"quarter", "quarters"} then Some(Quarter)
    else if u in {"year", "years", "y"} then Some(Year)
    else None
  }

  const MsPerDay: nat := 86400000

  /** Milliseconds per unit, for the units moment converts at a fixed rate. */
  function FixedFactor(u: TimeUnit): Option<nat> {
    match u
    case Millisecond => Some(1)
    case Second => Some(1000)
    case Minute => Some(60000)
    case Hour => Some(3600000)
    case Day => Some(MsPerDay)
    case Week => Some(7 * MsPerDay)
    case _ => None
  }

  /** Months per unit, for the calendar units. */
  function MonthsPer(u: TimeUnit): nat {
    match u
    case Month => 1
    case Quarter => 3
    case Year => 12
    case _ => 0
  }

  /**
   * moment's `Math.round(months * 146097 / 4800)`: the whole number of days
   * nearest to `months` average Gregorian months, halves rounded up.
   */
  function CalendarDays(months: nat): (days: nat)
    ensures months * 146097 - 2400 < days * 4800 <= months * 146097 + 2400
  {
    (months * 146097 + 2400) / 4800
  }

  /** `moment.duration(n, u).asMilliseconds()`. */
  function UnitMilliseconds(n: nat, u: TimeUnit): nat {
    match FixedFactor(u)
    case Some(factor) => n * factor
    case None => CalendarDays(n * MonthsPer(u)) * MsPerDay
  }

  // ---------------------------------------------------------------------
  // duration and startTime
  // ---------------------------------------------------------------------

  const LiveLabel := "Live"

  datatype DurationError =
    | NoMatch                 // `exec` returned null and indexing it throws
    | UnknownUnit(unit: string)

  /** The store's `duration`: the length of the time window, in milliseconds. */
  function Duration(range: string): (r: Result<nat, DurationError>)
    ensures range == LiveLabel ==> r == Ok(300000)
    ensures range != LiveLabel ==> (r == Err(NoMatch) <==> Exec(range).None?)
  {
    if range == LiveLabel then Ok(UnitMilliseconds(5, Minute))
    else match Exec(range)
      case None => Err(NoMatch)
      case Some(m) =>
        var unit := ToLower(m.unit);
        match NormalizeUnit(unit)
        case None => Err(UnknownUnit(unit))
        case Some(u) => Ok(UnitMilliseconds(DecimalValue(m.number), u))
  }

  /** The store's `startTime`: the start of the window that ends at `now`. */
  function StartTime(now: int, duration: nat): (r: int)
    ensures r <= now
    ensures now - r == duration
  {
    now - duration
  }

  // ---------------------------------------------------------------------
  // Properties
  // ---------------------------------------------------------------------

  /** A label of the form "<word> <n> <unit>". */
  function Label(word: string, number: string, unit: string): string {
    word + " " + number + " " + unit
  }

  predicate AllWord(w: string) {
    forall k :: 0 <= k < |w| ==> IsWordChar(w[k])
  }

  /** What a label "<word> <n> <unit>" stands for: `n` of the lower-cased `unit`. */
  function UnitDuration(number: string, unit: string): Result<nat, DurationError>
    requires AllDigits(number)
  {
    match NormalizeUnit(ToLower(unit))
    case None => Err(UnknownUnit(ToLower(unit)))
    case Some(u) => Ok(UnitMilliseconds(DecimalValue(number), u))
  }

  /** The pattern fits a label "<word> <n> <unit>" at 0, with its pieces as the split. */
  lemma LabelShape(word: string, number: string, unit: string)
    requires |word| > 0 && AllWord(word)
    requires |number| > 0 && AllDigits(number)
    requires |unit| > 0 && AllWord(unit)
    ensures var s, b := Label(word, number, unit), |word| + 1;
      && Shape(s, 0, |word|, b, b + |number|, b + |number| + 1, |s|)
      && s[b..b + |number|] == number && s[b + |number| + 1..] == unit
  {
  }

  /** `exec` on a label "<word> <n> <unit>" matches at 0 and captures `n` and `unit`. */
  lemma ExecOfLabel(word: string, number: string, unit: string)
    requires |word| > 0 && AllWord(word)
    requires |number| > 0 && AllDigits(number)
    requires |unit| > 0 && AllWord(unit)
    ensures Exec(Label(word, number, unit)) == Some(RegexMatch(0, number, unit))
  {
    var s := Label(word, number, unit);
    var b := |word| + 1;
    var c, e := b + |number|, b + |number| + 1;
    LabelShape(word, number, unit);
    ScanAtComplete(s, 0, |word|, b, c, e, |s|);
    assert s[e..|s|] == s[e..];
  }

  /**
   * A label "<word> <n> <unit>" is read as `n` of `unit`, whatever the
   * case of `unit`.
   */
  lemma DurationOfLabel(word: string, number: string, unit: string)
    requires |word| > 0 && AllWord(word)
    requires |number| > 0 && AllDigits(number)
    requires |unit| > 0 && AllWord(unit)
    ensures Duration(Label(word, number, unit)) == UnitDuration(number, unit)
  {
    var s := Label(word, number, unit);
    assert s != LiveLabel by { assert s[|word|] == ' '; }
    ExecOfLabel(word, number, unit);
  }

  /** Only the lower-cased unit matters: "Last 2 Hours" and "Last 2 hours" agree. */
  lemma UnitCaseIrrelevant(word: string, number: string, unit: string, unit': string)
    requires |word| > 0 && AllWord(word)
    requires |number| > 0 && AllDigits(number)
    requires |unit| > 0 && AllWord(unit) && |unit'| > 0 && AllWord(unit')
    requires ToLower(unit) == ToLower(unit')
    ensures Duration(Label(word, number, unit)) == Duration(Label(word, number, unit'))
  {
    DurationOfLabel(word, number, unit);
    DurationOfLabel(word, number, unit');
  }

  /** A unit with a fixed rate contributes `n` times that rate. */
  lemma FixedUnitIsLinear(n: nat, u: TimeUnit)
    requires FixedFactor(u).Some?
    ensures UnitMilliseconds(n, u) == n * FixedFactor(u).value
  {
  }

  lemma CalendarDaysMonotone(m1: nat, m2: nat)
    requires m1 <= m2
    ensures CalendarDays(m1) <= CalendarDays(m2)
  {
  }

  /** One month is 30 days, a quarter 91, a year 365 and four years 1461. */
  lemma CalendarSamples()
    ensures CalendarDays(1) == 30 && CalendarDays(3) == 91
    ensures CalendarDays(12) == 365 && CalendarDays(48) == 1461
  {
  }

  /** More units make a window that is at least as long. */
  lemma UnitMillisecondsMonotone(n1: nat, n2: nat, u: TimeUnit)
    requires n1 <= n2
    ensures UnitMilliseconds(n1, u) <= UnitMilliseconds(n2, u)
  {
  }

  /** A longer window starts earlier, or at the same time. */
  lemma StartTimeAntitone(now: int, d1: nat, d2: nat)
    requires d1 <= d2
    ensures StartTime(now, d2) <= StartTime(now, d1)
  {
  }

  lemma FifteenMinutesUnit()
    ensures UnitDuration("15", "minutes") == Ok(900000)
  {
    assert DecimalValue("15") == 15 by { assert "15"[..1] == "1"; }
    assert ToLower("minutes") == "minutes";
  }

  /** "Last 15 minutes" is a window of 900000 milliseconds. */
  lemma FifteenMinutes()
    ensures Duration(Label("Last", "15", "minutes")) == Ok(900000)
  {
    DurationOfLabel("Last", "15", "minutes");
    FifteenMinutesUnit();
  }
}
