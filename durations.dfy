/**
 * The two duration grammars behind the exercise rule, `str2Day` and
 * `str2Min`: a blank answer, a bare integer, or a number followed by a unit
 * (天 for days, 小時 and 分鐘 for hours and minutes). The unit forms are
 * found in the source with Go regular expressions; each is modelled here as
 * an explicit leftmost scan.
 */
module Durations {
  import opened Wrappers
  import opened Text

  /** The regular expressions, where `\d` is an ASCII digit. */
  datatype Pattern =
    | DayCount     // (\d+)天
    | HourMinute   // (\d+)小時(\d+)?分鐘?
    | HourCount    // (\d+)小時
    | MinuteCount  // (\d+)分鐘

  /** The end of the run of ASCII digits that starts at i. */
  function RunEnd(s: string, i: nat): (k: nat)
    requires i <= |s|
    ensures i <= k <= |s|
    ensures k == |s| || !IsDigit(s[k])
    decreases |s| - i
  {
    if i < |s| && IsDigit(s[i]) then RunEnd(s, i + 1) else i
  }

  lemma {:induction false} RunIsDigits(s: string, i: nat)
    requires i <= |s|
    ensures AllDigits(s[i..RunEnd(s, i)])
    decreases |s| - i
  {
    if i < |s| && IsDigit(s[i]) {
      RunIsDigits(s, i + 1);
      assert s[i..RunEnd(s, i)] == [s[i]] + s[i + 1..RunEnd(s, i)];
    }
  }

  /**
   * Whether pattern p matches s starting at index i. In every pattern a `\d+`
   * is followed by a non-digit, so the greedy group can only stop where the run
   * of digits stops; a match at i exists exactly when the text after that run
   * fits. In HourMinute the optional `(\d+)?` takes the whole run after 小時,
   * which must then be followed by a literal 分 (the 鐘 after it is optional).
   */
  predicate MatchesAt(p: Pattern, s: string, i: nat)
    requires i <= |s|
  {
    var k := RunEnd(s, i);
    && k > i
    && match p
      case DayCount => k < |s| && s[k] == '天'
      case HourCount => HoursMarkAt(s, k)
      case MinuteCount => k + 1 < |s| && s[k] == '分' && s[k + 1] == '鐘'
      case HourMinute =>
        && HoursMarkAt(s, k)
        && var m := RunEnd(s, k + 2); m < |s| && s[m] == '分'
  }

  /** 小時 occurs at index k. */
  predicate HoursMarkAt(s: string, k: nat) {
    k + 1 < |s| && s[k] == '小' && s[k + 1] == '時'
  }

  /** The leftmost index at or after i where p matches (what `FindStringSubmatch` reports). */
  function Find(p: Pattern, s: string, i: nat): (r: Option<nat>)
    requires i <= |s|
    ensures r.Some? ==> i <= r.value < |s|
    decreases |s| - i
  {
    if i == |s| then None
    else if MatchesAt(p, s, i) then Some(i)
    else Find(p, s, i + 1)
  }

  /** The match Find reports is the leftmost one, and it reports none only when there is none. */
  lemma {:induction false} FindLeftmost(p: Pattern, s: string, i: nat)
    requires i <= |s|
    ensures Find(p, s, i).Some? ==> MatchesAt(p, s, Find(p, s, i).value)
    ensures Find(p, s, i).Some? ==> forall j :: i <= j < Find(p, s, i).value ==> !MatchesAt(p, s, j)
    ensures Find(p, s, i).None? <==> forall j :: i <= j <= |s| ==> !MatchesAt(p, s, j)
    decreases |s| - i
  {
    if i < |s| && !MatchesAt(p, s, i) {
      FindLeftmost(p, s, i + 1);
    }
  }

  /** The number a `(\d+)` group starting at i captures (0 for an empty group, or past the end). */
  function Captured(s: string, i: nat): nat
  {
    if i <= |s| then
      RunIsDigits(s, i);
      DigitsValue(s[i..RunEnd(s, i)])
    else 0
  }

  /** `str2Day`: the number of days a questionnaire answer states. */
  function Str2Day(text: string): (r: Option<int>)
    ensures TrimSpace(text) == "" ==> r == Some(0)
    ensures r.None? ==> TrimSpace(text) != "" && Atoi(TrimSpace(text)).None?
    ensures r.Some? && Atoi(TrimSpace(text)).None? ==> r.value >= 0
  {
    var s := TrimSpace(text);
    if s == "" then Some(0)
    else if Atoi(s).Some? then Atoi(s)
    else DaysByUnit(s)
  }

  /** The `(\d+)天` step of `str2Day`. */
  function DaysByUnit(s: string): (r: Option<int>)
  {
    match Find(DayCount, s, 0)
    case Some(i) => Some(Captured(s, i))
    case None => None
  }

  /** `str2Min`: the number of minutes a questionnaire answer states. */
  function Str2Min(text: string): (r: Option<int>)
    ensures TrimSpace(text) == "" ==> r == Some(0)
    ensures r.None? ==> TrimSpace(text) != "" && Atoi(TrimSpace(text)).None?
    ensures r.Some? && Atoi(TrimSpace(text)).None? ==> r.value >= 0
  {
    var s := TrimSpace(text);
    if s == "" then Some(0)
    else if Atoi(s).Some? then Atoi(s)
    else MinutesByUnit(s)
  }

  /**
   * The pattern steps of `str2Min`: the three patterns are tried in turn, each
   * on the whole text; an absent minute group after 小時 counts as 0 minutes.
   */
  function MinutesByUnit(s: string): (r: Option<int>)
  {
    match Find(HourMinute, s, 0)
    case Some(i) => Some(Captured(s, i) * 60 + Captured(s, RunEnd(s, i) + 2))
    case None =>
      match Find(HourCount, s, 0)
      case Some(i) => Some(Captured(s, i) * 60)
      case None =>
        match Find(MinuteCount, s, 0)
        case Some(i) => Some(Captured(s, i))
        case None => None
  }

  // ------------------------------------------------------------ scanning facts

  lemma {:induction false} RunEndOverNumber(d: string, rest: string, j: nat)
    requires AllDigits(d) && j <= |d|
    requires rest == [] || !IsDigit(rest[0])
    ensures RunEnd(d + rest, j) == |d|
    decreases |d| - j
  {
    if j < |d| {
      RunEndOverNumber(d, rest, j + 1);
    } else if rest != [] {
      assert (d + rest)[j] == rest[0];
    }
  }

  lemma {:induction false} RunEndShift(a: string, b: string, j: nat)
    requires j <= |b|
    ensures RunEnd(a + b, |a| + j) == |a| + RunEnd(b, j)
    decreases |b| - j
  {
    if j < |b| {
      assert (a + b)[|a| + j] == b[j];
      if IsDigit(b[j]) {
        RunEndShift(a, b, j + 1);
      }
    }
  }

  lemma MatchesAtShift(p: Pattern, a: string, b: string, j: nat)
    requires j <= |b|
    ensures MatchesAt(p, a + b, |a| + j) == MatchesAt(p, b, j)
  {
    RunEndShift(a, b, j);
    var k := RunEnd(b, j);
    if k < |b| { assert (a + b)[|a| + k] == b[k]; }
    if k + 1 < |b| { assert (a + b)[|a| + k + 1] == b[k + 1]; }
    if HoursMarkAt(b, k) {
      RunEndShift(a, b, k + 2);
      var m := RunEnd(b, k + 2);
      if m < |b| { assert (a + b)[|a| + m] == b[m]; }
    }
  }

  function Shifted(r: Option<nat>, n: nat): Option<nat> {
    match r
    case None => None
    case Some(x) => Some(x + n)
  }

  lemma {:induction false} FindShift(p: Pattern, a: string, b: string, j: nat)
    requires j <= |b|
    ensures Find(p, a + b, |a| + j) == Shifted(Find(p, b, j), |a|)
    decreases |b| - j
  {
    if j < |b| {
      MatchesAtShift(p, a, b, j);
      if !MatchesAt(p, b, j) {
        FindShift(p, a, b, j + 1);
      }
    }
  }

  lemma {:induction false} FindSkip(p: Pattern, s: string, i: nat, j: nat)
    requires i <= j <= |s|
    requires forall x :: i <= x < j ==> !MatchesAt(p, s, x)
    ensures Find(p, s, i) == Find(p, s, j)
    decreases j - i
  {
    if i < j {
      FindSkip(p, s, i + 1, j);
    }
  }

  /** No pattern matches where no digit occurs. */
  lemma FindNoDigits(p: Pattern, s: string)
    requires forall k :: 0 <= k < |s| ==> !IsDigit(s[k])
    ensures Find(p, s, 0) == None
  {
    forall j | 0 <= j <= |s| ensures !MatchesAt(p, s, j) {
      assert RunEnd(s, j) == j;
    }
    FindLeftmost(p, s, 0);
  }

  /**
   * When a pattern does not match at the start of a number, it matches nowhere
   * inside that number either, and the scan resumes after it.
   */
  lemma FindAfterNumber(p: Pattern, d: string, rest: string)
    requires AllDigits(d) && d != []
    requires rest == [] || !IsDigit(rest[0])
    requires !MatchesAt(p, d + rest, 0)
    ensures Find(p, d + rest, 0) == Shifted(Find(p, rest, 0), |d|)
  {
    var s := d + rest;
    RunEndOverNumber(d, rest, 0);
    forall x | 0 <= x < |d| ensures !MatchesAt(p, s, x) {
      RunEndOverNumber(d, rest, x);
    }
    FindSkip(p, s, 0, |d|);
    FindShift(p, d, rest, 0);
  }

  lemma UnitTextNotInteger(d: string, unit: string)
    requires AllDigits(d) && d != [] && unit != [] && !IsDigit(unit[0])
    ensures Atoi(d + unit) == None
  {
    assert (d + unit)[|d|] == unit[0];
  }

  // --------------------------------------------------------- grammar results

  /** Blank answers count as zero days and zero minutes. */
  lemma BlankIsZero(text: string)
    requires AllSpace(text)
    ensures Str2Day(text) == Some(0) && Str2Min(text) == Some(0)
  {
  }

  /**
   * Any text `strconv.Atoi` accepts once trimmed (a sign, leading zeros) is
   * taken as its value by both grammars.
   */
  lemma IntegerAnswer(text: string)
    requires Atoi(TrimSpace(text)).Some?
    ensures Str2Day(text) == Atoi(TrimSpace(text)) && Str2Min(text) == Atoi(TrimSpace(text))
  {
    assert TrimSpace(text) != "";
  }

  /** In particular, every integer written out in its usual spelling is taken as it is. */
  lemma BareInteger(n: int)
    ensures Str2Day(Itoa(n)) == Some(n) && Str2Min(Itoa(n)) == Some(n)
  {
    var s := Itoa(n);
    if n < 0 {
      assert s[|s| - 1] == Decimal(-n)[|Decimal(-n)| - 1];
    }
    assert Trimmed(s);
    AtoiItoa(n);
    IntegerAnswer(s);
  }

  /** A number followed by a unit is neither blank, nor padded, nor an integer. */
  lemma UnitText(d: string, unit: string)
    requires AllDigits(d) && d != [] && unit != [] && !IsDigit(unit[0])
    requires !IsSpace(unit[|unit| - 1])
    ensures TrimSpace(d + unit) == d + unit && Atoi(d + unit) == None
  {
    var s := d + unit;
    assert s[0] == d[0] && s[|s| - 1] == unit[|unit| - 1];
    assert Trimmed(s);
    UnitTextNotInteger(d, unit);
  }

  lemma CapturedRun(d: string, rest: string)
    requires AllDigits(d) && d != []
    requires rest == [] || !IsDigit(rest[0])
    ensures Captured(d + rest, 0) == DigitsValue(d)
  {
    RunEndOverNumber(d, rest, 0);
    assert (d + rest)[0..|d|] == d;
  }

  lemma DaysUnit(d: string)
    requires AllDigits(d) && d != []
    ensures DaysByUnit(d + "天") == Some(DigitsValue(d))
  {
    var s := d + "天";
    RunEndOverNumber(d, "天", 0);
    assert s[|d|] == '天';
    assert MatchesAt(DayCount, s, 0);
    CapturedRun(d, "天");
  }

  /** "N天" states N days (N any run of ASCII digits, leading zeros allowed). */
  lemma DaysText(d: string)
    requires AllDigits(d) && d != []
    ensures Str2Day(d + "天") == Some(DigitsValue(d))
  {
    UnitText(d, "天");
    DaysUnit(d);
  }

  /** In "H小時M分鐘" the hours run up to 小時. */
  lemma HoursRun(dh: string, dm: string, s: string)
    requires AllDigits(dh) && dh != [] && AllDigits(dm) && dm != []
    requires s == dh + ("小時" + dm + "分鐘")
    ensures RunEnd(s, 0) == |dh| && HoursMarkAt(s, |dh|)
  {
    RunEndOverNumber(dh, "小時" + dm + "分鐘", 0);
    assert s[|dh|] == '小' && s[|dh| + 1] == '時';
  }

  /** In "H小時M分鐘" the minutes run up to 分. */
  lemma MinutesRun(dh: string, dm: string, s: string)
    requires AllDigits(dh) && dh != [] && AllDigits(dm) && dm != []
    requires s == dh + ("小時" + dm + "分鐘")
    ensures RunEnd(s, |dh| + 2) == |dh| + 2 + |dm| < |s| && s[|dh| + 2 + |dm|] == '分'
  {
    var front := dh + "小時";
    assert s == front + (dm + "分鐘");
    RunEndShift(front, dm + "分鐘", 0);
    RunEndOverNumber(dm, "分鐘", 0);
    assert s[|front| + |dm|] == (dm + "分鐘")[|dm|];
  }

  /** A number captured after any prefix is the number its digits spell. */
  lemma CapturedAt(a: string, d: string, rest: string)
    requires AllDigits(d) && d != []
    requires rest == [] || !IsDigit(rest[0])
    ensures Captured(a + (d + rest), |a|) == DigitsValue(d)
  {
    var s := a + (d + rest);
    RunEndShift(a, d + rest, 0);
    RunEndOverNumber(d, rest, 0);
    assert s[|a|..|a| + |d|] == d;
  }

  lemma HoursMinutesUnit(dh: string, dm: string, s: string)
    requires AllDigits(dh) && dh != [] && AllDigits(dm) && dm != []
    requires s == dh + ("小時" + dm + "分鐘")
    ensures MinutesByUnit(s) == Some(DigitsValue(dh) * 60 + DigitsValue(dm))
  {
    HoursMinutesStart(dh, dm, s);
    HoursCaptured(dh, dm, s);
    MinutesCaptured(dh, dm, s);
    HourMinuteReading(s, |dh|, DigitsValue(dh), DigitsValue(dm));
  }

  lemma HoursMinutesStart(dh: string, dm: string, s: string)
    requires AllDigits(dh) && dh != [] && AllDigits(dm) && dm != []
    requires s == dh + ("小時" + dm + "分鐘")
    ensures Find(HourMinute, s, 0) == Some(0) && RunEnd(s, 0) == |dh|
  {
    HoursRun(dh, dm, s);
    MinutesRun(dh, dm, s);
    assert MatchesAt(HourMinute, s, 0);
  }

  lemma HoursCaptured(dh: string, dm: string, s: string)
    requires AllDigits(dh) && dh != [] && AllDigits(dm) && dm != []
    requires s == dh + ("小時" + dm + "分鐘")
    ensures Captured(s, 0) == DigitsValue(dh)
  {
    CapturedRun(dh, "小時" + dm + "分鐘");
  }

  lemma MinutesCaptured(dh: string, dm: string, s: string)
    requires AllDigits(dh) && dh != [] && AllDigits(dm) && dm != []
    requires s == dh + ("小時" + dm + "分鐘")
    ensures Captured(s, |dh| + 2) == DigitsValue(dm)
  {
    var front := dh + "小時";
    assert s == front + (dm + "分鐘");
    CapturedAt(front, dm, "分鐘");
  }

  /** A text the hour-minute pattern matches at its start is read by that pattern. */
  lemma HourMinuteReading(s: string, k: nat, h: nat, m: nat)
    requires Find(HourMinute, s, 0) == Some(0) && RunEnd(s, 0) == k
    requires Captured(s, 0) == h && Captured(s, k + 2) == m
    ensures MinutesByUnit(s) == Some(h * 60 + m)
  {
  }

  /** "H小時M分鐘" states H*60+M minutes. */
  lemma HoursMinutesText(dh: string, dm: string)
    requires AllDigits(dh) && dh != [] && AllDigits(dm) && dm != []
    ensures Str2Min(dh + "小時" + dm + "分鐘") == Some(DigitsValue(dh) * 60 + DigitsValue(dm))
  {
    var tail := "小時" + dm + "分鐘";
    assert dh + "小時" + dm + "分鐘" == dh + tail;
    assert tail[|tail| - 1] == '鐘';
    UnitText(dh, tail);
    HoursMinutesUnit(dh, dm, dh + tail);
  }

  lemma HoursUnit(d: string)
    requires AllDigits(d) && d != []
    ensures MinutesByUnit(d + "小時") == Some(DigitsValue(d) * 60)
  {
    var s := d + "小時";
    RunEndOverNumber(d, "小時", 0);
    assert s[|d|] == '小' && s[|d| + 1] == '時';
    assert RunEnd(s, |d| + 2) == |s|;
    assert !MatchesAt(HourMinute, s, 0);
    FindAfterNumber(HourMinute, d, "小時");
    FindNoDigits(HourMinute, "小時");
    assert MatchesAt(HourCount, s, 0);
    CapturedRun(d, "小時");
  }

  /** "H小時" states H*60 minutes. */
  lemma HoursText(d: string)
    requires AllDigits(d) && d != []
    ensures Str2Min(d + "小時") == Some(DigitsValue(d) * 60)
  {
    UnitText(d, "小時");
    HoursUnit(d);
  }

  lemma MinutesUnit(d: string)
    requires AllDigits(d) && d != []
    ensures MinutesByUnit(d + "分鐘") == Some(DigitsValue(d))
  {
    var s := d + "分鐘";
    RunEndOverNumber(d, "分鐘", 0);
    assert s[|d|] == '分' && s[|d| + 1] == '鐘';
    assert !MatchesAt(HourMinute, s, 0);
    assert !MatchesAt(HourCount, s, 0);
    FindAfterNumber(HourMinute, d, "分鐘");
    FindAfterNumber(HourCount, d, "分鐘");
    FindNoDigits(HourMinute, "分鐘");
    FindNoDigits(HourCount, "分鐘");
    assert MatchesAt(MinuteCount, s, 0);
    CapturedRun(d, "分鐘");
  }

  /** "M分鐘" states M minutes. */
  lemma MinutesText(d: string)
    requires AllDigits(d) && d != []
    ensures Str2Min(d + "分鐘") == Some(DigitsValue(d))
  {
    UnitText(d, "分鐘");
    MinutesUnit(d);
  }

  /** The hour-minute pattern finds nothing in "H小時M": the minutes carry no 分. */
  lemma NoMinuteMark(dh: string, dm: string)
    requires AllDigits(dh) && dh != [] && AllDigits(dm) && dm != []
    ensures Find(HourMinute, dh + ("小時" + dm), 0) == None
  {
    var tail := "小時" + dm;
    var s := dh + tail;
    RunEndOverNumber(dh, tail, 0);
    assert s[|dh|] == '小' && s[|dh| + 1] == '時';
    assert s == (dh + "小時") + (dm + []);
    RunEndShift(dh + "小時", dm + [], 0);
    RunEndOverNumber(dm, [], 0);
    assert !MatchesAt(HourMinute, s, 0);
    FindAfterNumber(HourMinute, dh, tail);
    assert RunEnd(tail, 0) == 0 && RunEnd(tail, 1) == 1;
    FindSkip(HourMinute, tail, 0, 2);
    assert tail == "小時" + (dm + []);
    FindShift(HourMinute, "小時", dm + [], 0);
    assert !MatchesAt(HourMinute, dm + [], 0);
    FindAfterNumber(HourMinute, dm, []);
  }

  lemma HoursWithoutMarkUnit(dh: string, dm: string)
    requires AllDigits(dh) && dh != [] && AllDigits(dm) && dm != []
    ensures MinutesByUnit(dh + ("小時" + dm)) == Some(DigitsValue(dh) * 60)
  {
    var tail := "小時" + dm;
    var s := dh + tail;
    NoMinuteMark(dh, dm);
    RunEndOverNumber(dh, tail, 0);
    assert s[|dh|] == '小' && s[|dh| + 1] == '時';
    assert MatchesAt(HourCount, s, 0);
    CapturedRun(dh, tail);
  }

  /**
   * Without the 分 the minutes after 小時 are not read: the hour-minute pattern
   * fails and only the hours count.
   */
  lemma MinutesNeedTheirMark(dh: string, dm: string)
    requires AllDigits(dh) && dh != [] && AllDigits(dm) && dm != []
    ensures Str2Min(dh + "小時" + dm) == Some(DigitsValue(dh) * 60)
  {
    var tail := "小時" + dm;
    assert dh + "小時" + dm == dh + tail;
    assert dm[|dm| - 1] == tail[|tail| - 1];
    UnitText(dh, tail);
    HoursWithoutMarkUnit(dh, dm);
  }

  /** A day count is only ever read off a 天. */
  lemma DayMatchHasMark(s: string)
    ensures DaysByUnit(s).Some? ==> Contains(s, "天")
  {
    FindLeftmost(DayCount, s, 0);
    if Find(DayCount, s, 0).Some? {
      var k := RunEnd(s, Find(DayCount, s, 0).value);
      assert s[k..k + 1] == "天";
      assert OccursAt(s, "天", k);
    }
  }

  /** Anything else is an error: a day count needs a 天 unless blank or an integer. */
  lemma DaysOtherwiseFail(text: string)
    requires !AllSpace(text) && Atoi(TrimSpace(text)) == None
    requires !Contains(TrimSpace(text), "天")
    ensures Str2Day(text) == None
  {
    DayMatchHasMark(TrimSpace(text));
  }

  /** A duration in minutes is only ever read off a 小時 or a 分鐘. */
  lemma MinuteMatchHasMark(s: string)
    ensures MinutesByUnit(s).Some? ==> Contains(s, "小時") || Contains(s, "分鐘")
  {
    FindLeftmost(HourMinute, s, 0);
    FindLeftmost(HourCount, s, 0);
    FindLeftmost(MinuteCount, s, 0);
    if Find(HourMinute, s, 0).Some? {
      var k := RunEnd(s, Find(HourMinute, s, 0).value);
      assert s[k..k + 2] == "小時";
      assert OccursAt(s, "小時", k);
    } else if Find(HourCount, s, 0).Some? {
      var k := RunEnd(s, Find(HourCount, s, 0).value);
      assert s[k..k + 2] == "小時";
      assert OccursAt(s, "小時", k);
    } else if Find(MinuteCount, s, 0).Some? {
      var k := RunEnd(s, Find(MinuteCount, s, 0).value);
      assert s[k..k + 2] == "分鐘";
      assert OccursAt(s, "分鐘", k);
    }
  }

  /** Anything else is an error: a duration needs 小時 or 分鐘 unless blank or an integer. */
  lemma MinutesOtherwiseFail(text: string)
    requires !AllSpace(text) && Atoi(TrimSpace(text)) == None
    requires !Contains(TrimSpace(text), "小時") && !Contains(TrimSpace(text), "分鐘")
    ensures Str2Min(text) == None
  {
    MinuteMatchHasMark(TrimSpace(text));
  }

  /** Both grammars trim their input, so trimming it beforehand changes nothing. */
  lemma PreTrimmed(text: string)
    ensures Str2Day(TrimSpace(text)) == Str2Day(text)
    ensures Str2Min(TrimSpace(text)) == Str2Min(text)
  {
    assert TrimSpace(TrimSpace(text)) == TrimSpace(text);
  }
}
