/**
 * The derivation rules: each turns the raw strings of its input fields into
 * one output value, or fails. Every rule first checks that it was given
 * exactly as many fields as it reads. Number parsing (`strconv.ParseFloat`),
 * date parsing (`time.Parse` with layout 2006/01/02) and the Agatston text
 * extraction are supplied by an environment and stay uninterpreted.
 */
module Rules {
  import opened Wrappers
  import opened Text
  import opened Durations
  import opened Scoring

  /** Why a rule failed. */
  datatype ParseError =
    | WrongArity(expected: nat, actual: nat)  // the field-count check every rule starts with
    | BadInput(position: nat)                  // the 1-based input (or question) that could not be read
    | Rejected                                 // the inputs were read but give no acceptable value

  /**
   * The library services the rules call: `strconv.ParseFloat`, `time.Parse`
   * (as a day number: days since a fixed epoch), and the score the Agatston
   * rule extracts from its free-text fields.
   */
  datatype Env = Env(
    parseFloat: string -> Option<real>,
    dayNumber: string -> Option<int>,
    agatstonScore: seq<string> -> real)

  /** The two readings of `ParseFloat` the examples below rely on: "" is not a number, "0" is zero. */
  predicate ReadsBlankAndZero(env: Env) {
    env.parseFloat("") == None && env.parseFloat("0") == Some(0.0)
  }

  // ------------------------------------------------------------------- age

  /** `int(hours / 24 / 365.25)`: whole years between two day numbers, truncated toward zero. */
  function YearsBetween(birth: int, checkup: int): int {
    var quarterDays := 4 * (checkup - birth);
    if quarterDays >= 0 then quarterDays / 1461 else -((-quarterDays) / 1461)
  }

  /** The age is the number of whole 365.25-day years that fit between the dates. */
  lemma YearsBetweenBounds(birth: int, checkup: int)
    requires birth <= checkup
    ensures var y := YearsBetween(birth, checkup);
      0 <= y && y * 1461 <= 4 * (checkup - birth) < (y + 1) * 1461
  {
  }

  /** Swapping the dates negates the age: truncation is toward zero. */
  lemma YearsBetweenSwapped(birth: int, checkup: int)
    ensures YearsBetween(checkup, birth) == -YearsBetween(birth, checkup)
  {
    var q := 4 * (checkup - birth);
    assert 4 * (birth - checkup) == -q;
  }

  /** `calculateAge`: birth date then check-up date, both trimmed. */
  function CalculateAge(env: Env, fields: seq<string>): (r: Result<int, ParseError>)
    ensures |fields| != 2 <==> r == Err(WrongArity(2, |fields|))
    ensures r.Ok? <==> |fields| == 2 && env.dayNumber(TrimSpace(fields[0])).Some? && env.dayNumber(TrimSpace(fields[1])).Some?
    ensures r.Ok? ==> r.value == YearsBetween(env.dayNumber(TrimSpace(fields[0])).value, env.dayNumber(TrimSpace(fields[1])).value)
    ensures r.Ok? && env.dayNumber(TrimSpace(fields[0])).value <= env.dayNumber(TrimSpace(fields[1])).value ==> r.value >= 0
  {
    if |fields| != 2 then Err(WrongArity(2, |fields|))
    else
      match env.dayNumber(TrimSpace(fields[0]))
      case None => Err(BadInput(1))
      case Some(birth) =>
        match env.dayNumber(TrimSpace(fields[1]))
        case None => Err(BadInput(2))
        case Some(checkup) => Ok(YearsBetween(birth, checkup))
  }

  // ------------------------------------------------------------------- sex

  /** The answer that stands for each sex code. */
  function SexToken(code: int): string
    requires code == 0 || code == 1
  {
    if code == 1 then "男" else "女"
  }

  /** `parseSex`: 男 is 1, 女 is 0, after trimming; anything else is rejected. */
  function ParseSex(fields: seq<string>): (r: Result<int, ParseError>)
    ensures r.Ok? ==> |fields| == 1 && (r.value == 0 || r.value == 1) && SexToken(r.value) == TrimSpace(fields[0])
    ensures |fields| == 1 && r.Err? ==> TrimSpace(fields[0]) != "男" && TrimSpace(fields[0]) != "女"
  {
    if |fields| != 1 then Err(WrongArity(1, |fields|))
    else
      var gender := TrimSpace(fields[0]);
      if gender == "男" then Ok(1)
      else if gender == "女" then Ok(0)
      else Err(Rejected)
  }

  /** Each sex code is read back from its answer, whatever white space surrounds it. */
  lemma SexRoundTrip(code: int, pre: string, post: string)
    requires code == 0 || code == 1
    requires AllSpace(pre) && AllSpace(post)
    ensures ParseSex([pre + SexToken(code) + post]) == Ok(code)
  {
    TrimSpacePadding(pre, SexToken(code), post);
  }

  // ------------------------------------------------------- history keywords

  const DiseaseKeywords: seq<string> := ["有", "治療", "藥物", "手術"]
  const FamilyKeywords: seq<string> := ["父親", "母親", "祖父母", "外組父母"]

  /** Some input contains some keyword. */
  predicate Flagged(fields: seq<string>, keywords: seq<string>) {
    exists i, j :: 0 <= i < |fields| && 0 <= j < |keywords| && Contains(fields[i], keywords[j])
  }

  /** The history flag: 1 when some input mentions a keyword, else 0. */
  function HistoryFlag(fields: seq<string>, keywords: seq<string>): int {
    if Flagged(fields, keywords) then 1 else 0
  }

  /**
   * The scan shared by `parseDiseaseHistory` and `parseFamilyHistory`: every
   * input against every keyword, stopping at the first hit. It never fails and
   * accepts any number of inputs.
   */
  method KeywordFlag(fields: seq<string>, keywords: seq<string>) returns (flag: int)
    ensures flag == HistoryFlag(fields, keywords)
  {
    var i := 0;
    while i < |fields|
      invariant 0 <= i <= |fields|
      invariant forall a, b :: 0 <= a < i && 0 <= b < |keywords| ==> !Contains(fields[a], keywords[b])
    {
      var j := 0;
      while j < |keywords|
        invariant 0 <= j <= |keywords|
        invariant forall b :: 0 <= b < j ==> !Contains(fields[i], keywords[b])
      {
        if Contains(fields[i], keywords[j]) {
          return 1;
        }
        j := j + 1;
      }
      i := i + 1;
    }
    return 0;
  }

  /** `parseDiseaseHistory`: 1 when some input mentions 有, 治療, 藥物 or 手術. */
  method ParseDiseaseHistory(fields: seq<string>) returns (flag: int)
    ensures flag == HistoryFlag(fields, DiseaseKeywords)
  {
    flag := KeywordFlag(fields, DiseaseKeywords);
  }

  /** `parseFamilyHistory`: 1 when some input mentions 父親, 母親, 祖父母 or 外組父母. */
  method ParseFamilyHistory(fields: seq<string>) returns (flag: int)
    ensures flag == HistoryFlag(fields, FamilyKeywords)
  {
    flag := KeywordFlag(fields, FamilyKeywords);
  }

  /** More inputs, on either side, can only turn a 0 flag into 1, never back. */
  lemma HistoryFlagMonotone(fields: seq<string>, more: seq<string>, keywords: seq<string>)
    ensures HistoryFlag(fields, keywords) <= HistoryFlag(fields + more, keywords)
    ensures HistoryFlag(fields, keywords) <= HistoryFlag(more + fields, keywords)
  {
    if Flagged(fields, keywords) {
      var i, j :| 0 <= i < |fields| && 0 <= j < |keywords| && Contains(fields[i], keywords[j]);
      assert (fields + more)[i] == fields[i];
      assert (more + fields)[|more| + i] == fields[i];
    }
  }

  /** A single input flags exactly when it mentions a keyword. */
  lemma HistoryFlagOne(field: string, keywords: seq<string>)
    ensures HistoryFlag([field], keywords) == 1 <==> exists j :: 0 <= j < |keywords| && Contains(field, keywords[j])
  {
    if exists j :: 0 <= j < |keywords| && Contains(field, keywords[j]) {
      var j :| 0 <= j < |keywords| && Contains(field, keywords[j]);
      assert [field][0] == field;
    }
  }

  // --------------------------------------------------------------- alcohol

  /** A reading that says nothing: "0" or blank once trimmed (a day count, an hsCRP value). */
  predicate BlankOrZero(s: string) {
    var t := TrimSpace(s);
    t == "0" || t == ""
  }

  /**
   * The alcohol class: 2 unless the frequency is a real answer and all seven
   * day counts are blank or "0"; then 1 for social drinking, 0 for none, and
   * anything else is rejected. A blank or "0" frequency therefore gives 2.
   */
  function AlcoholClass(fields: seq<string>): (r: Result<int, ParseError>)
    ensures r.Ok? ==> 0 <= r.value <= 2
  {
    if |fields| != 8 then Err(WrongArity(8, |fields|))
    else
      var frequency := TrimSpace(fields[0]);
      var allZero := frequency != "0" && frequency != "" && forall k :: 1 <= k < 8 ==> BlankOrZero(fields[k]);
      if !allZero then Ok(2)
      else if Contains(frequency, "社交飲酒") then Ok(1)
      else if Contains(frequency, "無飲酒") then Ok(0)
      else Err(Rejected)
  }

  /**
   * `parseAlcohol`: trims the seven day counts in place (the frequency is
   * trimmed into a local), then clears the all-zero flag at the first day
   * count that is neither "0" nor blank.
   */
  method ParseAlcohol(fields: array<string>) returns (r: Result<int, ParseError>)
    modifies fields
    ensures r == AlcoholClass(old(fields[..]))
    ensures fields.Length == 8 ==> fields[0] == old(fields[0])
    ensures fields.Length == 8 ==> forall k :: 1 <= k < 8 ==> fields[k] == TrimSpace(old(fields[k]))
    ensures fields.Length != 8 ==> fields[..] == old(fields[..])
  {
    if fields.Length != 8 {
      return Err(WrongArity(8, fields.Length));
    }
    ghost var original := fields[..];
    var frequency := TrimSpace(fields[0]);
    TrimDays(fields);
    var allZero := frequency != "0" && frequency != "";
    if allZero {
      allZero := AllDaysZero(fields);
    }
    assert allZero == (frequency != "0" && frequency != "" && forall k :: 1 <= k < 8 ==> BlankOrZero(original[k]));
    if !allZero {
      r := Ok(2);
    } else if Contains(frequency, "社交飲酒") {
      r := Ok(1);
    } else if Contains(frequency, "無飲酒") {
      r := Ok(0);
    } else {
      r := Err(Rejected);
    }
  }

  /** The in-place trim of the seven day counts. */
  method TrimDays(fields: array<string>)
    requires fields.Length == 8
    modifies fields
    ensures fields[0] == old(fields[0])
    ensures forall k :: 1 <= k < 8 ==> fields[k] == TrimSpace(old(fields[k]))
  {
    var k := 1;
    while k < 8
      invariant 1 <= k <= 8
      invariant fields[0] == old(fields[0])
      invariant forall x :: 1 <= x < k ==> fields[x] == TrimSpace(old(fields[x]))
      invariant forall x :: k <= x < 8 ==> fields[x] == old(fields[x])
    {
      fields[k] := TrimSpace(fields[k]);
      k := k + 1;
    }
  }

  /** The flag loop over trimmed day counts: stops at the first that is neither "0" nor blank. */
  method AllDaysZero(fields: array<string>) returns (allZero: bool)
    requires fields.Length == 8
    requires forall k :: 1 <= k < 8 ==> Trimmed(fields[k])
    ensures allZero <==> forall k :: 1 <= k < 8 ==> fields[k] == "0" || fields[k] == ""
  {
    var k := 1;
    while k < 8
      invariant 1 <= k <= 8
      invariant forall x :: 1 <= x < k ==> fields[x] == "0" || fields[x] == ""
    {
      if fields[k] != "0" && fields[k] != "" {
        return false;
      }
      k := k + 1;
    }
    return true;
  }

  /** A blank or "0" frequency gives class 2, whatever the day counts say. */
  lemma AlcoholBlankFrequency(fields: seq<string>)
    requires |fields| == 8 && BlankOrZero(fields[0])
    ensures AlcoholClass(fields) == Ok(2)
  {
  }

  /** Any day count that is neither blank nor "0" gives class 2, whatever the frequency says. */
  lemma AlcoholDrinkingDays(fields: seq<string>, k: nat)
    requires |fields| == 8 && 1 <= k < 8 && !BlankOrZero(fields[k])
    ensures AlcoholClass(fields) == Ok(2)
  {
  }

  /** With all day counts blank or "0", the frequency text decides; otherwise the class is 2. */
  lemma AlcoholQuietWeek(fields: seq<string>)
    requires |fields| == 8 && !BlankOrZero(fields[0])
    requires forall k :: 1 <= k < 8 ==> BlankOrZero(fields[k])
    ensures Contains(TrimSpace(fields[0]), "社交飲酒") ==> AlcoholClass(fields) == Ok(1)
    ensures !Contains(TrimSpace(fields[0]), "社交飲酒") && Contains(TrimSpace(fields[0]), "無飲酒") ==> AlcoholClass(fields) == Ok(0)
    ensures AlcoholClass(fields).Err? <==> !Contains(TrimSpace(fields[0]), "社交飲酒") && !Contains(TrimSpace(fields[0]), "無飲酒")
  {
  }

  // ------------------------------------------------------------- cigarette

  /** An answer that states something: neither blank nor 不抽 once trimmed. */
  predicate Smokes(s: string) {
    var t := TrimSpace(s);
    t != "不抽" && t != ""
  }

  /**
   * `parseCigarette`: 2 when the current daily amount or the years smoked is
   * stated, else 1 when the years since quitting or the former daily amount
   * is, else 0. The final error branch is unreachable with four fields.
   */
  function ParseCigarette(fields: seq<string>): (r: Result<int, ParseError>)
    ensures |fields| == 4 <==> r.Ok?
    ensures r.Ok? ==> 0 <= r.value <= 2
    ensures r.Ok? ==> (r.value == 2 <==> Smokes(fields[0]) || Smokes(fields[1]))
    ensures r.Ok? ==> (r.value == 0 <==> forall k :: 0 <= k < 4 ==> !Smokes(fields[k]))
  {
    if |fields| != 4 then Err(WrongArity(4, |fields|))
    else if Smokes(fields[0]) || Smokes(fields[1]) then Ok(2)
    else if Smokes(fields[2]) || Smokes(fields[3]) then Ok(1)
    else if !Smokes(fields[0]) && !Smokes(fields[1]) && !Smokes(fields[2]) && !Smokes(fields[3]) then Ok(0)
    else Err(Rejected)
  }

  // ------------------------------------------------ betel, drink and food

  /** `parseBetel`: 1 unless the trimmed answer is blank or 不嚼. */
  function ParseBetel(fields: seq<string>): (r: Result<int, ParseError>)
    ensures |fields| == 1 <==> r.Ok?
    ensures r.Ok? ==> (r.value == 0 <==> TrimSpace(fields[0]) in {"不嚼", ""}) && (r.value == 0 || r.value == 1)
  {
    if |fields| != 1 then Err(WrongArity(1, |fields|))
    else
      var answer := TrimSpace(fields[0]);
      if answer != "不嚼" && answer != "" then Ok(1)
      else if answer == "不嚼" || answer == "" then Ok(0)
      else Err(Rejected)
  }

  /** `parseDrink` (coffee and tea habits): 1 unless the answer, NOT trimmed, is exactly blank or 不喝. */
  function ParseDrink(fields: seq<string>): (r: Result<int, ParseError>)
    ensures |fields| == 1 <==> r.Ok?
    ensures r.Ok? ==> (r.value == 0 <==> fields[0] in {"不喝", ""}) && (r.value == 0 || r.value == 1)
  {
    if |fields| != 1 then Err(WrongArity(1, |fields|))
    else
      var answer := fields[0];
      if answer != "不喝" && answer != "" then Ok(1)
      else if answer == "不喝" || answer == "" then Ok(0)
      else Err(Rejected)
  }

  /**
   * Betel answers are trimmed and drink answers are not: a padded refusal
   * counts as "no" for betel and as "yes" for coffee and tea.
   */
  lemma PaddedRefusals()
    ensures ParseBetel([" 不嚼 "]) == Ok(0)
    ensures ParseDrink([" 不喝 "]) == Ok(1)
    ensures ParseDrink([" "]) == Ok(1)
  {
    TrimSpacePadding([' '], "不嚼", [' ']);
    assert " 不嚼 " == [' '] + "不嚼" + [' '];
  }

  /** `parseFood`: 0 for a diet mentioning 素 (vegetarian), else 1; the answer is not trimmed. */
  function ParseFood(fields: seq<string>): (r: Result<int, ParseError>)
    ensures |fields| == 1 <==> r.Ok?
    ensures r.Ok? ==> (r.value == 0 <==> Contains(fields[0], "素")) && (r.value == 0 || r.value == 1)
  {
    if |fields| != 1 then Err(WrongArity(1, |fields|))
    else if Contains(fields[0], "素") then Ok(0)
    else Ok(1)
  }

  // --------------------------------------------------------------- exercise

  /**
   * `parseExcercise`: vigorous days, vigorous minutes, moderate days and
   * moderate minutes, read in that order (the first that fails is reported);
   * vigorous activity counts double.
   */
  function ParseExercise(fields: seq<string>): (r: Result<int, ParseError>)
    ensures |fields| == 4 && r.Err? ==> r == Err(BadInput(1)) || r == Err(BadInput(2)) || r == Err(BadInput(3)) || r == Err(BadInput(4))
    ensures r.Ok? ==> |fields| == 4
  {
    if |fields| != 4 then Err(WrongArity(4, |fields|))
    else
      match Str2Day(TrimSpace(fields[0]))
      case None => Err(BadInput(1))
      case Some(vigorousDays) =>
        match Str2Min(TrimSpace(fields[1]))
        case None => Err(BadInput(2))
        case Some(vigorousMinutes) =>
          match Str2Day(TrimSpace(fields[2]))
          case None => Err(BadInput(3))
          case Some(moderateDays) =>
            match Str2Min(TrimSpace(fields[3]))
            case None => Err(BadInput(4))
            case Some(moderateMinutes) => Ok(vigorousDays * vigorousMinutes * 2 + moderateDays * moderateMinutes)
  }

  /** When all four answers parse, vigorous days times minutes count double, plus the moderate product. */
  lemma ExerciseTotal(fields: seq<string>, d1: int, m1: int, d2: int, m2: int)
    requires |fields| == 4
    requires Str2Day(fields[0]) == Some(d1) && Str2Min(fields[1]) == Some(m1)
    requires Str2Day(fields[2]) == Some(d2) && Str2Min(fields[3]) == Some(m2)
    ensures ParseExercise(fields) == Ok(d1 * m1 * 2 + d2 * m2)
  {
    PreTrimmed(fields[0]);
    PreTrimmed(fields[1]);
    PreTrimmed(fields[2]);
    PreTrimmed(fields[3]);
  }

  /** The failure reported is the first answer, in reading order, that does not parse. */
  lemma ExerciseFirstFailure(fields: seq<string>)
    requires |fields| == 4
    ensures Str2Day(fields[0]).None? ==> ParseExercise(fields) == Err(BadInput(1))
    ensures Str2Day(fields[0]).Some? && Str2Min(fields[1]).None? ==> ParseExercise(fields) == Err(BadInput(2))
    ensures Str2Day(fields[0]).Some? && Str2Min(fields[1]).Some? && Str2Day(fields[2]).None? ==>
      ParseExercise(fields) == Err(BadInput(3))
    ensures Str2Day(fields[0]).Some? && Str2Min(fields[1]).Some? && Str2Day(fields[2]).Some? && Str2Min(fields[3]).None? ==>
      ParseExercise(fields) == Err(BadInput(4))
  {
    PreTrimmed(fields[0]);
    PreTrimmed(fields[1]);
    PreTrimmed(fields[2]);
    PreTrimmed(fields[3]);
  }

  // ---------------------------------------------------------- questionnaires

  /** The PSQI rule: seven answers, or the number of the first unanswerable question. */
  function PsqiScore(fields: seq<string>): (r: Result<int, ParseError>)
    ensures r.Ok? ==> 0 <= r.value <= 21
    ensures |fields| == 7 && r.Err? ==> exists k :: 1 <= k <= 7 && r == Err(BadInput(k))
  {
    if |fields| != 7 then Err(WrongArity(7, |fields|))
    else
      PsqiWellFormed();
      PsqiRange(fields);
      match Total(fields, PsqiQuestions)
      case Ok(t) => Ok(t)
      case Err(k) => Err(BadInput(k))
  }

  /** The BSRS-5 rule: five answers, or the number of the first unanswerable question. */
  function Bsrs5Score(fields: seq<string>): (r: Result<int, ParseError>)
    ensures r.Ok? ==> 0 <= r.value <= 20
    ensures |fields| == 5 && r.Err? ==> exists k :: 1 <= k <= 5 && r == Err(BadInput(k))
  {
    if |fields| != 5 then Err(WrongArity(5, |fields|))
    else
      Bsrs5WellFormed();
      Bsrs5Range(fields);
      match Total(fields, Bsrs5Questions)
      case Ok(t) => Ok(t)
      case Err(k) => Err(BadInput(k))
  }

  /** `parsePSQI`: scores the seven answers one after another. */
  method ParsePsqi(fields: seq<string>) returns (r: Result<int, ParseError>)
    ensures r == PsqiScore(fields)
  {
    if |fields| != 7 {
      return Err(WrongArity(7, |fields|));
    }
    PsqiWellFormed();
    var total := ScoreAnswers(fields, PsqiQuestions);
    match total
    case Ok(t) => r := Ok(t);
    case Err(k) => r := Err(BadInput(k));
  }

  /** `parseBSRS5`: scores the five answers one after another. */
  method ParseBsrs5(fields: seq<string>) returns (r: Result<int, ParseError>)
    ensures r == Bsrs5Score(fields)
  {
    if |fields| != 5 {
      return Err(WrongArity(5, |fields|));
    }
    Bsrs5WellFormed();
    var total := ScoreAnswers(fields, Bsrs5Questions);
    match total
    case Ok(t) => r := Ok(t);
    case Err(k) => r := Err(BadInput(k));
  }

  // ----------------------------------------------------------- urine glucose

  /** A urine-glucose mark of two pluses or more. */
  predicate HighGlucoseMark(reading: string) {
    Contains(reading, "2+") || Contains(reading, "3+") || Contains(reading, "4+")
  }

  /** The trace mark, in either spelling. */
  predicate TraceGlucoseMark(reading: string) {
    Contains(reading, "+/-") || Contains(reading, "+-")
  }

  /** A reading that states a normal result. */
  predicate NormalGlucose(reading: string) {
    Contains(reading, "normal") || Contains(reading, "NORMAL") || reading == "0" || reading == "-"
  }

  /**
   * `parseGlucoseU`: the highest tier the (untrimmed) reading mentions, tried
   * from the top: 2+/3+/4+ is 3, 1+ is 2, trace is 1, normal is 0.
   */
  function ParseGlucoseU(fields: seq<string>): (r: Result<int, ParseError>)
    ensures r.Ok? ==> 0 <= r.value <= 3
    ensures |fields| != 1 ==> r == Err(WrongArity(1, |fields|))
    ensures |fields| == 1 && HighGlucoseMark(fields[0]) ==> r == Ok(3)
    ensures |fields| == 1 && !HighGlucoseMark(fields[0]) && Contains(fields[0], "1+") ==> r == Ok(2)
    ensures (|fields| == 1 && !HighGlucoseMark(fields[0]) && !Contains(fields[0], "1+")
             && TraceGlucoseMark(fields[0])) ==> r == Ok(1)
    ensures (|fields| == 1 && !HighGlucoseMark(fields[0]) && !Contains(fields[0], "1+")
             && !TraceGlucoseMark(fields[0]) && NormalGlucose(fields[0])) ==> r == Ok(0)
    ensures r.Err? <==>
      (|fields| != 1 || (!HighGlucoseMark(fields[0]) && !Contains(fields[0], "1+")
                         && !TraceGlucoseMark(fields[0]) && !NormalGlucose(fields[0])))
  {
    if |fields| != 1 then Err(WrongArity(1, |fields|))
    else
      var reading := fields[0];
      if HighGlucoseMark(reading) then Ok(3)
      else if Contains(reading, "1+") then Ok(2)
      else if TraceGlucoseMark(reading) then Ok(1)
      else if NormalGlucose(reading) then Ok(0)
      else Err(Rejected)
  }

  /**
   * Sample readings: a 1+ strip with a note is 2, "normal" is 0, and a
   * reading with no mark at all is rejected.
   */
  lemma GlucoseReadings()
    ensures ParseGlucoseU(["1+ glucose"]) == Ok(2)
    ensures ParseGlucoseU(["normal"]) == Ok(0)
    ensures ParseGlucoseU(["trace"]) == Err(Rejected)
  {
    var one := "1+ glucose";
    MissingChar(one, "2+", 0);
    MissingChar(one, "3+", 0);
    MissingChar(one, "4+", 0);
    assert OccursAt(one, "1+", 0);
    var normal := "normal";
    MissingChar(normal, "2+", 1);
    MissingChar(normal, "3+", 1);
    MissingChar(normal, "4+", 1);
    MissingChar(normal, "1+", 1);
    MissingChar(normal, "+/-", 0);
    MissingChar(normal, "+-", 0);
    assert OccursAt(normal, "normal", 0);
    var trace := "trace";
    MissingChar(trace, "2+", 1);
    MissingChar(trace, "3+", 1);
    MissingChar(trace, "4+", 1);
    MissingChar(trace, "1+", 1);
    MissingChar(trace, "+/-", 0);
    MissingChar(trace, "+-", 0);
    MissingChar(trace, "normal", 0);
    MissingChar(trace, "NORMAL", 0);
  }

  /**
   * A reading classified by a mark it contains keeps at least that tier when
   * more text is added around it: the tiers are tried from the highest down.
   */
  lemma GlucoseTierRises(reading: string, pre: string, post: string)
    requires ParseGlucoseU([reading]).Ok? && reading != "0" && reading != "-"
    ensures ParseGlucoseU([pre + reading + post]).Ok?
    ensures ParseGlucoseU([reading]).value <= ParseGlucoseU([pre + reading + post]).value
  {
    var wider := pre + reading + post;
    forall mark | Contains(reading, mark) ensures Contains(wider, mark) {
      ContainsExtended(reading, post, mark);
      ContainsExtended(reading + post, pre, mark);
      assert pre + (reading + post) == wider;
    }
  }

  // ------------------------------------------------------ numeric selections

  /** One blood-pressure side, trimmed: 0 when blank or not a number. */
  function Reading(env: Env, raw: string): real {
    var s := TrimSpace(raw);
    match env.parseFloat(s)
    case None => 0.0
    case Some(v) => if s == "" then 0.0 else v
  }

  /**
   * `parseBP`: the mean of the right and left readings when both are positive,
   * else the positive one (right first); rejected when neither is.
   */
  function ParseBp(env: Env, fields: seq<string>): (r: Result<real, ParseError>)
    ensures r.Ok? ==> |fields| == 2 && r.value > 0.0
    ensures |fields| == 2 && Reading(env, fields[0]) > 0.0 && Reading(env, fields[1]) > 0.0 ==>
      r == Ok((Reading(env, fields[0]) + Reading(env, fields[1])) / 2.0)
    ensures |fields| == 2 ==> (r.Err? <==> Reading(env, fields[0]) <= 0.0 && Reading(env, fields[1]) <= 0.0)
  {
    if |fields| != 2 then Err(WrongArity(2, |fields|))
    else
      var right := Reading(env, fields[0]);
      var left := Reading(env, fields[1]);
      if right > 0.0 && left > 0.0 then Ok((right + left) / 2.0)
      else if right > 0.0 then Ok(right)
      else if left > 0.0 then Ok(left)
      else Err(Rejected)
  }

  /**
   * The blood pressure is the mean of the two sides when both are readings,
   * else the one side that is; either way it lies between the smaller and the
   * larger positive reading.
   */
  lemma BpBetweenReadings(env: Env, fields: seq<string>)
    requires |fields| == 2 && ParseBp(env, fields).Ok?
    ensures var right, left := Reading(env, fields[0]), Reading(env, fields[1]);
      var bp := ParseBp(env, fields).value;
      (right > 0.0 && left > 0.0 ==> bp == (right + left) / 2.0 && (right <= bp <= left || left <= bp <= right))
      && (right <= 0.0 ==> bp == left) && (left <= 0.0 ==> bp == right)
  {
  }

  /** `parseGirth`: the trimmed reading, accepted only within (30, 200]. */
  function ParseGirth(env: Env, fields: seq<string>): (r: Result<real, ParseError>)
    ensures r.Ok? ==> |fields| == 1 && 30.0 < r.value <= 200.0 && env.parseFloat(TrimSpace(fields[0])) == Some(r.value)
    ensures |fields| == 1 && env.parseFloat(TrimSpace(fields[0])).Some? ==>
      (r.Ok? <==> 30.0 < env.parseFloat(TrimSpace(fields[0])).value <= 200.0)
  {
    if |fields| != 1 then Err(WrongArity(1, |fields|))
    else
      match env.parseFloat(TrimSpace(fields[0]))
      case None => Err(BadInput(1))
      case Some(girth) => if 30.0 < girth <= 200.0 then Ok(girth) else Err(Rejected)
  }

  /** `parsePass`: the trimmed reading as it is. */
  function ParsePass(env: Env, fields: seq<string>): (r: Result<real, ParseError>)
    ensures r.Ok? <==> |fields| == 1 && env.parseFloat(TrimSpace(fields[0])).Some?
    ensures r.Ok? ==> env.parseFloat(TrimSpace(fields[0])) == Some(r.value)
  {
    if |fields| != 1 then Err(WrongArity(1, |fields|))
    else
      match env.parseFloat(TrimSpace(fields[0]))
      case None => Err(BadInput(1))
      case Some(v) => Ok(v)
  }

  /** `parseZeroDiscard`: the (untrimmed) reading, except that 0 is discarded. */
  function ParseZeroDiscard(env: Env, fields: seq<string>): (r: Result<real, ParseError>)
    ensures r.Ok? <==> |fields| == 1 && env.parseFloat(fields[0]).Some? && env.parseFloat(fields[0]).value != 0.0
    ensures r.Ok? ==> env.parseFloat(fields[0]) == Some(r.value)
    ensures |fields| == 1 && env.parseFloat(fields[0]).None? ==> r == Err(BadInput(1))
    ensures |fields| == 1 && env.parseFloat(fields[0]) == Some(0.0) ==> r == Err(Rejected)
  {
    if |fields| != 1 then Err(WrongArity(1, |fields|))
    else
      match env.parseFloat(fields[0])
      case None => Err(BadInput(1))
      case Some(v) => if v == 0.0 then Err(Rejected) else Ok(v)
  }

  /** Weight in kilograms over the square of height in metres. */
  function BodyMassIndex(heightCm: real, weightKg: real): real
    requires heightCm > 0.0
  {
    weightKg / (heightCm / 100.0) / (heightCm / 100.0)
  }

  /**
   * `parseBMI`: the reported BMI when it lies in (10, 60]; otherwise one
   * computed from height and weight, when both are positive and it lies in
   * (10, 60].
   */
  function ParseBmi(env: Env, fields: seq<string>): (r: Result<real, ParseError>)
    ensures r.Ok? ==> |fields| == 3 && 10.0 < r.value <= 60.0
  {
    if |fields| != 3 then Err(WrongArity(3, |fields|))
    else
      var reported := match env.parseFloat(TrimSpace(fields[2])) case Some(v) => v case None => -1.0;
      if 10.0 < reported <= 60.0 then Ok(reported)
      else
        match env.parseFloat(TrimSpace(fields[0]))
        case None => Err(BadInput(1))
        case Some(height) =>
          match env.parseFloat(TrimSpace(fields[1]))
          case None => Err(BadInput(2))
          case Some(weight) =>
            if height > 0.0 && weight > 0.0 && 10.0 < BodyMassIndex(height, weight) <= 60.0 then
              Ok(BodyMassIndex(height, weight))
            else Err(Rejected)
  }

  /** A plausible reported BMI wins without height or weight being read. */
  lemma BmiReportedWins(env: Env, height: string, weight: string, bmi: string)
    requires env.parseFloat(TrimSpace(bmi)).Some? && 10.0 < env.parseFloat(TrimSpace(bmi)).value <= 60.0
    ensures ParseBmi(env, [height, weight, bmi]) == Ok(env.parseFloat(TrimSpace(bmi)).value)
  {
  }

  /** Otherwise the BMI is computed: an implausible or missing report falls back to height and weight. */
  lemma BmiComputed(env: Env, height: string, weight: string, bmi: string)
    requires env.parseFloat(TrimSpace(bmi)).None? || !(10.0 < env.parseFloat(TrimSpace(bmi)).value <= 60.0)
    requires env.parseFloat(TrimSpace(height)).Some? && env.parseFloat(TrimSpace(weight)).Some?
    ensures var h, w := env.parseFloat(TrimSpace(height)).value, env.parseFloat(TrimSpace(weight)).value;
      ParseBmi(env, [height, weight, bmi]).Ok? <==> h > 0.0 && w > 0.0 && 10.0 < BodyMassIndex(h, w) <= 60.0
    ensures var h, w := env.parseFloat(TrimSpace(height)).value, env.parseFloat(TrimSpace(weight)).value;
      ParseBmi(env, [height, weight, bmi]).Ok? ==> h > 0.0 && ParseBmi(env, [height, weight, bmi]).value == BodyMassIndex(h, w)
  {
  }

  /** Without a plausible reported BMI, an unreadable height or weight is an error naming that input. */
  lemma BmiUnreadable(env: Env, height: string, weight: string, bmi: string)
    requires env.parseFloat(TrimSpace(bmi)).None? || !(10.0 < env.parseFloat(TrimSpace(bmi)).value <= 60.0)
    ensures env.parseFloat(TrimSpace(height)).None? ==> ParseBmi(env, [height, weight, bmi]) == Err(BadInput(1))
    ensures env.parseFloat(TrimSpace(height)).Some? && env.parseFloat(TrimSpace(weight)).None? ==>
      ParseBmi(env, [height, weight, bmi]) == Err(BadInput(2))
  {
  }

  /** The readings below the detection limit and the values they stand for. */
  function LimitValue(s: string, escaped: bool): Option<real> {
    if s == "<0.01" || (escaped && s == "&lt;0.01") then Some(0.005)
    else if s == "<0.02" || (escaped && s == "&lt;0.02") then Some(0.01)
    else None
  }

  /**
   * `parseHsCRP`: the current hsCRP field unless blank or "0", else the
   * discontinued one. Below-limit readings stand for half the limit (the
   * escaped `&lt;` form only in the current field). In the fallback, a
   * discontinued reading that is not a below-limit form is NOT parsed: the
   * (blank or "0") current field is parsed in its place.
   */
  function ParseHsCrp(env: Env, fields: seq<string>): (r: Result<real, ParseError>)
    ensures |fields| == 2 && LimitValue(TrimSpace(fields[0]), true).Some? ==> r == Ok(LimitValue(TrimSpace(fields[0]), true).value)
    ensures r.Ok? ==> |fields| == 2
    ensures r.Ok? && r.value != 0.005 && r.value != 0.01 ==> env.parseFloat(TrimSpace(fields[0])) == Some(r.value)
    ensures |fields| == 2 && !BlankOrZero(fields[0]) && LimitValue(TrimSpace(fields[0]), true).None? ==>
      r == (match env.parseFloat(TrimSpace(fields[0])) case Some(v) => Ok(v) case None => Err(BadInput(1)))
    ensures |fields| == 2 && BlankOrZero(fields[0]) && LimitValue(TrimSpace(fields[1]), false).Some? ==>
      r == Ok(LimitValue(TrimSpace(fields[1]), false).value)
    ensures |fields| == 2 && BlankOrZero(fields[0]) && BlankOrZero(fields[1]) ==> r == Err(Rejected)
    ensures (|fields| == 2 && BlankOrZero(fields[0]) && !BlankOrZero(fields[1])
             && LimitValue(TrimSpace(fields[1]), false).None?) ==>
      r == (match env.parseFloat(TrimSpace(fields[0])) case Some(v) => Ok(v) case None => Err(BadInput(2)))
  {
    if |fields| != 2 then Err(WrongArity(2, |fields|))
    else
      var current := TrimSpace(fields[0]);
      var discontinued := TrimSpace(fields[1]);
      if current != "" && current != "0" then
        match LimitValue(current, true)
        case Some(v) => Ok(v)
        case None =>
          match env.parseFloat(current)
          case None => Err(BadInput(1))
          case Some(v) => Ok(v)
      else if discontinued != "" && discontinued != "0" then
        match LimitValue(discontinued, false)
        case Some(v) => Ok(v)
        case None =>
          match env.parseFloat(current)
          case None => Err(BadInput(2))
          case Some(v) => Ok(v)
      else Err(Rejected)
  }

  /**
   * The fallback never reads the discontinued value: with a blank current
   * field every numeric discontinued reading fails, and with a "0" current
   * field every one of them gives 0.
   */
  lemma HsCrpFallbackIgnoresValue(env: Env, discontinued: string)
    requires ReadsBlankAndZero(env)
    requires !BlankOrZero(discontinued) && LimitValue(TrimSpace(discontinued), false).None?
    ensures ParseHsCrp(env, ["", discontinued]) == Err(BadInput(2))
    ensures ParseHsCrp(env, ["0", discontinued]) == Ok(0.0)
  {
    assert TrimSpace("") == "";
    assert Trimmed("0");
  }

  // ---------------------------------------------------------------- agatston

  /** `parseAgatston`: six report texts; the score they yield is supplied by the environment. */
  function ParseAgatston(env: Env, fields: seq<string>): (r: Result<real, ParseError>)
    ensures r.Ok? <==> |fields| == 6
    ensures r.Ok? ==> r.value == env.agatstonScore(fields)
  {
    if |fields| != 6 then Err(WrongArity(6, |fields|))
    else Ok(env.agatstonScore(fields))
  }
}
