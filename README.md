# parser_for_health: the derivation engine, in Dafny

This project models the record-derivation core of `parserxml/main.go`. An
input record is a map from raw field names to strings. A fixed, ordered table
(`operations`) binds each output key to the input fields it reads and to the
rule that derives it. `extractdata` walks the table, and `parsedata` evaluates
one row. Evaluation stops at the first row that fails, with error code E010
(the row names no field), E011 (the record lacks a field) or E012 (the rule
rejects the values). On success every row has written its value into the
output map under its key.

The rules turn questionnaire answers and measurements into codes, scores and
readings:
- sex;
- disease and family history flags;
- alcohol, cigarette, betel, coffee, tea and diet habits;
- exercise minutes, read through the `str2Day`/`str2Min` duration grammars;
- the PSQI and BSRS-5 questionnaire totals, scored through `convertToScore`;
- urine glucose;
- blood pressure, girth, BMI, hsCRP and the pass-through readings.

Modules:
- `Wrappers` (wrappers.dfy): `Option`, `Result` and the first-index search that every early-return loop performs.
- `Text` (text.dfy): `strings.TrimSpace` (with `unicode.IsSpace`), `strings.Contains` and `strconv.Atoi`, with `Itoa` (never called by the program) used only to state what `Atoi` reads back.
- `Durations` (durations.dfy): `str2Day` and `str2Min`. Each regular expression is an explicit leftmost scan; RE2's `\d` is an ASCII digit.
- `Scoring` (scoring.dfy): `convertToScore`, questionnaire totals, and the PSQI and BSRS-5 question tables.
- `Rules` (rules.dfy): every rule of the table.
- `Schema` (schema.dfy): the shape of a table row (its rule, label, output key and input fields) and what it takes for a row to suit its rule.
- `Table` (table.dfy): the 143 rows of `operations`, in order.
- `Engine` (engine.dfy): `initResult`, `parsedata` and the loop of `extractdata`, over any table.
- `Extraction` (extraction.dfy): `extractdata` over the table itself.

Number parsing, date parsing and the Agatston text extraction are library
services. They are fields of an `Env` value (`parseFloat`, `dayNumber`,
`agatstonScore`), so every result is stated relative to what those services
return.

## Model

| member | source | states |
|---|---|---|
| Wrappers.FirstTrue | parserxml/main.go:363-370 | the index found is the first at which the condition holds; none is found exactly when it holds nowhere |
| Text.TrimSpace | parserxml/main.go:295 | the result is trimmed, is empty exactly for blank input, and leaves already trimmed text unchanged |
| Text.TrimSpaceInside | parserxml/main.go:295 | the trimmed text occurs in the original |
| Text.TrimSpacePadding | parserxml/main.go:295 | trimming removes exactly the white-space padding around a trimmed text |
| Text.Atoi | parserxml/main.go:301 | accepts exactly an optional sign followed by at least one digit; the value is the digits' value, negated after a minus |
| Text.AtoiForms | parserxml/main.go:301 | "+5", "007" and "-0" are read as 5, 7 and 0; a lone sign and surrounding spaces are rejected |
| Text.AtoiItoa | parserxml/main.go:301 | Atoi reads back every integer Itoa writes |
| Text.ContainsTransitive | parserxml/main.go:365 | a substring of a substring is a substring |
| Text.MissingChar | parserxml/main.go:365 | text lacking one character of a string does not contain that string |
| Durations.FindLeftmost | parserxml/main.go:311-330 | the match reported is the leftmost; none is reported exactly when the pattern matches nowhere |
| Durations.Str2Day | parserxml/main.go:338-360 | blank text is 0 days; failure only on non-blank text that is not an integer; a count read off 天 is never negative |
| Durations.Str2Min | parserxml/main.go:293-335 | blank text is 0 minutes; failure only on non-blank text that is not an integer; minutes read off 小時 or 分鐘 are never negative |
| Durations.BlankIsZero | parserxml/main.go:295-298 | a blank answer is 0 days and 0 minutes |
| Durations.IntegerAnswer | parserxml/main.go:301-304 | any trimmed text that `strconv.Atoi` accepts, with a sign or leading zeros, is taken as its value by both grammars |
| Durations.BareInteger | parserxml/main.go:301-304 | every integer in its usual spelling is taken as it is by both grammars |
| Durations.DaysText | parserxml/main.go:350-357 | "N天" gives N days |
| Durations.DayMatchHasMark | parserxml/main.go:351-357 | a day count is only read off a 天 |
| Durations.DaysOtherwiseFail | parserxml/main.go:338-360 | text that is not blank, not an integer and has no 天 is an error |
| Durations.HoursMinutesText | parserxml/main.go:307-318 | "H小時M分鐘" gives H*60+M minutes |
| Durations.HoursText | parserxml/main.go:308-325 | "H小時" gives H*60 minutes |
| Durations.MinutesText | parserxml/main.go:309-331 | "M分鐘" gives M minutes |
| Durations.NoMinuteMark | parserxml/main.go:307 | the hour-minute pattern needs a literal 分: it matches nowhere in "H小時M" |
| Durations.MinutesNeedTheirMark | parserxml/main.go:307-325 | "H小時M" gives H*60: the minutes are not read without their 分 |
| Durations.MinuteMatchHasMark | parserxml/main.go:307-331 | minutes are only read off a 小時 or a 分鐘 |
| Durations.MinutesOtherwiseFail | parserxml/main.go:293-335 | text that is not blank, not an integer and has neither 小時 nor 分鐘 is an error |
| Durations.PreTrimmed | parserxml/main.go:295-340 | both grammars trim, so trimming beforehand changes nothing |
| Scoring.ScoreOfMeaning | parserxml/main.go:363-370 | an answer scores exactly when it contains a category, and then scores what the first such category is worth |
| Scoring.ConvertToScore | parserxml/main.go:363-370 | the loop with early return yields the score of the first contained category, or none |
| Scoring.Total | parserxml/main.go:851-917 | a failing questionnaire names a question between 1 and its length |
| Scoring.TotalMeaning | parserxml/main.go:851-917 | a total exists exactly when every answer matches; otherwise the question named is the first unmatched one |
| Scoring.TotalFailsEarly | parserxml/main.go:858-860 | a failure among the first questions is the failure of the whole questionnaire |
| Scoring.TotalBounds | parserxml/main.go:851-917 | a total lies between 0 and the number of questions times the top score |
| Scoring.ScoreAnswers | parserxml/main.go:851-917 | the accumulating loop computes the questionnaire total or the first unmatched question |
| Scoring.PsqiWellFormed | parserxml/main.go:853-916 | the seven PSQI questions have one score per category, each within 0..3 |
| Scoring.Bsrs5WellFormed | parserxml/main.go:929-974 | the five BSRS-5 questions have one score per category, each within 0..4 |
| Scoring.PsqiRange | parserxml/main.go:844-918 | a PSQI total lies in 0..21 |
| Scoring.Bsrs5Range | parserxml/main.go:920-976 | a BSRS-5 total lies in 0..20 |
| Scoring.SleepQualityNeverZero | parserxml/main.go:886-891 | question 5 never scores 0: "非常好" contains 好, which is tried first, so it scores 1 |
| Rules.YearsBetweenBounds | parserxml/main.go:478-482 | the age is the number of whole 365.25-day years between the dates |
| Rules.YearsBetweenSwapped | parserxml/main.go:482 | the conversion truncates toward zero |
| Rules.CalculateAge | parserxml/main.go:464-484 | two fields or a field-count error; succeeds exactly when both trimmed dates parse, with the whole years between them; dates in order give a non-negative age |
| Rules.ParseSex | parserxml/main.go:486-500 | only a trimmed 男 (1) or 女 (0) is accepted |
| Rules.SexRoundTrip | parserxml/main.go:486-500 | each sex code is read back from its answer, whatever padding surrounds it |
| Rules.KeywordFlag | parserxml/main.go:502-530 | the nested scan with early return gives 1 exactly when some input contains some keyword |
| Rules.ParseDiseaseHistory | parserxml/main.go:502-515 | 1 exactly when some input mentions 有, 治療, 藥物 or 手術; never an error |
| Rules.ParseFamilyHistory | parserxml/main.go:517-530 | 1 exactly when some input mentions 父親, 母親, 祖父母 or 外組父母; never an error |
| Rules.HistoryFlagMonotone | parserxml/main.go:502-530 | adding inputs can turn a 0 flag into 1, never back |
| Rules.HistoryFlagOne | parserxml/main.go:505-513 | a single input flags exactly when it contains a keyword |
| Rules.AlcoholClass | parserxml/main.go:660-693 | the alcohol class is 0, 1 or 2 |
| Rules.ParseAlcohol | parserxml/main.go:660-693 | trims the day counts in place, keeps the frequency, and returns the alcohol class of the original fields |
| Rules.TrimDays | parserxml/main.go:670-672 | the seven day counts are replaced by their trimmed forms and nothing else changes |
| Rules.AllDaysZero | parserxml/main.go:673-681 | the flag stays set exactly when every trimmed day count is "0" or blank |
| Rules.AlcoholBlankFrequency | parserxml/main.go:675 | a blank or "0" frequency gives class 2, whatever the day counts |
| Rules.AlcoholDrinkingDays | parserxml/main.go:676-680 | any day count other than blank or "0" gives class 2 |
| Rules.AlcoholQuietWeek | parserxml/main.go:683-692 | with a quiet week, 社交飲酒 gives 1, else 無飲酒 gives 0, and anything else is an error |
| Rules.ParseCigarette | parserxml/main.go:695-727 | four fields never fail; 2 exactly when the current amount or years smoked is stated; 0 exactly when nothing is |
| Rules.ParseBetel | parserxml/main.go:730-755 | 0 exactly when the trimmed answer is 不嚼 or blank, else 1 |
| Rules.ParseDrink | parserxml/main.go:757-781 | 0 exactly when the untrimmed answer is 不喝 or empty, else 1 |
| Rules.PaddedRefusals | parserxml/main.go:738-765 | a padded refusal is "no" for betel but "yes" for coffee and tea |
| Rules.ParseFood | parserxml/main.go:783-800 | 0 exactly when the untrimmed answer contains 素, else 1 |
| Rules.ParseExercise | parserxml/main.go:802-841 | on four fields a failure names one of the four answers |
| Rules.ExerciseTotal | parserxml/main.go:816-840 | vigorous days times minutes count double, plus moderate days times minutes |
| Rules.ExerciseFirstFailure | parserxml/main.go:816-836 | the failure reported is the first answer, in reading order, that does not parse |
| Rules.PsqiScore | parserxml/main.go:844-918 | a score lies in 0..21; with seven answers a failure names a question 1..7 |
| Rules.Bsrs5Score | parserxml/main.go:920-976 | a score lies in 0..20; with five answers a failure names a question 1..5 |
| Rules.ParsePsqi | parserxml/main.go:844-918 | the method computes the PSQI score |
| Rules.ParseBsrs5 | parserxml/main.go:920-976 | the method computes the BSRS-5 score |
| Rules.ParseGlucoseU | parserxml/main.go:1000-1024 | one field or a field-count error; 2+, 3+ or 4+ gives 3, else 1+ gives 2, else +/- or +- gives 1, else normal, NORMAL, "0" or "-" gives 0; an error exactly when none of these applies |
| Rules.GlucoseReadings | parserxml/main.go:1011-1023 | "1+ glucose" is tier 2, "normal" is tier 0, and "trace" is rejected |
| Rules.GlucoseTierRises | parserxml/main.go:1011-1023 | added text never lowers a tier read off a mark |
| Rules.ParseBp | parserxml/main.go:601-640 | fails exactly when neither side is positive; with both sides positive the result is their mean; any result is positive |
| Rules.BpBetweenReadings | parserxml/main.go:613-639 | with two positive readings the result is their mean and lies between them; otherwise it is the positive side |
| Rules.ParseGirth | parserxml/main.go:580-599 | a parsed girth is accepted exactly when it lies in (30, 200] |
| Rules.ParsePass | parserxml/main.go:642-658 | succeeds exactly when the trimmed reading parses, and returns it |
| Rules.ParseZeroDiscard | parserxml/main.go:978-998 | succeeds exactly when the untrimmed reading parses to a non-zero number, and returns it; an unparsable reading names input 1 and 0 is rejected |
| Rules.ParseBmi | parserxml/main.go:532-578 | every accepted BMI comes from three fields and lies in (10, 60] |
| Rules.BmiReportedWins | parserxml/main.go:544-552 | a plausible reported BMI is returned without height or weight being read |
| Rules.BmiComputed | parserxml/main.go:554-577 | otherwise the computed BMI is accepted exactly when both measures are positive and it is plausible, and the value is weight over height in metres squared |
| Rules.BmiUnreadable | parserxml/main.go:554-562 | otherwise an unparsable height fails naming input 1, and a parsable height with an unparsable weight fails naming input 2 |
| Rules.ParseHsCrp | parserxml/main.go:1026-1073 | a current reading other than blank or "0" gives half the limit when below it, else its parsed value or an error naming input 1; with a blank or "0" current reading a below-limit discontinued one gives half its limit, and any other discontinued reading makes the current field be parsed in its place (its value, or an error naming input 2); both blank or "0" is an error |
| Rules.HsCrpFallbackIgnoresValue | parserxml/main.go:1055-1069 | the fallback parses the current field, not the discontinued one: a blank current field fails and a "0" one gives 0 |
| Rules.ParseAgatston | parserxml/main.go:1075-1144 | six fields or a field-count error; the score is the one extracted from the six texts |
| Table.RowsWellFormed | parserxml/main.go:30-184 | the table has 143 rows; each names a field and gives its rule exactly the fields the rule insists on |
| Engine.Derivation | parserxml/main.go:36-183 | a rule fails with a field-count error exactly when it is given a count other than the one it insists on |
| Engine.Apply | parserxml/main.go:450 | calling a row's rule yields what that rule derives |
| Engine.FirstMissing | parserxml/main.go:440-447 | finds the first field name the record lacks, and none exactly when all are present |
| Engine.InitResult | parserxml/main.go:201-208 | no error and no data |
| Engine.RowResult | parserxml/main.go:427-461 | a row that succeeds names at least one field; a missing-field error names a field of the row that the record lacks; a rule failure names the row's output key |
| Engine.RowPrecedence | parserxml/main.go:427-461 | E010 before E011 (the first absent field) before E012, which names the output key; present fields, even empty, are never missing |
| Engine.RowCodes | parserxml/main.go:427-461 | a failing row reports E010 exactly when it names no field, E011 exactly when the record lacks one of its fields, and E012 exactly when all are present |
| Engine.RowLocality | parserxml/main.go:440-448 | a row's outcome depends only on the record's entries for its own fields |
| Engine.ParseData | parserxml/main.go:427-462 | returns no data and the row's error, or writes the row's value at its output key only, leaving the map otherwise unchanged |
| Engine.CollectFailsEarly | parserxml/main.go:416-421 | a failure among the first rows is the failure of the whole table |
| Engine.EvaluateRows | parserxml/main.go:400-425 | the loop with early return computes the table's outcome |
| Extraction.ExtractData | parserxml/main.go:400-425 | the outcome of evaluating the table |
| Engine.DeriveOutcome | parserxml/main.go:400-425 | success exactly when every row succeeds, with one key per row; otherwise no data and the error of the lowest failing row |
| Engine.DeriveValues | parserxml/main.go:449-459 | with distinct output keys, each row's value sits at its own key |
| Engine.LaterRowsIrrelevant | parserxml/main.go:418-420 | rows after a failure cannot change the outcome |
| Engine.WellFormedRowCounts | parserxml/main.go:431-447 | a well-formed row fails only for a missing field or a rejected value |
| Extraction.TableCounts | parserxml/main.go:30-184 | no row of the table can fail with E010 or with a field-count error |

## Left out

- File and envelope ingestion (`readXmlFile`, `readTxtFile`, `extractGetDataResult`, `checkHaveData`, `processFile`), `compareCSVWithData` and `main`: these do file I/O, XML/JSON decoding and printing.
- `handlePanic`: it traps Go runtime panics, and the model has no such faults.
- `strconv.ParseFloat`, `time.Parse` and the regular-expression extraction inside `parseAgatston` are not modelled. They are the uninterpreted `Env` services.
- Rules.ParseAgatston: states only the field-count check and that the score comes from the six texts; the extraction, float summation and maximum are not modelled.
- Rules.CalculateAge: dates are day numbers, and `Duration.Hours()/24/365.25` is exact rational arithmetic. Duration saturation beyond about 292 years is not modelled.
- Rules.ParseBmi, Rules.ParseBp: the arithmetic is over `real`, not IEEE double, so rounding, NaN and infinities are not modelled.
- Text.Atoi: the 64-bit range check of `strconv.Atoi` is not modelled, and neither is overflow in the exercise product (`int` is unbounded).
- Errors carry their code and the step that failed, not the formatted message text. The rules' `label` argument is used only in those messages, so it is not modelled.
- Scoring.ScoreAnswers: the hand-unrolled blocks of `parsePSQI` and `parseBSRS5` are modelled as one loop over a question table, which behaves the same.
- Strings are sequences of code points. Go works on UTF-8 bytes, and the two agree for valid UTF-8; invalid UTF-8 is not modelled.
- Engine.DeriveValues: it assumes distinct output keys. The table's rows do have distinct keys, but that is not proved in the model. With a repeated key, the later row's value would win.
- The value written by `parsedata` is Go's `interface{}`. Here it is `Value`: an integer or a real.
