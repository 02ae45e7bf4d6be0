/**
 * The derivation engine: `parsedata` evaluates one table row against an input
 * record, and `extractdata` walks the whole table, stopping at the first row
 * that fails. On success the result carries one entry per row, keyed by the
 * row's output key; on failure it carries the failing row's error and no data.
 */
module Engine {
  import opened Wrappers
  import opened Rules
  import opened Schema

  /** A derived value: an integer code or score, or a measurement. */
  datatype Value = IntV(int) | RealV(real)

  /** The three ways a row can fail, with their error codes. */
  datatype Failure =
    | InvalidSpec(colLabel: string)                   // E010: the row names no input field
    | MissingField(field: string)                     // E011: the record lacks an input field
    | ParseFailed(colName: string, cause: ParseError) // E012: the rule failed; names the output key

  function Code(f: Failure): string {
    match f
    case InvalidSpec(_) => "E010"
    case MissingField(_) => "E011"
    case ParseFailed(_, _) => "E012"
  }

  /** The result record: an error (absent on success) and the derived data. */
  datatype Outcome = Outcome(failure: Option<Failure>, data: map<string, Value>)

  /** `initResult`: no error and no data. */
  function InitResult(): (r: Outcome)
    ensures r.failure.None? && |r.data| == 0
  {
    Outcome(None, map[])
  }

  /** The output map that `parsedata` writes into through a pointer. */
  class ParsedJson {
    var entries: map<string, Value>

    constructor ()
      ensures entries == map[]
    {
      entries := map[];
    }
  }

  function AsInt(r: Result<int, ParseError>): Result<Value, ParseError> {
    match r
    case Ok(v) => Ok(IntV(v))
    case Err(e) => Err(e)
  }

  function AsReal(r: Result<real, ParseError>): Result<Value, ParseError> {
    match r
    case Ok(v) => Ok(RealV(v))
    case Err(e) => Err(e)
  }

  /**
   * What the rule a row names makes of the row's input values. A rule that
   * insists on a number of inputs fails with WrongArity exactly when given
   * another number.
   */
  function Derivation(p: Parser, inputs: seq<string>, env: Env): (r: Result<Value, ParseError>)
    ensures Arity(p).Some? && |inputs| != Arity(p).value ==> r == Err(WrongArity(Arity(p).value, |inputs|))
    ensures Arity(p).None? || |inputs| == Arity(p).value ==> !(r.Err? && r.error.WrongArity?)
  {
    match p
    case Age => AsInt(CalculateAge(env, inputs))
    case Sex => AsInt(ParseSex(inputs))
    case DiseaseHistory => Ok(IntV(HistoryFlag(inputs, DiseaseKeywords)))
    case FamilyHistory => Ok(IntV(HistoryFlag(inputs, FamilyKeywords)))
    case ZeroDiscard => AsReal(ParseZeroDiscard(env, inputs))
    case Agatston => AsReal(ParseAgatston(env, inputs))
    case Bmi => AsReal(ParseBmi(env, inputs))
    case Girth => AsReal(ParseGirth(env, inputs))
    case Bp => AsReal(ParseBp(env, inputs))
    case Pass => AsReal(ParsePass(env, inputs))
    case Alcohol => AsInt(AlcoholClass(inputs))
    case Cigarette => AsInt(ParseCigarette(inputs))
    case Betel => AsInt(ParseBetel(inputs))
    case Drink => AsInt(ParseDrink(inputs))
    case Food => AsInt(ParseFood(inputs))
    case Exercise => AsInt(ParseExercise(inputs))
    case Psqi => AsInt(PsqiScore(inputs))
    case Bsrs5 => AsInt(Bsrs5Score(inputs))
    case GlucoseU => AsInt(ParseGlucoseU(inputs))
    case HsCrp => AsReal(ParseHsCrp(env, inputs))
  }

  /** Calls the rule a row names (`parsefunction(modelcollabel, fieldValues)`). */
  method Apply(p: Parser, inputs: seq<string>, env: Env) returns (r: Result<Value, ParseError>)
    ensures r == Derivation(p, inputs, env)
  {
    match p {
      case DiseaseHistory =>
        var flag := ParseDiseaseHistory(inputs);
        r := Ok(IntV(flag));
      case FamilyHistory =>
        var flag := ParseFamilyHistory(inputs);
        r := Ok(IntV(flag));
      case Alcohol =>
        var fields := new string[|inputs|](i requires 0 <= i < |inputs| => inputs[i]);
        assert fields[..] == inputs;
        var c := ParseAlcohol(fields);
        r := AsInt(c);
      case Psqi =>
        var c := ParsePsqi(inputs);
        r := AsInt(c);
      case Bsrs5 =>
        var c := ParseBsrs5(inputs);
        r := AsInt(c);
      case Age => r := AsInt(CalculateAge(env, inputs));
      case Sex => r := AsInt(ParseSex(inputs));
      case ZeroDiscard => r := AsReal(ParseZeroDiscard(env, inputs));
      case Agatston => r := AsReal(ParseAgatston(env, inputs));
      case Bmi => r := AsReal(ParseBmi(env, inputs));
      case Girth => r := AsReal(ParseGirth(env, inputs));
      case Bp => r := AsReal(ParseBp(env, inputs));
      case Pass => r := AsReal(ParsePass(env, inputs));
      case Cigarette => r := AsInt(ParseCigarette(inputs));
      case Betel => r := AsInt(ParseBetel(inputs));
      case Drink => r := AsInt(ParseDrink(inputs));
      case Food => r := AsInt(ParseFood(inputs));
      case Exercise => r := AsInt(ParseExercise(inputs));
      case GlucoseU => r := AsInt(ParseGlucoseU(inputs));
      case HsCrp => r := AsReal(ParseHsCrp(env, inputs));
    }
  }

  // ------------------------------------------------------------- one row

  /** The position of the first field name the record lacks, if any. */
  function FirstMissing(fields: seq<string>, record: map<string, string>): (r: Option<nat>)
    ensures r.Some? ==> r.value < |fields| && fields[r.value] !in record
    ensures r.Some? ==> forall j :: 0 <= j < r.value ==> fields[j] in record
    ensures r.None? <==> forall j :: 0 <= j < |fields| ==> fields[j] in record
  {
    var absent := seq(|fields|, i requires 0 <= i < |fields| => fields[i] !in record);
    assert forall j :: 0 <= j < |fields| ==> (absent[j] <==> fields[j] !in record);
    FirstTrue(absent)
  }

  /** The record's values for the given field names, in order. */
  function Gather(fields: seq<string>, record: map<string, string>): (values: seq<string>)
    requires forall j :: 0 <= j < |fields| ==> fields[j] in record
    ensures |values| == |fields| && forall j :: 0 <= j < |fields| ==> values[j] == record[fields[j]]
  {
    seq(|fields|, i requires 0 <= i < |fields| => record[fields[i]])
  }

  /**
   * What `parsedata` makes of one row: E010 when it names no field, else E011
   * for the first field the record lacks, else E012 when the rule fails, else
   * the rule's value.
   */
  function RowResult(op: Op, record: map<string, string>, env: Env): (r: Result<Value, Failure>)
    ensures r.Ok? ==> |op.fields| >= 1
    ensures r.Err? && r.error.MissingField? ==> r.error.field in op.fields && r.error.field !in record
    ensures r.Err? && r.error.ParseFailed? ==> r.error.colName == op.colName
  {
    if |op.fields| < 1 then Err(InvalidSpec(op.colLabel))
    else
      match FirstMissing(op.fields, record)
      case Some(i) => Err(MissingField(op.fields[i]))
      case None =>
        match Derivation(op.parser, Gather(op.fields, record), env)
        case Ok(v) => Ok(v)
        case Err(e) => Err(ParseFailed(op.colName, e))
  }

  /**
   * The error precedence of `parsedata`: an empty field list first, then the
   * first missing field, then the rule; a field present with an empty value is
   * not missing.
   */
  lemma RowPrecedence(op: Op, record: map<string, string>, env: Env)
    ensures |op.fields| == 0 ==> RowResult(op, record, env) == Err(InvalidSpec(op.colLabel))
    ensures |op.fields| > 0 && (exists j :: 0 <= j < |op.fields| && op.fields[j] !in record) ==>
      exists j :: 0 <= j < |op.fields| && op.fields[j] !in record
        && (forall i :: 0 <= i < j ==> op.fields[i] in record)
        && RowResult(op, record, env) == Err(MissingField(op.fields[j]))
    ensures |op.fields| > 0 && (forall j :: 0 <= j < |op.fields| ==> op.fields[j] in record) ==>
      (RowResult(op, record, env).Ok? || RowResult(op, record, env).error.ParseFailed?)
      && (RowResult(op, record, env).Err? ==> RowResult(op, record, env).error.colName == op.colName)
  {
    if |op.fields| > 0 && (exists j :: 0 <= j < |op.fields| && op.fields[j] !in record) {
      var j := FirstMissing(op.fields, record).value;
      assert op.fields[j] !in record;
    }
  }

  /** The error code `parsedata` reports for each way a row can fail. */
  lemma RowCodes(op: Op, record: map<string, string>, env: Env)
    requires RowResult(op, record, env).Err?
    ensures Code(RowResult(op, record, env).error) == "E010" <==> |op.fields| == 0
    ensures Code(RowResult(op, record, env).error) == "E011" <==>
      |op.fields| > 0 && exists j :: 0 <= j < |op.fields| && op.fields[j] !in record
    ensures Code(RowResult(op, record, env).error) == "E012" <==>
      |op.fields| > 0 && forall j :: 0 <= j < |op.fields| ==> op.fields[j] in record
  {
    RowPrecedence(op, record, env);
  }

  /** A row's outcome depends only on the record's entries for the fields the row names. */
  lemma RowLocality(op: Op, r1: map<string, string>, r2: map<string, string>, env: Env)
    requires forall j :: 0 <= j < |op.fields| ==> (op.fields[j] in r1 <==> op.fields[j] in r2)
    requires forall j :: 0 <= j < |op.fields| && op.fields[j] in r1 ==> r1[op.fields[j]] == r2[op.fields[j]]
    ensures RowResult(op, r1, env) == RowResult(op, r2, env)
  {
    var s1 := seq(|op.fields|, i requires 0 <= i < |op.fields| => op.fields[i] !in r1);
    var s2 := seq(|op.fields|, i requires 0 <= i < |op.fields| => op.fields[i] !in r2);
    assert s1 == s2;
    if FirstMissing(op.fields, r1).None? {
      assert Gather(op.fields, r1) == Gather(op.fields, r2);
    }
  }

  /**
   * `parsedata`: checks the field list, collects the field values in order
   * (stopping at the first missing one), applies the rule, and only on
   * success writes the value into the output map, at the row's output key.
   * The result it returns carries no data.
   */
  method ParseData(op: Op, out: ParsedJson, record: map<string, string>, env: Env) returns (result: Outcome)
    modifies out
    ensures result.data == map[]
    ensures RowResult(op, record, env).Err? ==>
      result.failure == Some(RowResult(op, record, env).error) && out.entries == old(out.entries)
    ensures RowResult(op, record, env).Ok? ==>
      result.failure == None && out.entries == old(out.entries)[op.colName := RowResult(op, record, env).value]
  {
    result := InitResult();
    if |op.fields| < 1 {
      return Outcome(Some(InvalidSpec(op.colLabel)), map[]);
    }
    var fieldValues: seq<string> := [];
    var i := 0;
    while i < |op.fields|
      invariant 0 <= i <= |op.fields|
      invariant forall j :: 0 <= j < i ==> op.fields[j] in record
      invariant |fieldValues| == i && forall j :: 0 <= j < i ==> fieldValues[j] == record[op.fields[j]]
    {
      var name := op.fields[i];
      if name in record {
        fieldValues := fieldValues + [record[name]];
      } else {
        assert FirstMissing(op.fields, record) == Some(i);
        return Outcome(Some(MissingField(name)), map[]);
      }
      i := i + 1;
    }
    assert fieldValues == Gather(op.fields, record);
    var parsed := Apply(op.parser, fieldValues, env);
    match parsed {
      case Err(e) =>
        return Outcome(Some(ParseFailed(op.colName, e)), map[]);
      case Ok(v) =>
        out.entries := out.entries[op.colName := v];
    }
  }

  // ----------------------------------------------------------- the table

  /** The rows evaluated in order: the map they build, or the first failure. */
  function Collect(ops: seq<Op>, record: map<string, string>, env: Env): (r: Result<map<string, Value>, Failure>)
    decreases |ops|
  {
    if ops == [] then Ok(map[])
    else
      var n := |ops|;
      match Collect(ops[..n - 1], record, env)
      case Err(f) => Err(f)
      case Ok(m) =>
        match RowResult(ops[n - 1], record, env)
        case Err(f) => Err(f)
        case Ok(v) =>
          Ok(m[ops[n - 1].colName := v])
  }

  /** The outcome of evaluating a table: all the data, or the first failure and no data. */
  function Derive(ops: seq<Op>, record: map<string, string>, env: Env): (r: Outcome)
  {
    match Collect(ops, record, env)
    case Ok(m) => Outcome(None, m)
    case Err(f) => Outcome(Some(f), map[])
  }

  /** A failure among the first n rows is the failure of the whole table. */
  lemma {:induction false} CollectFailsEarly(ops: seq<Op>, record: map<string, string>, env: Env, n: nat)
    requires n <= |ops| && Collect(ops[..n], record, env).Err?
    ensures Collect(ops, record, env) == Collect(ops[..n], record, env)
    decreases |ops| - n
  {
    if n < |ops| {
      var m := |ops|;
      assert ops[..m - 1][..n] == ops[..n];
      CollectFailsEarly(ops[..m - 1], record, env, n);
    } else {
      assert ops[..n] == ops;
    }
  }

  /** The loop of `extractdata`, over any table. */
  method EvaluateRows(ops: seq<Op>, record: map<string, string>, env: Env) returns (result: Outcome)
    ensures result == Derive(ops, record, env)
  {
    var parsed := new ParsedJson();
    result := InitResult();
    var i := 0;
    while i < |ops|
      invariant 0 <= i <= |ops|
      invariant Collect(ops[..i], record, env) == Ok(parsed.entries)
      invariant result.failure == None
    {
      result := ParseData(ops[i], parsed, record, env);
      assert ops[..i + 1][..i] == ops[..i];
      if result.failure.Some? {
        CollectFailsEarly(ops, record, env, i + 1);
        return;
      }
      i := i + 1;
    }
    assert ops[..i] == ops;
    result := Outcome(result.failure, parsed.entries);
  }

  // ------------------------------------------------------- what it yields

  /** Row k is the first row that fails. */
  predicate FirstFailure(ops: seq<Op>, record: map<string, string>, env: Env, k: nat)
    requires k < |ops|
  {
    RowResult(ops[k], record, env).Err? && forall j :: 0 <= j < k ==> RowResult(ops[j], record, env).Ok?
  }

  function Names(ops: seq<Op>): set<string> {
    set k | 0 <= k < |ops| :: ops[k].colName
  }

  predicate DistinctNames(ops: seq<Op>) {
    forall i, j :: 0 <= i < j < |ops| ==> ops[i].colName != ops[j].colName
  }

  /**
   * The evaluation succeeds exactly when every row does, and then yields one
   * entry per output key; otherwise it reports the lowest failing row's
   * error, with no data.
   */
  lemma {:induction false} DeriveOutcome(ops: seq<Op>, record: map<string, string>, env: Env)
    ensures Derive(ops, record, env).failure.None? <==> forall k :: 0 <= k < |ops| ==> RowResult(ops[k], record, env).Ok?
    ensures Derive(ops, record, env).failure.None? ==> Derive(ops, record, env).data.Keys == Names(ops)
    ensures Derive(ops, record, env).failure.Some? ==>
      Derive(ops, record, env).data == map[]
      && (exists k :: 0 <= k < |ops| && FirstFailure(ops, record, env, k)
            && Derive(ops, record, env).failure == Some(RowResult(ops[k], record, env).error))
    decreases |ops|
  {
    if ops != [] {
      var n := |ops|;
      var front := ops[..n - 1];
      DeriveOutcome(front, record, env);
      assert forall k :: 0 <= k < n - 1 ==> front[k] == ops[k];
      match Collect(front, record, env)
      case Err(f) => {
        var k :| 0 <= k < n - 1 && FirstFailure(front, record, env, k)
          && Some(f) == Some(RowResult(front[k], record, env).error);
        assert FirstFailure(ops, record, env, k);
      }
      case Ok(m) => {
        if RowResult(ops[n - 1], record, env).Err? {
          assert FirstFailure(ops, record, env, n - 1);
        } else {
          assert Names(ops) == Names(front) + {ops[n - 1].colName};
        }
      }
    }
  }

  /** With distinct output keys, each row's value sits at its own key. */
  lemma {:induction false} DeriveValues(ops: seq<Op>, record: map<string, string>, env: Env)
    requires DistinctNames(ops) && Derive(ops, record, env).failure.None?
    ensures forall k :: 0 <= k < |ops| ==>
      ops[k].colName in Derive(ops, record, env).data && RowResult(ops[k], record, env).Ok?
      && Derive(ops, record, env).data[ops[k].colName] == RowResult(ops[k], record, env).value
    decreases |ops|
  {
    if ops != [] {
      var n := |ops|;
      var front := ops[..n - 1];
      assert DistinctNames(front);
      assert Collect(front, record, env).Ok? && RowResult(ops[n - 1], record, env).Ok?;
      assert forall k :: 0 <= k < n - 1 ==> front[k] == ops[k];
      DeriveValues(front, record, env);
    }
  }

  /** Once a row fails, the rows after it are never evaluated: they cannot change the outcome. */
  lemma LaterRowsIrrelevant(ops: seq<Op>, more: seq<Op>, record: map<string, string>, env: Env)
    requires Derive(ops, record, env).failure.Some?
    ensures Derive(ops + more, record, env) == Derive(ops, record, env)
  {
    assert (ops + more)[..|ops|] == ops;
    CollectFailsEarly(ops + more, record, env, |ops|);
  }

  /** A well-formed row never fails for want of fields or for a wrong field count. */
  lemma WellFormedRowCounts(op: Op, record: map<string, string>, env: Env)
    requires WellFormedRow(op)
    ensures RowResult(op, record, env).Err? ==>
      RowResult(op, record, env).error.MissingField?
      || (RowResult(op, record, env).error.ParseFailed? && !RowResult(op, record, env).error.cause.WrongArity?)
  {
    if |op.fields| >= 1 && FirstMissing(op.fields, record).None? {
      var inputs := Gather(op.fields, record);
      assert Arity(op.parser).None? || |inputs| == Arity(op.parser).value;
    }
  }
}
