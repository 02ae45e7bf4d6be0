/**
 * `extractdata` over the table as it stands in the program, and what the
 * table's shape guarantees about the errors it can report.
 */
module Extraction {
  import opened Rules
  import opened Schema
  import opened Table
  import opened Engine

  /**
   * `extractdata`: evaluates the rows of the table in order into one output
   * map and returns at the first row that fails, with that row's error.
   */
  method ExtractData(record: map<string, string>, env: Env) returns (result: Outcome)
    ensures result == Derive(Operations, record, env)
  {
    result := EvaluateRows(Operations, record, env);
  }

  /**
   * On the table as it stands, a row can only fail because the record lacks
   * one of its fields or because its rule rejects the values: never E010, and
   * never a field-count mismatch.
   */
  lemma TableCounts(record: map<string, string>, env: Env, k: nat)
    requires k < |Operations|
    ensures RowResult(Operations[k], record, env).Err? ==>
      RowResult(Operations[k], record, env).error.MissingField?
      || (RowResult(Operations[k], record, env).error.ParseFailed?
          && !RowResult(Operations[k], record, env).error.cause.WrongArity?)
  {
    RowsWellFormed();
    WellFormedRowCounts(Operations[k], record, env);
  }
}
