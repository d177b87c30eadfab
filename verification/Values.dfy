/** Values shared by the statement builders: bound parameters, result rows,
    the error kinds the builders raise, and the abstract database they dispatch to. */
module Values {

  /** A bound parameter value (a PHP scalar or null). Floating-point values are
      an opaque token: nothing in the builders computes with them. */
  datatype Value = Null | Bool(b: bool) | Int(i: int) | Str(s: string) | Float(token: nat)

  /** One fetched row: column name to value. */
  type Row = map<string, Value>

  datatype Option<+T> = None | Some(value: T)

  /** The exceptions the builders throw. QueryFailure keeps the driver's
      diagnostic text, the failed SQL text and the parameters as separate fields.
      NullStatement is the type error of passing a never-set (null) statement
      to the driver under strict typing. */
  datatype QueryError =
    | QueryFailure(diagnostic: string, sql: string, params: seq<Value>)
    | NullStatement
    | QueryResultsNotFound
    | InvalidArgument
    | MultipleResults

  datatype Result<+T> = Ok(value: T) | Err(error: QueryError)

  /** What the database answers to one bound-parameter dispatch: a failure with
      the driver's last error text (possibly empty), or the produced rows in order. */
  datatype DbOutcome = Fail(lastError: string) | Rows(rows: seq<Row>)

  /** The connection seen from the builders: the outcome of dispatching a SQL
      text together with its positional parameters. */
  type Database = (string, seq<Value>) -> DbOutcome
}
