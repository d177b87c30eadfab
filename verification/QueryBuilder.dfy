/** The statement builder and executor: a SQL text buffer with its ordered
    positional parameters, appended to step by step, dispatched to the database
    with the parameters bound, cleared after a successful dispatch, and the
    result-shaping variants built on that dispatch. */
module Query {

  import opened Values
  import opened Placeholders
  import PostgresService

  // ---------------------------------------------------------------------------
  // Boolean literals

  /** Encodes a native boolean as the one-character PostgreSQL literal. */
  function ConvertBoolToPostgresBool(b: bool): (r: string)
    ensures |r| == 1
    ensures r == PostgresService.BOOLEAN_TRUE || r == PostgresService.BOOLEAN_FALSE
    ensures r == PostgresService.BOOLEAN_TRUE <==> b
  {
    if b then PostgresService.BOOLEAN_TRUE else PostgresService.BOOLEAN_FALSE
  }

  /** Decodes a PostgreSQL boolean literal; anything but the two literals is an
      invalid argument. */
  function ConvertPostgresBoolToBool(pgBool: string): (r: Result<bool>)
    ensures r.Ok? <==> pgBool == "t" || pgBool == "f"
    ensures r.Ok? ==> (r.value <==> pgBool == "t")
    ensures r.Err? ==> r.error == InvalidArgument
  {
    if pgBool != PostgresService.BOOLEAN_TRUE && pgBool != PostgresService.BOOLEAN_FALSE then
      Err(InvalidArgument)
    else
      Ok(pgBool == PostgresService.BOOLEAN_TRUE)
  }

  /** Decoding an encoded boolean gives it back. */
  lemma BoolRoundTrip(b: bool)
    ensures ConvertPostgresBoolToBool(ConvertBoolToPostgresBool(b)) == Ok(b)
  {
  }

  /** Encoding a decoded literal gives the literal back. */
  lemma PostgresBoolRoundTrip(pgBool: string)
    requires ConvertPostgresBoolToBool(pgBool).Ok?
    ensures ConvertBoolToPostgresBool(ConvertPostgresBoolToBool(pgBool).value) == pgBool
  {
  }

  // ---------------------------------------------------------------------------
  // Blank strings

  /** The characters PHP's trim removes by default: space, tab, line feed,
      carriage return, NUL and vertical tab. */
  predicate IsTrimChar(c: char)
  {
    c == ' ' || c == '\t' || c == '\n' || c == '\r' || c == 0 as char || c == 11 as char
  }

  predicate Blank(s: string) { forall i :: 0 <= i < |s| ==> IsTrimChar(s[i]) }

  /** The number of trim characters `s` starts with. */
  function LeadingTrim(s: string): (k: nat)
    ensures k <= |s| && Blank(s[..k])
    ensures k < |s| ==> !IsTrimChar(s[k])
  {
    if |s| > 0 && IsTrimChar(s[0]) then
      var k := LeadingTrim(s[1..]);
      assert s[..k + 1] == [s[0]] + s[1..][..k];
      k + 1
    else 0
  }

  /** The length of `s` without the trim characters it ends with. */
  function KeptLength(s: string): (k: nat)
    ensures k <= |s| && Blank(s[k..])
    ensures k > 0 ==> !IsTrimChar(s[k - 1])
  {
    if |s| > 0 && IsTrimChar(s[|s| - 1]) then
      var k := KeptLength(s[..|s| - 1]);
      assert s[k..] == s[..|s| - 1][k..] + [s[|s| - 1]];
      k
    else |s|
  }

  /** PHP's trim with its default character set: `s` with its leading and its
      trailing trim characters removed and everything between them kept. */
  function Trim(s: string): (r: string)
    ensures exists i, j :: 0 <= i <= j <= |s| && r == s[i..j] && Blank(s[..i]) && Blank(s[j..])
    ensures |r| > 0 ==> !IsTrimChar(r[0]) && !IsTrimChar(r[|r| - 1])
  {
    var i := LeadingTrim(s);
    var k := KeptLength(s[i..]);
    assert s[i..][k..] == s[i + k..];
    assert k > 0 ==> s[i..][k - 1] == s[i + k - 1];
    s[i..i + k]
  }

  /** A string trims to nothing exactly when every character is one trim removes. */
  lemma TrimEmptyIffBlank(s: string)
    ensures |Trim(s)| == 0 <==> Blank(s)
  {
    var i := LeadingTrim(s);
    var rest := s[i..];
    var k := KeptLength(rest);
    assert Trim(s) == s[i..i + k];
    if k == 0 {
      // An all-blank rest means the leading run already covers all of `s`.
      assert i == |s| by {
        assert rest[0..] == rest;
      }
      assert s[..i] == s;
    } else {
      assert s[i + k - 1] == rest[k - 1];
    }
  }

  /** Null for null and for strings that are empty after trimming; any other
      string unchanged. */
  function ConvertEmptyToNull(incoming: Option<string>): (r: Option<string>)
    ensures r.None? <==> incoming.None? || Blank(incoming.value)
    ensures r.Some? ==> r == incoming
  {
    match incoming
    case None => None
    case Some(s) =>
      TrimEmptyIffBlank(s);
      if |Trim(s)| == 0 then None else incoming
  }

  /** Normalising twice is normalising once. */
  lemma ConvertEmptyToNullIdempotent(incoming: Option<string>)
    ensures ConvertEmptyToNull(ConvertEmptyToNull(incoming)) == ConvertEmptyToNull(incoming)
  {
  }

  // ---------------------------------------------------------------------------
  // WHERE operators

  const OPERATORS: seq<string> := ["=", "!=", "<", ">", "<=", ">=", "IS", "IS NOT", "LIKE", "ILIKE"]

  /** PHP's strtoupper: ASCII lower-case letters become upper case, all else stays. */
  function UpperChar(c: char): char
  {
    if 'a' <= c <= 'z' then (c as int - 32) as char else c
  }

  function LowerChar(c: char): char
  {
    if 'A' <= c <= 'Z' then (c as int + 32) as char else c
  }

  /** Upper-cases the ASCII letters and leaves every other character as it is. */
  function ToUpper(s: string): (r: string)
    ensures |r| == |s| && HasNoLowerCase(r)
    ensures forall i :: 0 <= i < |s| && 'a' <= s[i] <= 'z' ==> r[i] as int == s[i] as int - 32
    ensures forall i :: 0 <= i < |s| && !('a' <= s[i] <= 'z') ==> r[i] == s[i]
  {
    seq(|s|, i requires 0 <= i < |s| => UpperChar(s[i]))
  }

  function ToLower(s: string): (r: string)
    ensures |r| == |s|
  {
    seq(|s|, i requires 0 <= i < |s| => LowerChar(s[i]))
  }

  /** Whether `op`, compared case-insensitively, is one of the WHERE operators. */
  function ValidateWhereOperator(op: string): (r: bool)
    ensures r <==> exists i :: 0 <= i < |OPERATORS| && ToUpper(op) == OPERATORS[i]
    ensures r ==> 1 <= |op| <= 6
  {
    ToUpper(op) in OPERATORS
  }

  predicate HasNoLowerCase(s: string) { forall i :: 0 <= i < |s| ==> !('a' <= s[i] <= 'z') }

  lemma UpperOfLower(s: string)
    ensures ToUpper(ToLower(s)) == ToUpper(s)
  {
    forall i | 0 <= i < |s| ensures ToUpper(ToLower(s))[i] == ToUpper(s)[i] {
      assert ToLower(s)[i] == LowerChar(s[i]);
    }
  }

  lemma UpperFixesUpper(s: string)
    requires HasNoLowerCase(s)
    ensures ToUpper(s) == s
  {
  }

  /** Every operator is accepted as written and in lower case; the check depends
      only on the upper-cased spelling. */
  lemma ValidateWhereOperatorAcceptsEveryCase(op: string)
    requires op in OPERATORS
    ensures ValidateWhereOperator(op)
    ensures ValidateWhereOperator(ToLower(op))
  {
    UpperFixesUpper(op);
    UpperOfLower(op);
  }

  /** Spellings that differ only in case are judged alike. */
  lemma ValidateWhereOperatorIgnoresCase(a: string, b: string)
    requires ToLower(a) == ToLower(b)
    ensures ValidateWhereOperator(a) == ValidateWhereOperator(b)
  {
    UpperOfLower(a);
    UpperOfLower(b);
  }

  /** `xs` joined with `sep` between consecutive elements. */
  function Join(xs: seq<string>, sep: string): string
  {
    if |xs| == 0 then ""
    else if |xs| == 1 then xs[0]
    else Join(xs[..|xs| - 1], sep) + sep + xs[|xs| - 1]
  }

  /** The WHERE operators as a comma-separated list. */
  method GetWhereOperatorsText() returns (ops: string)
    ensures ops == Join(OPERATORS, ", ")
    ensures ops == "=, !=, <, >, <=, >=, IS, IS NOT, LIKE, ILIKE"
  {
    ops := "";
    var opCount := 1;
    var i := 0;
    while i < |OPERATORS|
      invariant 0 <= i <= |OPERATORS| && opCount == i + 1
      invariant ops == Join(OPERATORS[..i], ", ") + (if 0 < i < |OPERATORS| then ", " else "")
    {
      assert OPERATORS[..i + 1][..i] == OPERATORS[..i];
      ops := ops + OPERATORS[i];
      if opCount < |OPERATORS| {
        ops := ops + ", ";
      }
      opCount := opCount + 1;
      i := i + 1;
    }
    assert OPERATORS[..i] == OPERATORS;
    OperatorsText();
  }

  lemma OperatorsText()
    ensures Join(OPERATORS, ", ") == "=, !=, <, >, <=, >=, IS, IS NOT, LIKE, ILIKE"
  {
    var sep := ", ";
    assert Join(OPERATORS[..1], sep) == "=";
    assert Join(OPERATORS[..2], sep) == "=, !=" by { assert OPERATORS[..2][..1] == OPERATORS[..1]; }
    assert Join(OPERATORS[..3], sep) == "=, !=, <" by { assert OPERATORS[..3][..2] == OPERATORS[..2]; }
    assert Join(OPERATORS[..4], sep) == "=, !=, <, >" by { assert OPERATORS[..4][..3] == OPERATORS[..3]; }
    assert Join(OPERATORS[..5], sep) == "=, !=, <, >, <=" by { assert OPERATORS[..5][..4] == OPERATORS[..4]; }
    assert Join(OPERATORS[..6], sep) == "=, !=, <, >, <=, >=" by { assert OPERATORS[..6][..5] == OPERATORS[..5]; }
    assert Join(OPERATORS[..7], sep) == "=, !=, <, >, <=, >=, IS" by { assert OPERATORS[..7][..6] == OPERATORS[..6]; }
    assert Join(OPERATORS[..8], sep) == "=, !=, <, >, <=, >=, IS, IS NOT" by { assert OPERATORS[..8][..7] == OPERATORS[..7]; }
    assert Join(OPERATORS[..9], sep) == "=, !=, <, >, <=, >=, IS, IS NOT, LIKE" by { assert OPERATORS[..9][..8] == OPERATORS[..8]; }
    assert OPERATORS[..10] == OPERATORS;
    assert OPERATORS[..10][..9] == OPERATORS[..9];
  }

  // ---------------------------------------------------------------------------
  // Boolean coercion of parameters

  function AlteredBooleanArg(v: Value): Value
  {
    match v
    case Bool(b) => Str(ConvertBoolToPostgresBool(b))
    case _ => v
  }

  /** The parameters with every native boolean replaced by its literal: the
      same length, no boolean left, each literal decoding to the boolean it
      replaced, every other value untouched. */
  function AlteredBooleanArgs(ps: seq<Value>): (r: seq<Value>)
    ensures |r| == |ps|
    ensures forall i :: 0 <= i < |r| ==> !r[i].Bool?
    ensures forall i :: 0 <= i < |r| && ps[i].Bool? ==>
      r[i].Str? && ConvertPostgresBoolToBool(r[i].s) == Ok(ps[i].b)
    ensures forall i :: 0 <= i < |r| && !ps[i].Bool? ==> r[i] == ps[i]
  {
    seq(|ps|, i requires 0 <= i < |ps| => AlteredBooleanArg(ps[i]))
  }

  /** Coercing twice is coercing once. */
  lemma AlteredBooleanArgsIdempotent(ps: seq<Value>)
    ensures AlteredBooleanArgs(AlteredBooleanArgs(ps)) == AlteredBooleanArgs(ps)
  {
  }

  /** The parameters actually bound by execute(alterBooleanArgs). */
  function DispatchedArgs(alterBooleanArgs: bool, ps: seq<Value>): (r: seq<Value>)
    ensures |r| == |ps|
    ensures !alterBooleanArgs ==> r == ps
    ensures alterBooleanArgs ==> r == AlteredBooleanArgs(ps)
    ensures alterBooleanArgs ==> forall i :: 0 <= i < |r| ==> !r[i].Bool?
    ensures forall i :: 0 <= i < |r| && !ps[i].Bool? ==> r[i] == ps[i]
  {
    if alterBooleanArgs then AlteredBooleanArgs(ps) else ps
  }

  // ---------------------------------------------------------------------------
  // Dispatch and result shapes

  /** The outcome of one dispatch of `text` with `args`: the rows, or a
      QueryFailure carrying the driver's text, the SQL text and the parameters. */
  function Dispatch(db: Database, text: string, args: seq<Value>): (r: Result<seq<Row>>)
    ensures r.Ok? <==> db(text, args).Rows?
    ensures r.Ok? ==> r.value == db(text, args).rows
    ensures r.Err? ==> r.error == QueryFailure(db(text, args).lastError, text, args)
  {
    match db(text, args)
    case Fail(lastError) => Err(QueryFailure(lastError, text, args))
    case Rows(rows) => Ok(rows)
  }

  /** execute's dispatch of the builder's statement: a statement never set is a
      null query argument, which the strictly typed driver call refuses before
      reaching the database; a set statement is dispatched. */
  function Submit(db: Database, sql: Option<string>, args: seq<Value>): (r: Result<seq<Row>>)
    ensures sql.None? ==> r == Err(NullStatement)
    ensures sql.Some? ==> r == Dispatch(db, sql.value, args)
    ensures r.Ok? ==> sql.Some? && db(sql.value, args) == Rows(r.value)
  {
    if sql.None? then Err(NullStatement) else Dispatch(db, sql.value, args)
  }

  /** executeGetArray's shape: null instead of an empty list, otherwise every row in order. */
  function AllRows(rows: seq<Row>): (r: Option<seq<Row>>)
    ensures r.None? <==> |rows| == 0
    ensures r.Some? ==> r.value == rows
  {
    if |rows| == 0 then None else Some(rows)
  }

  /** executeGetArrayOneRow's shape: the first row, or null when there is none. */
  function FirstRow(rows: seq<Row>): (r: Option<Row>)
    ensures r.None? <==> |rows| == 0
    ensures r.Some? ==> r.value == rows[0]
  {
    match AllRows(rows)
    case None => None
    case Some(all) => Some(all[0])
  }

  /** getRow's shape: null for no row, the row for one row, an error for more. */
  function SingleRow(rows: seq<Row>): (r: Result<Option<Row>>)
    ensures |rows| == 0 ==> r == Ok(None)
    ensures |rows| == 1 ==> r == Ok(Some(rows[0]))
    ensures |rows| >= 2 ==> r == Err(MultipleResults)
  {
    if |rows| == 0 then Ok(None)
    else if |rows| == 1 then Ok(Some(rows[0]))
    else Err(MultipleResults)
  }

  /** The strict single-row shape agrees with the lenient one up to one row,
      and rejects exactly the results on which the lenient one picks the first row. */
  lemma SingleRowRefinesFirstRow(rows: seq<Row>)
    ensures SingleRow(rows).Ok? <==> |rows| <= 1
    ensures SingleRow(rows).Ok? ==> SingleRow(rows).value == FirstRow(rows)
  {
  }

  /** recordExists holds exactly when there is one row. */
  lemma RecordExistsIffOneRow(rows: seq<Row>)
    ensures (SingleRow(rows).Ok? && SingleRow(rows).value.Some?) <==> |rows| == 1
  {
  }

  /** A row's value for a column, null when the column is missing (PHP reads an
      undefined key as null). */
  function FieldOf(row: Row, field: string): (r: Value)
    ensures field in row ==> r == row[field]
    ensures r != Null ==> field in row && row[field] == r
  {
    if field in row then row[field] else Null
  }

  /** One column of every row, in row order. */
  method ProjectField(rows: seq<Row>, field: string) returns (vals: seq<Value>)
    ensures |vals| == |rows|
    ensures forall i :: 0 <= i < |rows| ==> vals[i] == FieldOf(rows[i], field)
  {
    vals := [];
    var i := 0;
    while i < |rows|
      invariant 0 <= i <= |rows| && |vals| == i
      invariant forall j :: 0 <= j < i ==> vals[j] == FieldOf(rows[j], field)
    {
      vals := vals + [FieldOf(rows[i], field)];
      i := i + 1;
    }
  }

  /** executeWithReturnField's shape: the field of the first row; no row is
      QueryResultsNotFound; a missing or null field is InvalidArgument. */
  function ReturnedField(rows: seq<Row>, field: string): (r: Result<Value>)
    ensures |rows| == 0 ==> r == Err(QueryResultsNotFound)
    ensures |rows| > 0 && (field !in rows[0] || rows[0][field] == Null) ==> r == Err(InvalidArgument)
    ensures |rows| > 0 && field in rows[0] && rows[0][field] != Null ==> r == Ok(rows[0][field])
    ensures r.Ok? ==> |rows| > 0 && field in rows[0] && r.value == rows[0][field] && r.value != Null
  {
    if |rows| > 0 then
      if field !in rows[0] || rows[0][field] == Null then Err(InvalidArgument)
      else Ok(rows[0][field])
    else Err(QueryResultsNotFound)
  }

  /** The text emitted by nullExpression for a null value. */
  function IsNullText(name: string): string { name + " IS null" }

  /** The clause appended by executeWithReturnField. */
  function ReturningText(field: string): string { " RETURNING " + field }

  // ---------------------------------------------------------------------------
  // The builder

  class QueryBuilder {
    /** The SQL text; null until something is appended or set. */
    var sql: Option<string>
    var params: seq<Value>

    /** The SQL text as `.=` reads it: a never-set (null) text reads as empty. */
    function Text(): (r: string)
      reads this
      ensures sql.Some? ==> r == sql.value
      ensures sql.None? ==> r == ""
    {
      if sql.Some? then sql.value else ""
    }

    /** The statement keeps the placeholder numbering invariant. */
    ghost predicate Numbered()
      reads this
    {
      WellNumbered(Text(), params)
    }

    /** The state after an execute whose dispatch gave `e`: cleared on success,
        otherwise the text `before` and the parameters `args` as dispatched. */
    predicate Settled(e: Result<seq<Row>>, before: Option<string>, args: seq<Value>)
      reads this
    {
      if e.Ok? then sql == Some("") && params == [] else sql == before && params == args
    }

    /** A builder with no statement yet. */
    constructor ()
      ensures sql == None && params == []
      ensures Numbered()
    {
      sql := None;
      params := [];
    }

    /** A builder seeded like `add(s, args...)`. */
    constructor Seeded(s: string, args: seq<Value>)
      ensures sql == Some(s) && params == args
    {
      sql := Some(s);
      params := args;
    }

    /** Appends text and parameters in call order. Appending a fragment that
        numbers its placeholders after the existing ones keeps the numbering. */
    method Add(s: string, args: seq<Value>)
      modifies this
      ensures sql == Some(old(Text()) + s) && params == old(params) + args
      ensures (old(Numbered()) && PlaceholderNumbers(s) == Numbering(|old(params)|, |args|)
               && !(EndsOpen(old(Text())) && StartsWithDigit(s))) ==> Numbered()
    {
      sql := Some(Text() + s);
      if args != [] {
        params := params + args;
      }
      if old(Numbered()) && PlaceholderNumbers(s) == Numbering(|old(params)|, |args|)
         && !(EndsOpen(old(Text())) && StartsWithDigit(s)) {
        PlaceholdersConcat(old(Text()), s);
        NumberingSplit(0, |old(params)|, |args|);
      }
    }

    /** `name IS null` for null; otherwise binds the value as the last parameter
        and appends `name = $N`, N the new number of parameters. */
    method NullExpression(name: string, param: Value)
      modifies this
      ensures param == Null ==> sql == Some(old(Text()) + IsNullText(name)) && params == old(params)
      ensures param != Null ==> params == old(params) + [param]
                                && params[|params| - 1] == param
                                && sql == Some(old(Text()) + Equality(name, |params|))
      ensures (old(Numbered()) && '$' !in name && !(EndsOpen(old(Text())) && StartsWithDigit(name)))
              ==> Numbered()
    {
      if param == Null {
        sql := Some(Text() + IsNullText(name));
      } else {
        params := params + [param];
        var paramNum := |params|;
        sql := Some(Text() + Equality(name, paramNum));
      }
      if old(Numbered()) && '$' !in name && !(EndsOpen(old(Text())) && StartsWithDigit(name)) {
        if param == Null {
          assert '$' !in IsNullText(name);
          NoDollarNoPlaceholders(IsNullText(name));
          PlaceholdersConcat(old(Text()), IsNullText(name));
        } else {
          EqualityPlaceholders(name, |params|);
          assert StartsWithDigit(Equality(name, |params|)) ==> StartsWithDigit(name) by {
            if |name| > 0 { assert Equality(name, |params|)[0] == name[0]; }
          }
          PlaceholdersConcat(old(Text()), Equality(name, |params|));
        }
      }
    }

    /** Replaces text and parameters wholesale. */
    method Set(s: string, ps: seq<Value>)
      modifies this
      ensures sql == Some(s) && params == ps
    {
      sql := Some(s);
      params := ps;
    }

    /** Clears text and parameters. */
    method ResetQuery()
      modifies this
      ensures sql == Some("") && params == []
      ensures Numbered()
    {
      sql := Some("");
      params := [];
    }

    method GetSql() returns (r: Option<string>)
      ensures r == sql
    {
      r := sql;
    }

    method GetParams() returns (r: seq<Value>)
      ensures r == params
    {
      r := params;
    }

    method GetArgs() returns (r: seq<Value>)
      ensures r == params
    {
      r := GetParams();
    }

    /** Rewrites every native boolean parameter, in place, to its literal. */
    method AlterBooleanArgs()
      modifies this
      ensures params == AlteredBooleanArgs(old(params)) && sql == old(sql)
    {
      var argIndex := 0;
      while argIndex < |params|
        invariant 0 <= argIndex <= |params| == |old(params)|
        invariant forall j :: 0 <= j < argIndex ==> params[j] == AlteredBooleanArg(old(params)[j])
        invariant forall j :: argIndex <= j < |params| ==> params[j] == old(params)[j]
        invariant sql == old(sql)
      {
        if params[argIndex].Bool? {
          params := params[argIndex := Str(ConvertBoolToPostgresBool(params[argIndex].b))];
        }
        argIndex := argIndex + 1;
      }
    }

    /** Optionally coerces booleans, then dispatches the statement; clears it on
        success, keeps it (with the coercion applied) on failure. A statement
        never set is refused before any dispatch. */
    method Execute(alterBooleanArgs: bool, db: Database) returns (r: Result<seq<Row>>)
      modifies this
      ensures r == Submit(db, old(sql), DispatchedArgs(alterBooleanArgs, old(params)))
      ensures Settled(r, old(sql), DispatchedArgs(alterBooleanArgs, old(params)))
    {
      if alterBooleanArgs {
        AlterBooleanArgs();
      }
      if sql.None? {
        r := Err(NullStatement);
      } else {
        match db(sql.value, params)
        case Fail(lastError) =>
          r := Err(QueryFailure(lastError, sql.value, params));
        case Rows(rows) =>
          ResetQuery();
          r := Ok(rows);
      }
    }

    /** All rows, or null when there are none. */
    method ExecuteGetArray(alterBooleanArgs: bool, db: Database) returns (r: Result<Option<seq<Row>>>)
      modifies this
      ensures var e := Submit(db, old(sql), DispatchedArgs(alterBooleanArgs, old(params)));
        && Settled(e, old(sql), DispatchedArgs(alterBooleanArgs, old(params)))
        && r == if e.Err? then Err(e.error) else Ok(AllRows(e.value))
    {
      var e := Execute(alterBooleanArgs, db);
      if e.Err? {
        r := Err(e.error);
      } else {
        r := Ok(AllRows(e.value));
      }
    }

    /** One column of every row, or null when there are no rows. */
    method ExecuteGetArrayOneField(fieldName: string, alterBooleanArgs: bool, db: Database)
      returns (r: Result<Option<seq<Value>>>)
      modifies this
      ensures var e := Submit(db, old(sql), DispatchedArgs(alterBooleanArgs, old(params)));
        && Settled(e, old(sql), DispatchedArgs(alterBooleanArgs, old(params)))
        && (e.Err? ==> r == Err(e.error))
        && (e.Ok? && |e.value| == 0 ==> r == Ok(None))
        && (e.Ok? && |e.value| > 0 ==>
              && r.Ok? && r.value.Some? && |r.value.value| == |e.value|
              && forall i :: 0 <= i < |e.value| ==> r.value.value[i] == FieldOf(e.value[i], fieldName))
    {
      var resultsArray := ExecuteGetArray(alterBooleanArgs, db);
      if resultsArray.Err? {
        r := Err(resultsArray.error);
      } else if resultsArray.value.None? {
        r := Ok(None);
      } else {
        var results := ProjectField(resultsArray.value.value, fieldName);
        r := Ok(Some(results));
      }
    }

    /** The first row, or null when there are none; more rows are not an error. */
    method ExecuteGetArrayOneRow(alterBooleanArgs: bool, db: Database) returns (r: Result<Option<Row>>)
      modifies this
      ensures var e := Submit(db, old(sql), DispatchedArgs(alterBooleanArgs, old(params)));
        && Settled(e, old(sql), DispatchedArgs(alterBooleanArgs, old(params)))
        && r == if e.Err? then Err(e.error) else Ok(FirstRow(e.value))
    {
      var resultsArray := ExecuteGetArray(alterBooleanArgs, db);
      if resultsArray.Err? {
        r := Err(resultsArray.error);
      } else if resultsArray.value.None? {
        r := Ok(None);
      } else {
        r := Ok(Some(resultsArray.value.value[0]));
      }
    }

    /** Appends ` RETURNING field`, executes, and returns the field of the first
        row. The statement is dispatched, and cleared on success, before the
        rows are examined. */
    method ExecuteWithReturnField(returnField: string, alterBooleanArgs: bool, db: Database)
      returns (r: Result<Value>)
      modifies this
      ensures var text := old(Text()) + ReturningText(returnField);
        var args := DispatchedArgs(alterBooleanArgs, old(params));
        var e := Dispatch(db, text, args);
        && Settled(e, Some(text), args)
        && r == if e.Err? then Err(e.error) else ReturnedField(e.value, returnField)
    {
      Add(ReturningText(returnField), []);
      assert params == old(params) && Text() == old(Text()) + ReturningText(returnField);
      var result := Execute(alterBooleanArgs, db);
      if result.Err? {
        r := Err(result.error);
      } else {
        r := ReturnedField(result.value, returnField);
      }
    }

    /** Executes without boolean coercion and requires at most one row. */
    method GetRow(db: Database) returns (r: Result<Option<Row>>)
      modifies this
      ensures var e := Submit(db, old(sql), old(params));
        && Settled(e, old(sql), old(params))
        && r == if e.Err? then Err(e.error) else SingleRow(e.value)
    {
      var result := Execute(false, db);
      if result.Err? {
        r := Err(result.error);
      } else {
        var numRecords := |result.value|;
        if numRecords == 0 {
          r := Ok(None);
        } else if numRecords == 1 {
          r := Ok(Some(result.value[0]));
        } else {
          r := Err(MultipleResults);
        }
      }
    }

    /** Whether getRow finds a row. */
    method RecordExists(db: Database) returns (r: Result<bool>)
      modifies this
      ensures var e := Submit(db, old(sql), old(params));
        && Settled(e, old(sql), old(params))
        && (e.Err? ==> r == Err(e.error))
        && (e.Ok? && |e.value| >= 2 ==> r == Err(MultipleResults))
        && (e.Ok? && |e.value| <= 1 ==> r == Ok(|e.value| == 1))
    {
      var row := GetRow(db);
      if row.Err? {
        r := Err(row.error);
      } else {
        r := Ok(row.value.Some?);
      }
    }
  }
}
