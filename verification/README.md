# PostgreSQL statement builder, modelled in Dafny

This project models the statement-building core of a PHP PostgreSQL layer:

- `QueryBuilder` (module `Query`, file `QueryBuilder.dfy`) holds a SQL text and an
  ordered list of positional parameters. Callers append to both (`add`,
  `nullExpression`), replace them (`set`) or clear them (`resetQuery`). `execute`
  optionally rewrites native booleans to the literals `'t'`/`'f'`, dispatches the
  text with the parameters bound, and clears the statement only when the dispatch
  succeeds. The result-shaping variants (`executeGetArray`, `executeGetArrayOneField`,
  `executeGetArrayOneRow`, `getRow`, `recordExists`, `executeWithReturnField`) are
  built on it. The static helpers convert booleans, normalise blank strings and
  check WHERE operators.
- `UpdateBuilder` (module `Update`, file `UpdateBuilder.dfy`) builds
  `UPDATE t SET c1 = $1, c2 = $2, ... WHERE w = $n`. It numbers each SET placeholder
  from the running parameter count and binds the WHERE value last.
- The constant table of `PostgresService` (module `PostgresService`) holds the
  numeric type names, the integer bounds and the boolean literals.

Shared pieces: `Values.dfy` has the parameter values, rows, error kinds and the
abstract database. `Placeholders.dfy` renders `$N` and reads a SQL text back as the
list of placeholder numbers it mentions. It also defines the statement invariant
`WellNumbered`: the placeholders are `$1` .. `$n` in order, n being the number of
parameters.

The database is a parameter of every execute-family method. It is a function from
(SQL text, parameters) to an outcome: `Fail(lastError)` or `Rows(rows)`. It stands
for `pg_query_params` on the builder's connection. Every QueryBuilder method states
its whole new state. The numbering invariant is carried as an implication:
`add` keeps it when the appended fragment continues the numbering, and
`nullExpression` keeps it when the name contains no `$`; both also need the
seam to be safe, that is, the old text does not end in a digit or `$` while the
appended text starts with a digit (otherwise the digits would run together
into one larger placeholder number). `UpdateBuilder`'s synthesised statement is proved to satisfy it whenever
no identifier contains `$`.

## Model

| member | source | states |
|---|---|---|
| `Query.ConvertBoolToPostgresBool` | src/Infrastructure/PostgreSQL/Query/QueryBuilder.php:279-282 | The result is one character, one of the two literals, and is the true literal exactly when the input is true |
| `Query.ConvertPostgresBoolToBool` | src/Infrastructure/PostgreSQL/Query/QueryBuilder.php:270-277 | Succeeds exactly on `"t"` and `"f"`, giving true exactly for `"t"`; any other string is InvalidArgument |
| `Query.BoolRoundTrip` | src/Infrastructure/PostgreSQL/Query/QueryBuilder.php:270-282 | Decoding the encoding of a boolean gives that boolean back |
| `Query.PostgresBoolRoundTrip` | src/Infrastructure/PostgreSQL/Query/QueryBuilder.php:270-282 | Encoding a successfully decoded literal gives the literal back |
| `Query.TrimEmptyIffBlank` | src/Infrastructure/PostgreSQL/Query/QueryBuilder.php:287 | A string trims to length 0 exactly when every character is in PHP's default trim set (space, tab, LF, CR, NUL, vertical tab) |
| `Query.ConvertEmptyToNull` | src/Infrastructure/PostgreSQL/Query/QueryBuilder.php:285-292 | Null exactly for null or an all-trim-character string; any other input comes back unchanged |
| `Query.ConvertEmptyToNullIdempotent` | src/Infrastructure/PostgreSQL/Query/QueryBuilder.php:285-292 | Normalising a normalised value changes nothing |
| `Query.ValidateWhereOperator` | src/Infrastructure/PostgreSQL/Query/QueryBuilder.php:226-229 | True exactly when the upper-cased input equals one of the ten operators; a valid input has 1 to 6 characters |
| `Query.ValidateWhereOperatorAcceptsEveryCase` | src/Infrastructure/PostgreSQL/Query/QueryBuilder.php:17 | Every listed operator validates both as written and in lower case |
| `Query.ValidateWhereOperatorIgnoresCase` | src/Infrastructure/PostgreSQL/Query/QueryBuilder.php:226-229 | Two spellings that differ only in letter case get the same verdict |
| `Query.GetWhereOperatorsText` | src/Infrastructure/PostgreSQL/Query/QueryBuilder.php:231-243 | The loop yields the operators joined by `", "`, with no separator after the last one; that text is `=, !=, <, >, <=, >=, IS, IS NOT, LIKE, ILIKE` |
| `Query.OperatorsText` | src/Infrastructure/PostgreSQL/Query/QueryBuilder.php:17 | The operator list joined by `", "` is the literal text above |
| `Query.AlteredBooleanArgs` | src/Infrastructure/PostgreSQL/Query/QueryBuilder.php:79-86 | Same length; no boolean remains; each former boolean is a literal that decodes back to it; every other value is untouched |
| `Query.AlteredBooleanArgsIdempotent` | src/Infrastructure/PostgreSQL/Query/QueryBuilder.php:79-86 | Coercing already coerced parameters changes nothing |
| `Query.Dispatch` | src/Infrastructure/PostgreSQL/Query/QueryBuilder.php:95-103 | Success exactly when the database returns rows, with those rows; a failure is QueryFailure carrying the driver text, the SQL text and the bound parameters |
| `Query.Trim` | src/Infrastructure/PostgreSQL/Query/QueryBuilder.php:287 | PHP's default `trim`: the result is the contiguous slice of the input left after removing a run of trim characters (space, tab, LF, CR, NUL, vertical tab) from each end, and, when non-empty, neither starts nor ends with a trim character |
| `Query.ToUpper` | src/Infrastructure/PostgreSQL/Query/QueryBuilder.php:228 | `strtoupper`: same length, no lower-case ASCII letter left, each lower-case letter shifted to its capital and every other character unchanged |
| `Query.DispatchedArgs` | src/Infrastructure/PostgreSQL/Query/QueryBuilder.php:90-92 | Without coercion the parameters as they are; with it, exactly `AlteredBooleanArgs` of them (each boolean becomes `'t'`/`'f'`), so none is a boolean; non-booleans are untouched either way |
| `Query.Submit` | src/Infrastructure/PostgreSQL/Query/QueryBuilder.php:95-103 | A statement never set is refused with NullStatement, the type error of a null query argument under strict types; a set statement is dispatched as in Dispatch |
| `Query.FieldOf` | src/Infrastructure/PostgreSQL/Query/QueryBuilder.php:127 | A present column gives its value; a non-null result comes from a present column |
| `Query.QueryBuilder.Text` | src/Infrastructure/PostgreSQL/Query/QueryBuilder.php:41 | The text `.=` appends to: the stored text, or empty while none was set |
| `Query.AllRows` | src/Infrastructure/PostgreSQL/Query/QueryBuilder.php:113-117 | Null exactly for zero rows, otherwise all rows in server order |
| `Query.FirstRow` | src/Infrastructure/PostgreSQL/Query/QueryBuilder.php:132-138 | Null exactly for zero rows, otherwise the first row, however many there are |
| `Query.SingleRow` | src/Infrastructure/PostgreSQL/Query/QueryBuilder.php:208-218 | Zero rows give null, one row gives that row, two or more give the multiple-results error |
| `Query.SingleRowRefinesFirstRow` | src/Infrastructure/PostgreSQL/Query/QueryBuilder.php:132-138 | getRow's shape succeeds exactly for at most one row, and then agrees with executeGetArrayOneRow's shape |
| `Query.RecordExistsIffOneRow` | src/Infrastructure/PostgreSQL/Query/QueryBuilder.php:221-224 | getRow's shape yields a row exactly when there is exactly one row |
| `Query.ProjectField` | src/Infrastructure/PostgreSQL/Query/QueryBuilder.php:125-129 | The loop yields one value per row, in row order: the row's value for the field, or null when the row lacks it |
| `Query.ReturnedField` | src/Infrastructure/PostgreSQL/Query/QueryBuilder.php:153-162 | Zero rows give QueryResultsNotFound; a missing or null field in the first row gives InvalidArgument; and a first row holding a non-null value for the field gives exactly that value |
| `Query.QueryBuilder.constructor` | src/Infrastructure/PostgreSQL/Query/QueryBuilder.php:22-31 | A builder given only the connection has null text and no parameters, and is well numbered |
| `Query.QueryBuilder.Seeded` | src/Infrastructure/PostgreSQL/Query/QueryBuilder.php:22-31 | A builder given extra arguments starts as `add` of them: that text and those parameters |
| `Query.QueryBuilder.Add` | src/Infrastructure/PostgreSQL/Query/QueryBuilder.php:39-47 | The new text is the old text followed by the fragment; the new parameters are the old ones followed by the arguments in call order; a fragment whose placeholders continue the numbering keeps the statement well numbered, provided the old text does not end in a digit or `$` while the fragment starts with a digit |
| `Query.QueryBuilder.NullExpression` | src/Infrastructure/PostgreSQL/Query/QueryBuilder.php:56-66 | For null, appends `name IS null` and binds nothing; otherwise binds the value last and appends `name = $N`, N the new parameter count; a name without `$` keeps the statement well numbered, provided the old text does not end in a digit or `$` while the name starts with a digit |
| `Query.QueryBuilder.Set` | src/Infrastructure/PostgreSQL/Query/QueryBuilder.php:73-77 | Text and parameters are replaced by the given ones |
| `Query.QueryBuilder.AlterBooleanArgs` | src/Infrastructure/PostgreSQL/Query/QueryBuilder.php:79-86 | The in-place loop leaves the parameters equal to their coerced form and the text unchanged |
| `Query.QueryBuilder.Execute` | src/Infrastructure/PostgreSQL/Query/QueryBuilder.php:88-108 | Coerces booleans when asked, then dispatches the text with the parameters; a text never set raises NullStatement without dispatching; on success returns the rows and leaves text `""` and no parameters; on any failure keeps the text and the coerced parameters |
| `Query.QueryBuilder.ExecuteGetArray` | src/Infrastructure/PostgreSQL/Query/QueryBuilder.php:110-118 | Execute's state change; the error, or null for zero rows, otherwise all rows |
| `Query.QueryBuilder.ExecuteGetArrayOneField` | src/Infrastructure/PostgreSQL/Query/QueryBuilder.php:120-130 | Execute's state change; the error, or null for zero rows, otherwise one value per row in order: the field or null |
| `Query.QueryBuilder.ExecuteGetArrayOneRow` | src/Infrastructure/PostgreSQL/Query/QueryBuilder.php:132-138 | Execute's state change; the error, or null for zero rows, otherwise the first row |
| `Query.QueryBuilder.ExecuteWithReturnField` | src/Infrastructure/PostgreSQL/Query/QueryBuilder.php:146-163 | Dispatches the text followed by ` RETURNING field` and clears the statement on success before looking at the rows; then QueryResultsNotFound, InvalidArgument or the first row's field as in ReturnedField |
| `Query.QueryBuilder.GetRow` | src/Infrastructure/PostgreSQL/Query/QueryBuilder.php:205-219 | Executes without coercion; the error, or null for zero rows, the row for one, the multiple-results error for more |
| `Query.QueryBuilder.RecordExists` | src/Infrastructure/PostgreSQL/Query/QueryBuilder.php:221-224 | getRow's errors propagate; otherwise true exactly for one row |
| `Query.QueryBuilder.GetSql` | src/Infrastructure/PostgreSQL/Query/QueryBuilder.php:245-252 | Returns the text, null while none was set |
| `Query.QueryBuilder.GetArgs` | src/Infrastructure/PostgreSQL/Query/QueryBuilder.php:254-257 | Returns the parameters |
| `Query.QueryBuilder.GetParams` | src/Infrastructure/PostgreSQL/Query/QueryBuilder.php:259-262 | Returns the parameters |
| `Query.QueryBuilder.ResetQuery` | src/Infrastructure/PostgreSQL/Query/QueryBuilder.php:264-268 | Text becomes `""` and the parameters empty, which is well numbered |
| `Placeholders.NatToString` | src/Infrastructure/PostgreSQL/Query/QueryBuilder.php:62-63 | The decimal rendering of a count is a non-empty run of digits, one digit exactly below 10, with no leading zero for a positive count |
| `Placeholders.ParseNatToString` | src/Infrastructure/PostgreSQL/Query/QueryBuilder.php:62-63 | Reading a rendered count back as decimal gives the count |
| `Placeholders.NatToStringInjective` | src/Infrastructure/PostgreSQL/Query/QueryBuilder.php:62-63 | Distinct counts render as distinct placeholder texts |
| `Placeholders.EqualityParts` | src/Infrastructure/PostgreSQL/Query/QueryBuilder.php:63 | `name = $N` is the name, then ` = `, then the placeholder of N |
| `Placeholders.EqualityPlaceholders` | src/Infrastructure/PostgreSQL/Query/QueryBuilder.php:63 | `name = $N` with a `$`-free name mentions exactly placeholder N |
| `Placeholders.PlaceholdersConcat` | src/Infrastructure/PostgreSQL/Query/QueryBuilder.php:41 | The placeholders of appended text are those of the old text followed by those of the fragment, unless the seam glues digits onto a `$N` |
| `PostgresService.IntegerTypesAreNumeric` | src/Infrastructure/PostgreSQL/PostgresService.php:14-16 | Every integer type is numeric; the non-integer numeric types are exactly decimal, numeric, real and double precision |
| `PostgresService.BoundsNest` | src/Infrastructure/PostgreSQL/PostgresService.php:18-36 | Every range has min below max; smallint lies strictly inside integer, which lies strictly inside bigint |
| `PostgresService.SerialBounds` | src/Infrastructure/PostgreSQL/PostgresService.php:29-36 | Serial types start at 1 and share the maximum of their signed counterpart |
| `PostgresService.BigintNarrowed` | src/Infrastructure/PostgreSQL/PostgresService.php:18-27 | smallint and integer are the signed 16- and 32-bit ranges; bigint is ±(10^18 − 1), strictly inside the signed 64-bit range |
| `PostgresService.BooleanLiterals` | src/Infrastructure/PostgreSQL/PostgresService.php:38-39 | The literals are `t` and `f`, one character each, and differ |
| `Update.ColumnValues` | src/Infrastructure/PostgreSQL/Query/UpdateBuilder.php:37-42 | The bound values of the column pairs, one per pair, in order |
| `Update.ColumnAssignmentParts` | src/Infrastructure/PostgreSQL/Query/UpdateBuilder.php:27-31 | The assignment for a new parameter starts with `", "` exactly when parameters were bound before, is otherwise the bare `name = $1`, and ends with the placeholder of the new count |
| `Update.ColumnsTextLength` | src/Infrastructure/PostgreSQL/Query/UpdateBuilder.php:37-42 | The SET list is empty exactly when no column was added, and has at least one character per column |
| `Update.UpdateTextParts` | src/Infrastructure/PostgreSQL/Query/UpdateBuilder.php:51 | The statement setSql assigns reads back as `UPDATE table SET `, the SET list, and ` WHERE name = $N` |
| `Update.ColumnAssignmentPlaceholders` | src/Infrastructure/PostgreSQL/Query/UpdateBuilder.php:26-31 | The assignment addColumn appends mentions exactly the placeholder of its own parameter; after the first one it starts with the separator |
| `Update.ColumnsTextPlaceholders` | src/Infrastructure/PostgreSQL/Query/UpdateBuilder.php:37-42 | The SET list built from k prior parameters mentions placeholders k+1, k+2, ... in order |
| `Update.UpdateTextPlaceholders` | src/Infrastructure/PostgreSQL/Query/UpdateBuilder.php:47-52 | A statement synthesised on a fresh builder mentions `$1` .. `$n` in order, n its parameter count, when no identifier contains `$` |
| `Update.UpdateBuilder.constructor` | src/Infrastructure/PostgreSQL/Query/UpdateBuilder.php:12-17 | Stores the table, the WHERE column and value; no parameters, no SET list, no statement |
| `Update.UpdateBuilder.AddColumn` | src/Infrastructure/PostgreSQL/Query/UpdateBuilder.php:24-32 | Binds the value last and appends `name = $N`, N the new parameter count, after `", "` exactly when parameters existed before; nothing else changes |
| `Update.UpdateBuilder.AddColumnsArray` | src/Infrastructure/PostgreSQL/Query/UpdateBuilder.php:37-42 | The loop has the effect of addColumn on each pair in order: the values appended and the assignments appended, numbered on from the old count |
| `Update.UpdateBuilder.SetSql` | src/Infrastructure/PostgreSQL/Query/UpdateBuilder.php:47-52 | Binds the WHERE value as one more parameter on every call and assigns `UPDATE t SET <list> WHERE w = $N`, N the new parameter count; the SET list is unchanged |
| `Update.BuildUpdate` | src/Infrastructure/PostgreSQL/Query/UpdateBuilder.php:12-52 | Construct, addColumnsArray, setSql: the parameters are the column values then the WHERE value, the statement is the SET list of those columns, and it is well numbered when no identifier contains `$` |
| `Update.UpdateExample` | src/Infrastructure/PostgreSQL/Query/UpdateBuilder.php:12-52 | Table `t`, WHERE `id = 5`, columns name = "a" and age = 3 give `UPDATE t SET name = $1, age = $2 WHERE id = $3` with parameters "a", 3, 5 |
| `Update.ExampleText` | src/Infrastructure/PostgreSQL/Query/UpdateBuilder.php:47-52 | The synthesised text of that example, computed from the text functions |

## Left out

- The connection: the stored `pgConn`, `PostgresService`'s constructor, its static connection slot and `getConnection` are not modelled. Each execute-family method takes the database as a parameter instead.
- Schema introspection (`getSchemaTables`, `doesTableExist`, `getTableMetaData`) is database I/O and is not modelled.
- Driver calls (`pg_query_params`, `pg_fetch_all`, `pg_fetch_array`, `pg_num_rows`, `pg_free_result`, `pg_last_error`) become the database outcome. Releasing the result handle has no counterpart, because no handle exists in the model.
- `Query.QueryBuilder.GetRow`: the `-1` row count branch is not separate. Every driver failure arrives as a failed outcome and so raises QueryFailure.
- `Query.QueryBuilder.GetRow`: rows carry their named columns only. The numeric duplicate keys that `pg_fetch_array` adds by default are not modelled.
- The QueryFailure message is kept as three fields (driver text, SQL text, parameters). The concatenated message with `var_export` is not modelled.
- The deprecated private `getOne` is unused and not modelled.
- The parent class `InsertUpdateBuilder` is not part of this model. `UpdateBuilder` carries the inherited `dbTable`, `params` and `sql` itself, and starts them as the given table, no parameters and `""`. `UpdateBuilder`'s own `setColumnsValues` (UpdateBuilder.php:10) starts as null in PHP but as `""` here: no modelled operation can tell them apart, since `.=` (:28, :31) and the interpolation at :51 read null as `""`, but a caller reading the public field directly before any `addColumn` would see null. The INSERT constructor is not part of this model either.
- Floating-point parameters are an opaque token; nothing computes with them.
- PHP arrays become sequences. `set` and `addColumnsArray` take ordered lists, not keyed arrays. A column name that PHP would turn into an integer key is not modelled; under strict types that would raise a type error.
- Strings are sequences of characters, not bytes. `strtoupper` is modelled as ASCII-only upper-casing, as PHP 8.2 and later do it.
- `Placeholders.PlaceholderNumbers` reads every `$` followed by digits as a placeholder. It does not skip string literals or dollar-quoted bodies.
- A failed `execute` keeps the coerced parameters: its failure path runs after `alterBooleanArgs` (QueryBuilder.php:90-92), so the booleans are already rewritten when the error is raised.
- `executeWithReturnField` reports InvalidArgument ("column does not exist") even when the column exists but holds null, because it tests with `isset`. The model keeps this behaviour.
- `Query.QueryBuilder.Execute`: a statement never set is one error value, NullStatement; the PHP `TypeError` object, its message and its trace are not modelled.
- `Query.FieldOf`: a missing column reads as null, as PHP reads an undefined array key; the warning PHP emits for that read is not modelled.
