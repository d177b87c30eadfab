/** The UPDATE statement constructor: SET assignments numbered from the running
    parameter count, then the WHERE equality whose value is bound last, giving
    `UPDATE t SET c1 = $1, c2 = $2, ... WHERE w = $n`. */
module Update {

  import opened Values
  import opened Placeholders

  /** The text addColumn appends when `count` parameters were bound before it:
      a separator unless it is the first parameter, then `name = $(count + 1)`. */
  function ColumnAssignment(count: nat, name: string): string
  {
    (if count >= 1 then ", " else "") + Equality(name, count + 1)
  }

  /** The values of (column, value) pairs, in order. */
  function ColumnValues(cols: seq<(string, Value)>): (r: seq<Value>)
    ensures |r| == |cols|
    ensures forall i :: 0 <= i < |cols| ==> r[i] == cols[i].1
  {
    if |cols| == 0 then []
    else ColumnValues(cols[..|cols| - 1]) + [cols[|cols| - 1].1]
  }

  /** The text appended by adding the columns `cols` one after the other, when
      `count` parameters were bound before the first. */
  function ColumnsText(count: nat, cols: seq<(string, Value)>): string
  {
    if |cols| == 0 then ""
    else ColumnsText(count, cols[..|cols| - 1]) + ColumnAssignment(count + |cols| - 1, cols[|cols| - 1].0)
  }

  /** `UPDATE table SET `. */
  function UpdateHead(table: string): string { "UPDATE " + table + " SET " }

  /** ` WHERE name = $n`. */
  function WhereText(whereName: string, n: nat): string { " WHERE " + Equality(whereName, n) }

  /** The statement setSql assigns. */
  function UpdateText(table: string, setText: string, whereName: string, n: nat): string
  {
    UpdateHead(table) + setText + WhereText(whereName, n)
  }

  /** The assignment for parameter count + 1 starts with the separator exactly
      when parameters were bound before it, is otherwise the bare equality, and
      always ends with the placeholder `$(count + 1)`. */
  lemma ColumnAssignmentParts(count: nat, name: string)
    ensures var r := ColumnAssignment(count, name);
      && (count >= 1 ==> r == ", " + Equality(name, count + 1))
      && (count == 0 ==> r == Equality(name, 1))
      && r[|r| - |Placeholder(count + 1)|..] == Placeholder(count + 1)
  {
    var r := ColumnAssignment(count, name);
    var e := Equality(name, count + 1);
    assert r[|r| - |e|..] == e;
    EqualityParts(name, count + 1);
    assert e[|e| - |Placeholder(count + 1)|..] == Placeholder(count + 1);
  }

  /** The SET list is empty exactly when no column is added, and grows by one
      assignment per column. */
  lemma {:induction false} ColumnsTextLength(count: nat, cols: seq<(string, Value)>)
    ensures |ColumnsText(count, cols)| >= |cols|
    ensures |ColumnsText(count, cols)| == 0 <==> |cols| == 0
  {
    if |cols| > 0 {
      ColumnsTextLength(count, cols[..|cols| - 1]);
    }
  }

  /** The synthesised statement reads back as its three parts: the head with the
      table, the SET list, and the WHERE equality on placeholder n. */
  lemma UpdateTextParts(table: string, setText: string, whereName: string, n: nat)
    ensures var r := UpdateText(table, setText, whereName, n);
      var h := |UpdateHead(table)|;
      && |r| == h + |setText| + |WhereText(whereName, n)|
      && r[..h] == UpdateHead(table)
      && r[h..h + |setText|] == setText
      && r[h + |setText|..] == WhereText(whereName, n)
  {
  }

  predicate NamesHaveNoDollar(cols: seq<(string, Value)>)
  {
    forall i :: 0 <= i < |cols| ==> '$' !in cols[i].0
  }

  /** One assignment mentions exactly the placeholder of its own parameter, and
      after the first it starts with the separator. */
  lemma ColumnAssignmentPlaceholders(count: nat, name: string)
    requires '$' !in name
    ensures PlaceholderNumbers(ColumnAssignment(count, name)) == [count + 1]
    ensures count >= 1 ==> !StartsWithDigit(ColumnAssignment(count, name))
  {
    EqualityPlaceholders(name, count + 1);
    if count >= 1 {
      assert ColumnAssignment(count, name) == ", " + Equality(name, count + 1);
      assert '$' !in ", ";
      NoDollarNoPlaceholders(", ");
      PlaceholdersConcat(", ", Equality(name, count + 1));
    } else {
      assert ColumnAssignment(count, name) == Equality(name, count + 1);
    }
  }

  /** The SET list mentions the placeholders count + 1, ..., count + |cols| in order. */
  lemma {:induction false} ColumnsTextPlaceholders(count: nat, cols: seq<(string, Value)>)
    requires NamesHaveNoDollar(cols)
    ensures PlaceholderNumbers(ColumnsText(count, cols)) == Numbering(count, |cols|)
  {
    if |cols| > 0 {
      var front := cols[..|cols| - 1];
      var k := |front|;
      var name := cols[k].0;
      assert '$' !in name;
      ColumnsTextPlaceholders(count, front);
      ColumnAssignmentPlaceholders(count + k, name);
      if count + k == 0 {
        assert ColumnsText(count, front) == "";
      }
      PlaceholdersConcat(ColumnsText(count, front), ColumnAssignment(count + k, name));
    }
  }

  /** A synthesised UPDATE on a fresh builder mentions `$1` .. `$n` in order, n
      the number of bound parameters, provided no identifier contains `$`. */
  lemma UpdateTextPlaceholders(table: string, cols: seq<(string, Value)>, whereName: string)
    requires '$' !in table && '$' !in whereName && NamesHaveNoDollar(cols)
    ensures PlaceholderNumbers(UpdateText(table, ColumnsText(0, cols), whereName, |cols| + 1))
            == Numbering(0, |cols| + 1)
  {
    var head := UpdateHead(table);
    var setText := ColumnsText(0, cols);
    var tail := WhereText(whereName, |cols| + 1);
    assert UpdateText(table, setText, whereName, |cols| + 1) == head + setText + tail;
    UpdateHeadPlain(table);
    ColumnsTextPlaceholders(0, cols);
    PlaceholdersConcat(head, setText);
    assert PlaceholderNumbers(head + setText) == Numbering(0, |cols|);
    WhereTextPlaceholders(whereName, |cols| + 1);
    PlaceholdersConcat(head + setText, tail);
    assert PlaceholderNumbers(head + setText + tail) == Numbering(0, |cols|) + [|cols| + 1];
  }

  lemma UpdateHeadPlain(table: string)
    requires '$' !in table
    ensures PlaceholderNumbers(UpdateHead(table)) == [] && !EndsOpen(UpdateHead(table))
  {
    var head := UpdateHead(table);
    assert forall i :: 0 <= i < |head| ==> head[i] != '$';
    NoDollarNoPlaceholders(head);
    assert head[|head| - 1] == ' ';
  }

  lemma WhereTextPlaceholders(whereName: string, n: nat)
    requires '$' !in whereName
    ensures PlaceholderNumbers(WhereText(whereName, n)) == [n] && !StartsWithDigit(WhereText(whereName, n))
  {
    var w := " WHERE ";
    assert forall i :: 0 <= i < |w| ==> w[i] != '$';
    NoDollarNoPlaceholders(w);
    EqualityPlaceholders(whereName, n);
    PlaceholdersConcat(w, Equality(whereName, n));
    assert WhereText(whereName, n)[0] == ' ';
  }

  /** Adding column i after the first i columns extends the bound values by
      that column's value. */
  lemma ValuesStep(cols: seq<(string, Value)>, i: nat)
    requires i < |cols|
    ensures ColumnValues(cols[..i + 1]) == ColumnValues(cols[..i]) + [cols[i].1]
  {
    assert cols[..i + 1][..i] == cols[..i];
  }

  /** Adding column i after the first i columns extends the SET list by that
      column's assignment. */
  lemma TextStep(count: nat, cols: seq<(string, Value)>, i: nat)
    requires i < |cols|
    ensures ColumnsText(count, cols[..i + 1]) == ColumnsText(count, cols[..i]) + ColumnAssignment(count + i, cols[i].0)
  {
    assert cols[..i + 1][..i] == cols[..i];
  }

  lemma Regroup<T>(a: seq<T>, b: seq<T>, c: seq<T>)
    ensures a + b + c == a + (b + c)
  {
  }

  class UpdateBuilder {
    var dbTable: string
    var params: seq<Value>
    var sql: string
    var updateOnColumnName: string
    var updateOnColumnValue: Value
    var setColumnsValues: string

    /** A builder for `dbTable` whose WHERE clause is `updateOnColumnName = value`;
        no parameters, no SET list and no statement yet. */
    constructor (dbTable: string, updateOnColumnName: string, updateOnColumnValue: Value)
      ensures this.dbTable == dbTable
      ensures this.updateOnColumnName == updateOnColumnName
      ensures this.updateOnColumnValue == updateOnColumnValue
      ensures params == [] && setColumnsValues == "" && sql == ""
    {
      this.updateOnColumnName := updateOnColumnName;
      this.updateOnColumnValue := updateOnColumnValue;
      this.dbTable := dbTable;
      params := [];
      sql := "";
      setColumnsValues := "";
    }

    /** Binds `value` as the last parameter and appends `name = $N` to the SET
        list, N the new number of parameters, after a separator unless it is the
        first parameter. */
    method AddColumn(name: string, value: Value)
      modifies this
      ensures params == old(params) + [value]
      ensures setColumnsValues == old(setColumnsValues) + ColumnAssignment(|old(params)|, name)
      ensures dbTable == old(dbTable) && sql == old(sql)
      ensures updateOnColumnName == old(updateOnColumnName) && updateOnColumnValue == old(updateOnColumnValue)
    {
      params := params + [value];
      if |params| > 1 {
        setColumnsValues := setColumnsValues + ", ";
      }
      var argNum := |params|;
      setColumnsValues := setColumnsValues + Equality(name, argNum);
      assert old(setColumnsValues) + ColumnAssignment(|old(params)|, name)
          == old(setColumnsValues) + (if |params| > 1 then ", " else "") + Equality(name, argNum);
    }

    /** Adds every (name, value) pair in order, as repeated addColumn calls. */
    method AddColumnsArray(updateColumns: seq<(string, Value)>)
      modifies this
      ensures params == old(params) + ColumnValues(updateColumns)
      ensures setColumnsValues == old(setColumnsValues) + ColumnsText(|old(params)|, updateColumns)
      ensures dbTable == old(dbTable) && sql == old(sql)
      ensures updateOnColumnName == old(updateOnColumnName) && updateOnColumnValue == old(updateOnColumnValue)
    {
      ghost var params0, set0 := params, setColumnsValues;
      ghost var table0, name0, value0, sql0 := dbTable, updateOnColumnName, updateOnColumnValue, sql;
      var i := 0;
      while i < |updateColumns|
        invariant 0 <= i <= |updateColumns|
        invariant params == params0 + ColumnValues(updateColumns[..i])
        invariant setColumnsValues == set0 + ColumnsText(|params0|, updateColumns[..i])
        invariant dbTable == table0 && sql == sql0
        invariant updateOnColumnName == name0 && updateOnColumnValue == value0
      {
        var (name, value) := updateColumns[i];
        AddColumn(name, value);
        ValuesStep(updateColumns, i);
        Regroup(params0, ColumnValues(updateColumns[..i]), [value]);
        TextStep(|params0|, updateColumns, i);
        Regroup(set0, ColumnsText(|params0|, updateColumns[..i]), ColumnAssignment(|params0| + i, name));
        i := i + 1;
      }
      assert updateColumns[..i] == updateColumns;
    }

    /** Binds the WHERE value as the last parameter and assigns the statement,
        its WHERE placeholder numbered by the new parameter count. Each call binds
        one more copy of the WHERE value. */
    method SetSql()
      modifies this
      ensures params == old(params) + [updateOnColumnValue]
      ensures sql == UpdateText(dbTable, setColumnsValues, updateOnColumnName, |params|)
      ensures dbTable == old(dbTable) && setColumnsValues == old(setColumnsValues)
      ensures updateOnColumnName == old(updateOnColumnName) && updateOnColumnValue == old(updateOnColumnValue)
    {
      params := params + [updateOnColumnValue];
      var lastArgNum := |params|;
      sql := UpdateText(dbTable, setColumnsValues, updateOnColumnName, lastArgNum);
    }
  }

  /** Construct, add the columns, synthesise: the parameters are the column
      values then the WHERE value, and the statement is numbered `$1` .. `$n`. */
  method BuildUpdate(dbTable: string, updateOnColumnName: string, updateOnColumnValue: Value,
                     updateColumns: seq<(string, Value)>)
    returns (sql: string, params: seq<Value>)
    ensures params == ColumnValues(updateColumns) + [updateOnColumnValue]
    ensures sql == UpdateText(dbTable, ColumnsText(0, updateColumns), updateOnColumnName, |params|)
    ensures '$' !in dbTable && '$' !in updateOnColumnName && NamesHaveNoDollar(updateColumns)
            ==> WellNumbered(sql, params)
  {
    var builder := new UpdateBuilder(dbTable, updateOnColumnName, updateOnColumnValue);
    builder.AddColumnsArray(updateColumns);
    builder.SetSql();
    sql, params := builder.sql, builder.params;
    if '$' !in dbTable && '$' !in updateOnColumnName && NamesHaveNoDollar(updateColumns) {
      UpdateTextPlaceholders(dbTable, updateColumns, updateOnColumnName);
    }
  }

  /** Table `t`, WHERE `id = 5`, columns name = "a" and age = 3. */
  method UpdateExample() returns (sql: string, params: seq<Value>)
    ensures sql == "UPDATE t SET name = $1, age = $2 WHERE id = $3"
    ensures params == [Str("a"), Int(3), Int(5)]
  {
    var builder := new UpdateBuilder("t", "id", Int(5));
    builder.AddColumn("name", Str("a"));
    builder.AddColumn("age", Int(3));
    builder.SetSql();
    sql, params := builder.sql, builder.params;
    assert "" + ColumnAssignment(0, "name") == ColumnAssignment(0, "name");
    ExampleText();
  }

  lemma ExampleText()
    ensures UpdateText("t", ColumnAssignment(0, "name") + ColumnAssignment(1, "age"), "id", 3)
            == "UPDATE t SET name = $1, age = $2 WHERE id = $3"
  {
    ExamplePieces();
    var setList := "name = $1" + ", age = $2";
    assert setList == "name = $1, age = $2";
    assert UpdateHead("t") + setList == "UPDATE t SET name = $1, age = $2";
  }

  lemma ExamplePieces()
    ensures ColumnAssignment(0, "name") == "name = $1"
    ensures ColumnAssignment(1, "age") == ", age = $2"
    ensures WhereText("id", 3) == " WHERE id = $3"
  {
    SmallPlaceholders();
  }

  lemma SmallPlaceholders()
    ensures Placeholder(1) == "$1" && Placeholder(2) == "$2" && Placeholder(3) == "$3"
  {
    assert NatToString(1) == "1" && NatToString(2) == "2" && NatToString(3) == "3";
  }
}
