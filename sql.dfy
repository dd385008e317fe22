/** The SQL text QueryMaster emits. Table names, column lists and condition text
    are the caller's own SQL and are spliced in verbatim; only the values of a
    record (and the id of getById) travel separately, as bound parameters. */
module Sql {
  import opened Php

  /** One entry of the associative array passed to insert and update. */
  datatype Column = Column(name: string, value: Value)

  /** A record in its iteration order. */
  type Record = seq<Column>

  /** `array_keys($data)` */
  function Keys(data: Record): seq<string> {
    seq(|data|, k requires 0 <= k < |data| => data[k].name)
  }

  /** `array_values($data)` */
  function Values(data: Record): seq<Value> {
    seq(|data|, k requires 0 <= k < |data| => data[k].value)
  }

  // ---------------------------------------------------------------------------
  // insert

  /** `implode(", ", array_fill(0, n, "?"))` */
  function Placeholders(n: nat): string {
    Implode(", ", seq(n, _ => "?"))
  }

  /** The placeholder list is "?, ?, ..., ?": n question marks, each but the last
      followed by ", ", and nothing else. */
  lemma {:induction false} PlaceholdersShape(n: nat)
    ensures |Placeholders(n)| == if n == 0 then 0 else 3 * n - 2
    ensures forall k :: 0 <= k < |Placeholders(n)| ==> Placeholders(n)[k] == "?, "[k % 3]
    ensures Count('?', Placeholders(n)) == n
    decreases n
  {
    if n >= 2 {
      var rest := Placeholders(n - 1);
      assert seq(n, _ => "?")[1..] == seq(n - 1, _ => "?");
      assert Placeholders(n) == "?, " + rest;
      PlaceholdersShape(n - 1);
      CountAppend('?', "?, ", rest);
      forall k | 3 <= k < |Placeholders(n)|
        ensures Placeholders(n)[k] == "?, "[k % 3]
      {
        assert Placeholders(n)[k] == rest[k - 3];
        assert (k - 3) % 3 == k % 3;
      }
    } else if n == 1 {
      assert Placeholders(n) == "?";
    }
  }

  /** The query insert prepares. */
  function InsertQuery(table: string, data: Record): string {
    "INSERT INTO " + table + " (" + Implode(", ", Keys(data)) + ") VALUES (" + Placeholders(|data|) + ")"
  }

  /** The '?' of an insert are the ones the caller wrote into the table and column
      names plus one placeholder per value it binds; its VALUES list holds exactly
      as many placeholders as there are columns and values. */
  lemma InsertArity(table: string, data: Record)
    ensures Count('?', InsertQuery(table, data)) == Count('?', table) + CountAll('?', Keys(data)) + |Values(data)|
    ensures Count('?', Placeholders(|data|)) == |Keys(data)| == |Values(data)|
  {
    PlaceholdersShape(|data|);
    var cols := Implode(", ", Keys(data));
    ImplodeCount('?', ", ", Keys(data));
    CountZeroIff('?', ", ");
    CountZeroIff('?', "INSERT INTO ");
    CountZeroIff('?', " (");
    CountZeroIff('?', ") VALUES (");
    CountZeroIff('?', ")");
    var a1 := "INSERT INTO " + table;
    var a2 := a1 + " (";
    var a3 := a2 + cols;
    var a4 := a3 + ") VALUES (";
    var a5 := a4 + Placeholders(|data|);
    assert InsertQuery(table, data) == a5 + ")";
    CountAppend('?', "INSERT INTO ", table);
    CountAppend('?', a1, " (");
    CountAppend('?', a2, cols);
    CountAppend('?', a3, ") VALUES (");
    CountAppend('?', a4, Placeholders(|data|));
    CountAppend('?', a5, ")");
  }

  // ---------------------------------------------------------------------------
  // update

  /** One assignment of the SET clause. */
  function Assignment(column: string): string {
    column + " = ?"
  }

  /** The intended SET clause: every column assigned a placeholder, comma separated. */
  function SetClause(columns: seq<string>): string {
    Implode(", ", seq(|columns|, k requires 0 <= k < |columns| => Assignment(columns[k])))
  }

  /** An assignment adds one placeholder to the column name. */
  lemma AssignmentCount(column: string)
    ensures Count('?', Assignment(column)) == Count('?', column) + 1
  {
    CountZeroIff('?', " = ");
    assert " = ?" == " = " + "?";
    CountAppend('?', " = ", "?");
    CountAppend('?', column, " = ?");
  }

  /** The SET clause holds one placeholder per column, besides any '?' in the names. */
  lemma {:induction false} SetClauseCount(columns: seq<string>)
    ensures Count('?', SetClause(columns)) == CountAll('?', columns) + |columns|
  {
    var parts := seq(|columns|, k requires 0 <= k < |columns| => Assignment(columns[k]));
    ImplodeCount('?', ", ", parts);
    CountZeroIff('?', ", ");
    AssignmentsCount(columns);
  }

  lemma {:induction false} AssignmentsCount(columns: seq<string>)
    ensures CountAll('?', seq(|columns|, k requires 0 <= k < |columns| => Assignment(columns[k])))
         == CountAll('?', columns) + |columns|
    decreases |columns|
  {
    if columns != [] {
      var parts := seq(|columns|, k requires 0 <= k < |columns| => Assignment(columns[k]));
      var rest := columns[1..];
      assert parts[1..] == seq(|rest|, k requires 0 <= k < |rest| => Assignment(rest[k]));
      AssignmentCount(columns[0]);
      AssignmentsCount(rest);
    }
  }

  /** What the loop of update has accumulated after the given columns, before trimming. */
  function Accumulated(columns: seq<string>): string {
    if columns == [] then "" else Accumulated(columns[..|columns| - 1]) + columns[|columns| - 1] + " = ?, "
  }

  /** The accumulated text is the SET clause followed by one dangling ", ". */
  lemma {:induction false} AccumulatedIsSetClause(columns: seq<string>)
    ensures Accumulated(columns) == if columns == [] then "" else SetClause(columns) + ", "
    decreases |columns|
  {
    if |columns| == 1 {
      assert Accumulated(columns[..0]) == "";
    } else if |columns| > 1 {
      var init := columns[..|columns| - 1];
      var last := columns[|columns| - 1];
      AccumulatedIsSetClause(init);
      var parts := seq(|init|, k requires 0 <= k < |init| => Assignment(init[k]));
      assert seq(|columns|, k requires 0 <= k < |columns| => Assignment(columns[k])) == parts + [Assignment(last)];
      ImplodeSnoc(", ", parts, Assignment(last));
    }
  }

  /** A non-empty SET clause ends with the "?" of its last assignment, so trimming
      ", " characters off the accumulated text removes exactly the final separator. */
  lemma TrimRemovesOnlyFinalSeparator(columns: seq<string>)
    requires columns != []
    ensures RTrim(Accumulated(columns), {',', ' '}) == SetClause(columns)
    ensures |SetClause(columns)| == |Accumulated(columns)| - 2
  {
    var init := columns[..|columns| - 1];
    var last := columns[|columns| - 1];
    var a := Accumulated(init) + last + " = ?";
    assert Accumulated(columns) == a + ", ";
    AccumulatedIsSetClause(columns);
    var s := SetClause(columns);
    assert s + ", " == a + ", ";
    assert |s| == |a|;
    assert s == (s + ", ")[..|s|] == (a + ", ")[..|a|] == a;
    assert a[|a| - 1] == '?';
    RTrimStopsAt(s, ", ", {',', ' '});
  }

  /** The SET list of update: the loop appends "<column> = ?, " for every column in
      iteration order, then `rtrim(..., ", ")` strips the trailing separator. */
  method SetValues(data: Record) returns (setValues: string)
    ensures setValues == SetClause(Keys(data))
  {
    setValues := "";
    var k := 0;
    while k < |data|
      invariant 0 <= k <= |data|
      invariant setValues == Accumulated(Keys(data)[..k])
    {
      assert Keys(data)[..k + 1][..k] == Keys(data)[..k];
      setValues := setValues + data[k].name + " = ?, ";
      k := k + 1;
    }
    assert Keys(data)[..k] == Keys(data);
    if data != [] {
      TrimRemovesOnlyFinalSeparator(Keys(data));
    }
    setValues := RTrim(setValues, {',', ' '});
  }

  /** The query update prepares. */
  function UpdateQuery(table: string, data: Record, condition: string): string {
    "UPDATE " + table + " SET " + SetClause(Keys(data)) + " WHERE " + condition
  }

  /** The '?' of an update are the caller's own, in the table, the column names and
      the condition, plus one placeholder per value it binds. */
  lemma UpdateArity(table: string, data: Record, condition: string)
    ensures Count('?', UpdateQuery(table, data, condition))
         == Count('?', table) + CountAll('?', Keys(data)) + |Values(data)| + Count('?', condition)
  {
    var setClause := SetClause(Keys(data));
    SetClauseCount(Keys(data));
    CountZeroIff('?', "UPDATE ");
    CountZeroIff('?', " SET ");
    CountZeroIff('?', " WHERE ");
    var a1 := "UPDATE " + table;
    var a2 := a1 + " SET ";
    var a3 := a2 + setClause;
    var a4 := a3 + " WHERE ";
    assert UpdateQuery(table, data, condition) == a4 + condition;
    CountAppend('?', "UPDATE ", table);
    CountAppend('?', a1, " SET ");
    CountAppend('?', a2, setClause);
    CountAppend('?', a3, " WHERE ");
    CountAppend('?', a4, condition);
  }

  /** Empty data gives an empty SET clause, between two spaces. */
  lemma UpdateWithoutColumns(table: string, condition: string)
    ensures UpdateQuery(table, [], condition) == "UPDATE " + table + " SET  WHERE " + condition
  {
    assert SetClause(Keys([])) == "";
  }

  /** Each column of the data gets exactly one placeholder in the SET clause, in order. */
  lemma SetClauseOfColumns(columns: seq<string>)
    ensures columns == [] <==> SetClause(columns) == ""
    ensures |columns| == 1 ==> SetClause(columns) == columns[0] + " = ?"
    ensures |columns| > 1 ==>
              SetClause(columns) == SetClause(columns[..|columns| - 1]) + ", " + columns[|columns| - 1] + " = ?"
  {
    if columns != [] {
      AccumulatedIsSetClause(columns);
      TrimRemovesOnlyFinalSeparator(columns);
      assert |SetClause(columns)| > 0;
    }
    if |columns| > 1 {
      var init := columns[..|columns| - 1];
      var parts := seq(|init|, k requires 0 <= k < |init| => Assignment(init[k]));
      var last := columns[|columns| - 1];
      assert seq(|columns|, k requires 0 <= k < |columns| => Assignment(columns[k])) == parts + [Assignment(last)];
      ImplodeSnoc(", ", parts, Assignment(last));
    }
  }

  // ---------------------------------------------------------------------------
  // delete, select and the finders

  /** The statement delete executes (no bound parameters). */
  function DeleteQuery(table: string, condition: string): string {
    "DELETE FROM " + table + " WHERE " + condition
  }

  /** A delete adds no placeholder of its own: any '?' in it is the caller's. */
  lemma DeleteArity(table: string, condition: string)
    ensures Count('?', DeleteQuery(table, condition)) == Count('?', table) + Count('?', condition)
  {
    CountZeroIff('?', "DELETE FROM ");
    CountZeroIff('?', " WHERE ");
    var a1 := "DELETE FROM " + table;
    var a2 := a1 + " WHERE ";
    assert DeleteQuery(table, condition) == a2 + condition;
    CountAppend('?', "DELETE FROM ", table);
    CountAppend('?', a1, " WHERE ");
    CountAppend('?', a2, condition);
  }

  /** The query findByMany runs. */
  function FindByManyQuery(table: string, condition: string, columns: string): string {
    "SELECT " + columns + " FROM " + table + " WHERE " + condition
  }

  /** findByMany adds no placeholder of its own: any '?' in it is the caller's. */
  lemma FindByManyArity(table: string, condition: string, columns: string)
    ensures Count('?', FindByManyQuery(table, condition, columns))
         == Count('?', columns) + Count('?', table) + Count('?', condition)
  {
    CountZeroIff('?', "SELECT ");
    CountZeroIff('?', " FROM ");
    CountZeroIff('?', " WHERE ");
    var a1 := "SELECT " + columns;
    var a2 := a1 + " FROM ";
    var a3 := a2 + table;
    var a4 := a3 + " WHERE ";
    assert FindByManyQuery(table, condition, columns) == a4 + condition;
    CountAppend('?', "SELECT ", columns);
    CountAppend('?', a1, " FROM ");
    CountAppend('?', a2, table);
    CountAppend('?', a3, " WHERE ");
    CountAppend('?', a4, condition);
  }

  /** The query select runs: " LIMIT <limit>" is appended exactly when the limit is truthy. */
  function SelectQuery(table: string, columns: string, condition: string, limit: Value): (q: string)
    ensures Truthy(limit) ==> q == FindByManyQuery(table, condition, columns) + " LIMIT " + Interpolate(limit)
    ensures q == FindByManyQuery(table, condition, columns) <==> !Truthy(limit)
  {
    var query := FindByManyQuery(table, condition, columns);
    if Truthy(limit) then query + " LIMIT " + Interpolate(limit) else query
  }

  /** The query findByOne runs. */
  function FindByOneQuery(table: string, condition: string, columns: string): (q: string)
    ensures q == FindByManyQuery(table, condition, columns) + " LIMIT 1"
    ensures q == SelectQuery(table, columns, condition, Int(1))
  {
    "SELECT " + columns + " FROM " + table + " WHERE " + condition + " LIMIT 1"
  }

  /** A limit of 0 or "0" is falsy, so select then runs without any LIMIT. */
  lemma ZeroLimitMeansNoLimit(table: string, columns: string, condition: string)
    ensures SelectQuery(table, columns, condition, Int(0)) == FindByManyQuery(table, condition, columns)
    ensures SelectQuery(table, columns, condition, Str("0")) == FindByManyQuery(table, condition, columns)
  {
  }

  /** The query getById prepares: the id is not part of the text, it is bound. */
  function GetByIdQuery(table: string): string {
    "SELECT * FROM " + table + " WHERE id = ?"
  }

  /** getById adds exactly one placeholder, the one for the id, to the table name. */
  lemma GetByIdArity(table: string)
    ensures Count('?', GetByIdQuery(table)) == Count('?', table) + 1
  {
    var head := "SELECT * FROM ";
    var tail := " WHERE id = ?";
    CountZeroIff('?', head);
    IdConditionCount();
    CountAppend('?', head, table);
    CountAppend('?', head + table, tail);
  }

  /** The id condition of getById holds exactly one placeholder. */
  lemma IdConditionCount()
    ensures Count('?', " WHERE id = ?") == 1
  {
    var where := " WHERE id = ";
    CountZeroIff('?', where);
    assert Count('?', "?") == 1;
    assert where + "?" == " WHERE id = ?";
    CountAppend('?', where, "?");
  }



  // ---------------------------------------------------------------------------
  // paginate

  /** The number of rows paginate skips. */
  function Offset(page: int, limit: int): int {
    (page - 1) * limit
  }

  /** Page 1 starts at the first row and every page starts where the previous one ended. */
  lemma PagesTile(page: int, limit: int)
    ensures Offset(1, limit) == 0
    ensures Offset(page + 1, limit) == Offset(page, limit) + limit
    ensures Offset(3, 10) == 20
  {
  }

  /** The limit argument paginate hands to select: "<limit> OFFSET <offset>".
      It is never "" nor "0", so it is always truthy. */
  function PaginateLimit(page: int, limit: int): (s: string)
    ensures Truthy(Str(s))
  {
    IntToString(limit) + " OFFSET " + IntToString(Offset(page, limit))
  }

  /** Whatever the page and limit, the query paginate runs ends in
      "LIMIT <limit> OFFSET <offset>", and both numbers can be read back from it. */
  lemma PaginateAlwaysLimits(table: string, columns: string, condition: string, page: int, limit: int)
    ensures SelectQuery(table, columns, condition, Str(PaginateLimit(page, limit)))
         == FindByManyQuery(table, condition, columns)
            + " LIMIT " + IntToString(limit) + " OFFSET " + IntToString((page - 1) * limit)
    ensures ParseInt(IntToString(limit)) == limit
    ensures ParseInt(IntToString((page - 1) * limit)) == (page - 1) * limit
  {
    IntToStringRoundTrip(limit);
    IntToStringRoundTrip((page - 1) * limit);
  }
}
