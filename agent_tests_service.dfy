/**
 * The two SQL builders of the agent-test service: the multi-row INSERT of a
 * run's tasks and the UPDATE of the fields given for one task. Each returns
 * the statement and its parameter list instead of sending it; None means no
 * statement is issued.
 */
module AgentTestsService {
  import opened Text
  import opened Js
  import opened AgentTests

  /** A bound parameter of a statement. */
  datatype SqlValue = SqlText(text: string) | SqlBool(b: bool) | SqlNull

  /** A parameterised statement: `$k` in sql refers to params[k - 1]. */
  datatype Query = Query(sql: string, params: seq<SqlValue>)

  /** The placeholder `$k`. */
  function Placeholder(k: nat): (s: string)
    ensures |s| >= 2 && s[0] == '$'
  {
    "$" + DecimalText(k)
  }

  /** `$k` names parameter k: after the `$` come digits whose value is k. */
  lemma PlaceholderNames(k: nat)
    ensures IsDigits(Placeholder(k)[1..]) && ParseDecimal(Placeholder(k)[1..]) == k
  {
    assert Placeholder(k)[1..] == DecimalText(k);
    ParseDecimalText(k);
  }

  /** Distinct numbers give distinct placeholders. */
  lemma PlaceholderInjective(m: nat, n: nat)
    requires Placeholder(m) == Placeholder(n)
    ensures m == n
  {
    PlaceholderNames(m);
    PlaceholderNames(n);
  }

  // ---------------------------------------------------------------------------
  // insertAgentTestTasks

  const InsertPrefix := "INSERT INTO agent_test_tasks (id, run_id, type, description, created_at) VALUES "

  /** The parameter numbers of the i-th row group. */
  function GroupNumbers(i: nat): seq<nat> {
    [5 * i + 1, 5 * i + 2, 5 * i + 3, 5 * i + 4, 5 * i + 5]
  }

  /** The i-th row group, `($5i+1, $5i+2, $5i+3, $5i+4, $5i+5)`. */
  function GroupText(i: nat): string {
    var n := GroupNumbers(i);
    "(" + Placeholder(n[0]) + ", " + Placeholder(n[1]) + ", " + Placeholder(n[2]) + ", "
    + Placeholder(n[3]) + ", " + Placeholder(n[4]) + ")"
  }

  /** The first n row groups. */
  function Groups(n: nat): seq<string> {
    seq(n, i requires 0 <= i => GroupText(i))
  }

  /** One more row group goes after the others. */
  lemma GroupsSnoc(n: nat)
    ensures Groups(n + 1) == Groups(n) + [GroupText(n)]
  {
    assert forall i :: 0 <= i < n ==> Groups(n + 1)[i] == Groups(n)[i];
  }

  /** The parameter numbers of the first n row groups, in the order they appear. */
  function Numbering(n: nat): seq<nat> {
    if n == 0 then [] else Numbering(n - 1) + GroupNumbers(n - 1)
  }

  /** The groups of n rows use $1 .. $5n, each once and in ascending order. */
  lemma {:induction false} NumberingConsecutive(n: nat)
    ensures Numbering(n) == seq(5 * n, k => k + 1)
  {
    if n > 0 {
      NumberingConsecutive(n - 1);
      var s := Numbering(n);
      assert |s| == 5 * n;
      forall k | 0 <= k < 5 * n ensures s[k] == k + 1 {
        if k >= 5 * (n - 1) {
          assert s[k] == GroupNumbers(n - 1)[k - 5 * (n - 1)];
        }
      }
    }
  }

  /** The value bound to column c (0 id, 1 run_id, 2 type, 3 description, 4 created_at) of a task's row. */
  function ColumnValue(t: AgentTestTask, runId: string, stamp: string, c: nat): SqlValue
    requires c < 5
  {
    if c == 0 then SqlText(t.id)
    else if c == 1 then SqlText(runId)
    else if c == 2 then SqlText(TypeName(t.taskType))
    else if c == 3 then SqlText(t.description)
    else SqlText(stamp)
  }

  /**
   * `insertAgentTestTasks(runId, tasks)`, with `now(i)` the ISO timestamp
   * read while task i is added. No statement for an empty list; otherwise
   * one row group per task, and the five values of task i at positions
   * 5i+1 .. 5i+5, the numbers its row group names.
   */
  method InsertAgentTestTasks(runId: string, tasks: seq<AgentTestTask>, now: nat -> string)
    returns (q: Option<Query>)
    ensures q.None? <==> |tasks| == 0
    ensures q.Some? ==>
      q.value.sql == InsertPrefix + Join(Groups(|tasks|), ", ")
    ensures q.Some? ==> |q.value.params| == 5 * |tasks|
    ensures q.Some? ==> forall i, c :: 0 <= i < |tasks| && 0 <= c < 5 ==>
      q.value.params[GroupNumbers(i)[c] - 1] == ColumnValue(tasks[i], runId, now(i), c)
  {
    if |tasks| == 0 {
      return None;
    }
    var values: seq<SqlValue> := [];
    var placeholders: seq<string> := [];
    var i := 0;
    while i < |tasks|
      invariant 0 <= i <= |tasks|
      invariant placeholders == Groups(i)
      invariant RowsOf(tasks, runId, now, values, i)
    {
      var t := tasks[i];
      var stamp := now(i);
      var row := [SqlText(t.id), SqlText(runId), SqlText(TypeName(t.taskType)), SqlText(t.description), SqlText(stamp)];
      RowAppended(tasks, runId, now, values, i, row);
      GroupsSnoc(i);
      placeholders := placeholders + [GroupText(i)];
      values := values + row;
      i := i + 1;
    }
    RowsAligned(tasks, runId, now, values);
    q := Some(Query(InsertPrefix + Join(placeholders, ", "), values));
  }

  /** Whether the first 5i values are the rows of the first i tasks. */
  ghost predicate RowsOf(tasks: seq<AgentTestTask>, runId: string, now: nat -> string, values: seq<SqlValue>, i: nat)
    requires i <= |tasks|
  {
    |values| == 5 * i
    && forall k, c :: 0 <= k < i && 0 <= c < 5 ==> values[5 * k + c] == ColumnValue(tasks[k], runId, now(k), c)
  }

  lemma RowAppended(tasks: seq<AgentTestTask>, runId: string, now: nat -> string, values: seq<SqlValue>, i: nat,
                    row: seq<SqlValue>)
    requires i < |tasks| && RowsOf(tasks, runId, now, values, i)
    requires row == [SqlText(tasks[i].id), SqlText(runId), SqlText(TypeName(tasks[i].taskType)),
                     SqlText(tasks[i].description), SqlText(now(i))]
    ensures RowsOf(tasks, runId, now, values + row, i + 1)
  {
    assert forall c :: 0 <= c < 5 ==> row[c] == ColumnValue(tasks[i], runId, now(i), c);
    var values' := values + row;
    forall k, c | 0 <= k < i + 1 && 0 <= c < 5
      ensures values'[5 * k + c] == ColumnValue(tasks[k], runId, now(k), c)
    {
      if k < i {
        assert 5 * k + c < 5 * i;
        assert values'[5 * k + c] == values[5 * k + c];
      } else {
        assert values'[5 * k + c] == row[c];
      }
    }
  }

  /** Placeholder number k of row group i names value k - 1, column c of task i. */
  lemma RowsAligned(tasks: seq<AgentTestTask>, runId: string, now: nat -> string, values: seq<SqlValue>)
    requires RowsOf(tasks, runId, now, values, |tasks|)
    ensures forall i, c :: 0 <= i < |tasks| && 0 <= c < 5 ==>
      values[GroupNumbers(i)[c] - 1] == ColumnValue(tasks[i], runId, now(i), c)
  {
    forall i, c | 0 <= i < |tasks| && 0 <= c < 5
      ensures values[GroupNumbers(i)[c] - 1] == ColumnValue(tasks[i], runId, now(i), c)
    {
      assert GroupNumbers(i)[c] - 1 == 5 * i + c;
    }
  }

  // ---------------------------------------------------------------------------
  // updateAgentTestTask

  /** The fields an update may carry; undefined ones are None or Absent. */
  datatype TaskUpdates = TaskUpdates(
    success: Option<bool>,
    errorReason: Field<string>,
    videoUrl: Field<string>,
    details: Option<Details>)

  /** The updatable columns, in the order the SET clause lists them. */
  datatype Column = SuccessColumn | ErrorReasonColumn | VideoUrlColumn | DetailsColumn

  function Rank(c: Column): nat {
    match c
    case SuccessColumn => 0
    case ErrorReasonColumn => 1
    case VideoUrlColumn => 2
    case DetailsColumn => 3
  }

  /** Whether the update carries the column's field; null counts as given. */
  predicate Given(u: TaskUpdates, c: Column) {
    match c
    case SuccessColumn => u.success.Some?
    case ErrorReasonColumn => !u.errorReason.Absent?
    case VideoUrlColumn => !u.videoUrl.Absent?
    case DetailsColumn => u.details.Some?
  }

  function ColumnOfRank(k: nat): (c: Column)
    requires k < 4
    ensures Rank(c) == k
  {
    if k == 0 then SuccessColumn
    else if k == 1 then ErrorReasonColumn
    else if k == 2 then VideoUrlColumn
    else DetailsColumn
  }

  /** The given columns of rank below n, in rank order. */
  function ColumnsThrough(u: TaskUpdates, n: nat): (cols: seq<Column>)
    requires n <= 4
    ensures forall c :: c in cols <==> Given(u, c) && Rank(c) < n
    ensures forall i, j :: 0 <= i < j < |cols| ==> Rank(cols[i]) < Rank(cols[j])
  {
    if n == 0 then []
    else
      var c := ColumnOfRank(n - 1);
      ColumnsThrough(u, n - 1) + (if Given(u, c) then [c] else [])
  }

  /** The columns the update sets: each given field once, in the fixed column order. */
  function SetColumns(u: TaskUpdates): (cols: seq<Column>)
    ensures forall c :: c in cols <==> Given(u, c)
    ensures forall i, j :: 0 <= i < j < |cols| ==> Rank(cols[i]) < Rank(cols[j])
  {
    ColumnsThrough(u, 4)
  }

  /** The SET item for a column bound to `$k`; details is cast to jsonb. */
  function Assignment(c: Column, k: nat): string {
    match c
    case SuccessColumn => "success = " + Placeholder(k)
    case ErrorReasonColumn => "error_reason = " + Placeholder(k)
    case VideoUrlColumn => "video_url = " + Placeholder(k)
    case DetailsColumn => "details = " + Placeholder(k) + "::jsonb"
  }

  function FieldValue(f: Field<string>): SqlValue {
    match f
    case Present(s) => SqlText(s)
    case _ => SqlNull
  }

  /** The value bound for a given column; details is bound as its JSON text. */
  function Binding(u: TaskUpdates, c: Column, stringify: JsValue -> string): SqlValue
    requires Given(u, c)
  {
    match c
    case SuccessColumn => SqlBool(u.success.value)
    case ErrorReasonColumn => FieldValue(u.errorReason)
    case VideoUrlColumn => FieldValue(u.videoUrl)
    case DetailsColumn => SqlText(stringify(DetailsJson(u.details.value)))
  }

  /** The SET items for the columns, numbered $1 .. $k in order. */
  function Assignments(cols: seq<Column>): (items: seq<string>)
    ensures |items| == |cols|
    ensures forall i :: 0 <= i < |cols| ==> items[i] == Assignment(cols[i], i + 1)
  {
    if cols == [] then [] else Assignments(cols[..|cols| - 1]) + [Assignment(cols[|cols| - 1], |cols|)]
  }

  /** The values bound for the columns, in order. */
  function Bindings(u: TaskUpdates, cols: seq<Column>, stringify: JsValue -> string): (vals: seq<SqlValue>)
    requires forall c :: c in cols ==> Given(u, c)
    ensures |vals| == |cols|
    ensures forall i :: 0 <= i < |cols| ==> vals[i] == Binding(u, cols[i], stringify)
  {
    if cols == [] then []
    else
      var last := cols[|cols| - 1];
      assert last in cols;
      Bindings(u, cols[..|cols| - 1], stringify) + [Binding(u, last, stringify)]
  }

  /**
   * The SET items, the values and the next parameter number after the
   * blocks of the first n columns have run.
   */
  function ClausesThrough(u: TaskUpdates, n: nat, stringify: JsValue -> string): (seq<string>, seq<SqlValue>, nat)
    requires n <= 4
  {
    if n == 0 then ([], [], 1)
    else
      var prev := ClausesThrough(u, n - 1, stringify);
      var c := ColumnOfRank(n - 1);
      if Given(u, c) then (prev.0 + [Assignment(c, prev.2)], prev.1 + [Binding(u, c, stringify)], prev.2 + 1)
      else prev
  }

  /**
   * After the blocks of the first n columns, the lists hold one SET item and
   * one value per given column of rank below n, numbered $1, $2, ... in
   * order, and the next number is one past the last.
   */
  lemma {:induction false} ClausesThroughColumns(u: TaskUpdates, n: nat, stringify: JsValue -> string)
    requires n <= 4
    ensures var cols, r := ColumnsThrough(u, n), ClausesThrough(u, n, stringify);
      r.0 == Assignments(cols) && r.1 == Bindings(u, cols, stringify) && r.2 == |cols| + 1
  {
    if n > 0 {
      ClausesThroughColumns(u, n - 1, stringify);
      var cols := ColumnsThrough(u, n - 1);
      var prev := ClausesThrough(u, n - 1, stringify);
      var c := ColumnOfRank(n - 1);
      if Given(u, c) {
        assert ColumnsThrough(u, n) == cols + [c];
        assert ClausesThrough(u, n, stringify)
          == (prev.0 + [Assignment(c, prev.2)], prev.1 + [Binding(u, c, stringify)], prev.2 + 1);
        AssignmentsSnoc(cols, c);
        BindingsSnoc(u, cols, c, stringify);
      } else {
        assert ColumnsThrough(u, n) == cols;
        assert ClausesThrough(u, n, stringify) == prev;
      }
    }
  }

  /** One more column adds its SET item, numbered one past the others. */
  lemma AssignmentsSnoc(cols: seq<Column>, c: Column)
    ensures Assignments(cols + [c]) == Assignments(cols) + [Assignment(c, |cols| + 1)]
  {
    assert (cols + [c])[..|cols|] == cols;
  }

  /** One more given column adds its value after the others. */
  lemma BindingsSnoc(u: TaskUpdates, cols: seq<Column>, c: Column, stringify: JsValue -> string)
    requires Given(u, c) && forall x :: x in cols ==> Given(u, x)
    ensures Bindings(u, cols + [c], stringify) == Bindings(u, cols, stringify) + [Binding(u, c, stringify)]
  {
    assert (cols + [c])[..|cols|] == cols;
  }

  /**
   * One field block of `updateAgentTestTask`: when the field of column c is
   * given, push its SET item numbered paramIndex, advance paramIndex, and
   * push its value; otherwise change nothing. The four blocks of the
   * source differ only in the column.
   */
  method AddClause(u: TaskUpdates, c: Column, stringify: JsValue -> string,
                   updatesList: seq<string>, values: seq<SqlValue>, paramIndex: nat)
    returns (updatesList': seq<string>, values': seq<SqlValue>, paramIndex': nat)
    requires Rank(c) < 4 && (updatesList, values, paramIndex) == ClausesThrough(u, Rank(c), stringify)
    ensures (updatesList', values', paramIndex') == ClausesThrough(u, Rank(c) + 1, stringify)
  {
    updatesList', values', paramIndex' := updatesList, values, paramIndex;
    if Given(u, c) {
      updatesList' := updatesList' + [Assignment(c, paramIndex')];
      paramIndex' := paramIndex' + 1;
      values' := values' + [Binding(u, c, stringify)];
    }
  }

  /**
   * The SET items and values of `updateAgentTestTask`: one per given field,
   * in the fixed column order, numbered from $1; paramIndex ends one past
   * the last number.
   */
  method SetClauses(u: TaskUpdates, stringify: JsValue -> string)
    returns (updatesList: seq<string>, values: seq<SqlValue>, paramIndex: nat)
    ensures updatesList == Assignments(SetColumns(u))
    ensures values == Bindings(u, SetColumns(u), stringify)
    ensures paramIndex == |values| + 1
  {
    updatesList, values, paramIndex := [], [], 1;
    updatesList, values, paramIndex := AddClause(u, SuccessColumn, stringify, updatesList, values, paramIndex);
    updatesList, values, paramIndex := AddClause(u, ErrorReasonColumn, stringify, updatesList, values, paramIndex);
    updatesList, values, paramIndex := AddClause(u, VideoUrlColumn, stringify, updatesList, values, paramIndex);
    updatesList, values, paramIndex := AddClause(u, DetailsColumn, stringify, updatesList, values, paramIndex);
    ClausesThroughColumns(u, 4, stringify);
  }

  /**
   * `updateAgentTestTask(taskId, updates)`, with JSON.stringify given. No
   * statement when no field is given; otherwise one SET item per given
   * field, numbered consecutively from $1, the values in the same order,
   * and taskId last, bound to the WHERE placeholder.
   */
  method UpdateAgentTestTask(taskId: string, u: TaskUpdates, stringify: JsValue -> string)
    returns (q: Option<Query>)
    ensures q.None? <==> forall c :: !Given(u, c)
    ensures q.Some? ==>
      var cols := SetColumns(u);
      q.value.sql == "UPDATE agent_test_tasks SET " + Join(Assignments(cols), ", ")
        + " WHERE id = " + Placeholder(|q.value.params|)
      && q.value.params == Bindings(u, cols, stringify) + [SqlText(taskId)]
  {
    var updatesList, values, paramIndex := SetClauses(u, stringify);
    NoClauses(u);
    if |updatesList| == 0 {
      return None;
    }
    values := values + [SqlText(taskId)];
    q := Some(Query("UPDATE agent_test_tasks SET " + Join(updatesList, ", ") + " WHERE id = " + Placeholder(paramIndex), values));
  }

  /** There are no SET items exactly when no field is given. */
  lemma NoClauses(u: TaskUpdates)
    ensures |SetColumns(u)| == 0 <==> forall c :: !Given(u, c)
  {
    var cols := SetColumns(u);
    if |cols| > 0 {
      assert cols[0] in cols;
    }
  }

}
