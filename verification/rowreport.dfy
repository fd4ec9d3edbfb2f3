/** The reports of `get_vibration_all_on_date` (one line per fetched row) and
    `get_vibration_max_on_date` (one sentence about the row the database picked),
    from the column listing and the fetched rows onwards. */
module RowReport {
  import opened Text
  import opened Schema
  import opened Outliers

  /** A row of the two-column date query: the timestamp cell, then the reading. */
  type Pair = (Value, Value)

  /** `f"{time_col}: {row[0]}, {vibration_col}: {row[1]}"` */
  function RowLine(roles: Roles, row: Pair, show: Value -> string): string
  {
    roles.timeColumn + ": " + show(row.0) + ", " + roles.vibrationColumn + ": " + show(row.1)
  }

  function RowLines(roles: Roles, rows: seq<Pair>, show: Value -> string): (r: seq<string>)
    ensures |r| == |rows|
  {
    seq(|rows|, k requires 0 <= k < |rows| => RowLine(roles, rows[k], show))
  }

  /** `get_vibration_all_on_date`, with `rows` what the date query returns for
      the resolved columns. */
  function AllOnDate(date: string, columns: seq<string>, rows: seq<Pair>, show: Value -> string): (r: string)
    ensures Resolve(columns).Unresolved? ==> r == SchemaMessage(Resolve(columns).error)
    ensures Resolve(columns).Resolved? && rows == [] ==> r == NoDataMessage(date)
  {
    match Resolve(columns)
    case Unresolved(e) => SchemaMessage(e)
    case Resolved(roles) =>
      if rows == [] then NoDataMessage(date) else Join(RowLines(roles, rows, show), "\n")
  }

  /** With at least one row, the report has exactly one line per row, in the
      order of the rows, and no trailing line feed, as long as no cell's text
      holds a line feed. */
  lemma {:induction false} OneLinePerRow(date: string, columns: seq<string>, rows: seq<Pair>, show: Value -> string)
    requires Resolve(columns).Resolved? && rows != []
    requires var roles := Resolve(columns).roles;
               forall k :: 0 <= k < |rows| ==> '\n' !in RowLine(roles, rows[k], show)
    ensures var r := AllOnDate(date, columns, rows, show);
              Split(r, '\n') == RowLines(Resolve(columns).roles, rows, show) &&
              r != [] && r[|r| - 1] != '\n'
  {
    var roles := Resolve(columns).roles;
    var lines := RowLines(roles, rows, show);
    forall k | 0 <= k < |lines|
      ensures lines[k] != [] && '\n' !in lines[k]
    {
      assert lines[k] == RowLine(roles, rows[k], show);
      assert RowLine(roles, rows[k], show)[|roles.timeColumn|] == ':';
    }
    JoinEnds(lines, "\n");
    SplitJoin(lines, '\n');
  }

  /** `get_vibration_max_on_date`, with `top` the row the database returns for
      the largest reading of the day, if any. */
  function MaxOnDate(date: string, columns: seq<string>, top: Option<Pair>, show: Value -> string): (r: string)
    ensures Resolve(columns).Unresolved? ==> r == SchemaMessage(Resolve(columns).error)
    ensures Resolve(columns).Resolved? && top.None? ==> r == NoDataMessage(date)
  {
    match Resolve(columns)
    case Unresolved(e) => SchemaMessage(e)
    case Resolved(roles) =>
      match top
      case None => NoDataMessage(date)
      case Some(row) =>
        "在 " + date + "，最大 " + roles.vibrationColumn + " 為 " + show(row.1) +
        "，發生於 " + roles.timeColumn + ": " + show(row.0)
  }

  /** Both date tools answer a schema failure differently from a day with no
      rows, whatever the date. */
  lemma {:induction false} SchemaFailureIsNotNoData(date: string, columns: seq<string>, pairs: seq<Pair>,
                                                    top: Option<Pair>, show: Value -> string)
    requires Resolve(columns).Unresolved?
    ensures AllOnDate(date, columns, pairs, show) != NoDataMessage(date)
    ensures MaxOnDate(date, columns, top, show) != NoDataMessage(date)
  {
    SchemaAnswerIsNotNoData(date, Resolve(columns).error, show);
  }

  /** The three database tools apply one sniffing rule: for the same column
      list, they fail with the same message, a missing vibration column
      taking precedence over a missing time column. */
  lemma {:induction false} ToolsShareSchemaRule(date: string, columns: seq<string>, pairs: seq<Pair>,
                                               top: Option<Pair>, rows: seq<Row>, t: real, show: Value -> string)
    requires Complete(rows, columns)
    requires Resolve(columns).Unresolved?
    ensures var m := SchemaMessage(Resolve(columns).error);
              AllOnDate(date, columns, pairs, show) == m &&
              MaxOnDate(date, columns, top, show) == m &&
              Message(date, FindOutliers(columns, rows, t), show) == m
    ensures NoneOfRole(columns, Vibration) ==> SchemaMessage(Resolve(columns).error) == "No vibration column found."
    ensures !NoneOfRole(columns, Vibration) ==> SchemaMessage(Resolve(columns).error) == "No time/date columns found for filtering."
  {
  }
}
