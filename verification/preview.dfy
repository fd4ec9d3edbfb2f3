/** The preview script's `main`: it reports that the database exists and
    whether the table exists, shows a few rows and the column list, reports
    the range of every time column, and finally queries the largest reading
    of one day. The database's answers
    (the rows, the minima and maxima, the day's maximum) are not modelled;
    the model records which report is issued, in order. */
module Preview {
  import opened Schema

  /** One report of `main`. */
  datatype Step =
    | DatabaseFound
    | TableStatus(found: bool)
    | TableNotFound
    | TopRows
    | ColumnList(columns: seq<string>)
    | NoTimeColumns
    | TimeRange(column: string)
    | SchemaProblem(error: SchemaError)
    | MaxQuery(roles: Roles)

  /** The reports `main` issues, given the table count that the
      information_schema query returns and the table's columns in ordinal
      order. */
  function Plan(tableCount: int, columns: seq<string>): seq<Step>
  {
    if tableCount <= 0 then [DatabaseFound, TableStatus(false), TableNotFound]
    else
      [DatabaseFound, TableStatus(true), TopRows, ColumnList(columns)]
        + RangeSteps(TimeColumns(columns))
        + [FinalStep(columns)]
  }

  function RangeSteps(times: seq<string>): (r: seq<Step>)
  {
    if times == [] then [NoTimeColumns]
    else seq(|times|, k requires 0 <= k < |times| => TimeRange(times[k]))
  }

  /** The day's maximum is queried with the roles every tool resolves, or the
      resolution error is reported. */
  function FinalStep(columns: seq<string>): Step
  {
    match Resolve(columns)
    case Unresolved(e) => SchemaProblem(e)
    case Resolved(roles) => MaxQuery(roles)
  }

  /** `main`, with its loop over the time columns. */
  method PreviewTable(tableCount: int, columns: seq<string>) returns (steps: seq<Step>)
    ensures steps == Plan(tableCount, columns)
  {
    var found := tableCount > 0;
    steps := [DatabaseFound, TableStatus(found)];
    if !found {
      steps := steps + [TableNotFound];
      return;
    }
    var head := [DatabaseFound, TableStatus(true), TopRows, ColumnList(columns)];
    steps := head;
    var times := TimeColumns(columns);
    if times == [] {
      steps := steps + [NoTimeColumns];
    } else {
      for i := 0 to |times|
        invariant steps == head + seq(i, k requires 0 <= k < i => TimeRange(times[k]))
      {
        steps := steps + [TimeRange(times[i])];
      }
    }
    var resolution := Resolve(columns);
    if resolution.Unresolved? {
      steps := steps + [SchemaProblem(resolution.error)];
    } else {
      steps := steps + [MaxQuery(resolution.roles)];
    }
  }

  /** The columns whose range is reported, in report order. */
  function Ranged(steps: seq<Step>): seq<string>
  {
    if steps == [] then [] else RangeOf(steps[0]) + Ranged(steps[1..])
  }

  function RangeOf(step: Step): seq<string>
  {
    if step.TimeRange? then [step.column] else []
  }

  lemma {:induction false} RangedConcat(a: seq<Step>, b: seq<Step>)
    ensures Ranged(a + b) == Ranged(a) + Ranged(b)
  {
    if a == [] {
      assert a + b == b;
    } else {
      var c := a + b;
      assert c[0] == a[0] && c[1..] == a[1..] + b;
      RangedConcat(a[1..], b);
      assert Ranged(c) == RangeOf(a[0]) + (Ranged(a[1..]) + Ranged(b));
    }
  }

  lemma {:induction false} RangedNone(steps: seq<Step>)
    requires forall k :: 0 <= k < |steps| ==> !steps[k].TimeRange?
    ensures Ranged(steps) == []
  {
    if steps != [] {
      RangedNone(steps[1..]);
    }
  }

  lemma {:induction false} RangedOfRangeSteps(times: seq<string>)
    ensures Ranged(RangeSteps(times)) == times
  {
    if times != [] {
      var steps := RangeSteps(times);
      if |times| == 1 {
        assert steps[1..] == [];
      } else {
        assert steps[1..] == RangeSteps(times[1..]);
        RangedOfRangeSteps(times[1..]);
      }
      assert times == [times[0]] + times[1..];
    }
  }

  /** The database is always reported present, then the table, which is
      reported present exactly when the count is positive; a missing table
      ends `main` with nothing else reported. */
  lemma {:induction false} MissingTableStopsEarly(tableCount: int, columns: seq<string>)
    ensures Plan(tableCount, columns)[0] == DatabaseFound
    ensures Plan(tableCount, columns)[1] == TableStatus(tableCount > 0)
    ensures TableNotFound in Plan(tableCount, columns) <==> tableCount <= 0
    ensures tableCount <= 0 ==> |Plan(tableCount, columns)| == 3
  {
    var p := Plan(tableCount, columns);
    if tableCount > 0 {
      var times := TimeColumns(columns);
      var ranges := RangeSteps(times);
      assert p == [DatabaseFound, TableStatus(true), TopRows, ColumnList(columns)] + ranges + [FinalStep(columns)];
      assert TableNotFound !in ranges;
      assert FinalStep(columns) != TableNotFound;
    }
  }

  /** For a present table, exactly one range is reported per time column, in
      column order. */
  lemma {:induction false} OneRangePerTimeColumn(tableCount: int, columns: seq<string>)
    requires tableCount > 0
    ensures Ranged(Plan(tableCount, columns)) == TimeColumns(columns)
  {
    var times := TimeColumns(columns);
    var head := [DatabaseFound, TableStatus(true), TopRows, ColumnList(columns)];
    var ranges := RangeSteps(times);
    var last := [FinalStep(columns)];
    assert Plan(tableCount, columns) == head + ranges + last;
    RangedConcat(head + ranges, last);
    RangedConcat(head, ranges);
    RangedOfRangeSteps(times);
    RangedNone(head);
    RangedNone(last);
  }

  /** For a present table, "no time columns" is reported exactly when no
      column name mentions a time or a date. */
  lemma {:induction false} NotFoundIffNoTimeColumn(tableCount: int, columns: seq<string>)
    requires tableCount > 0
    ensures NoTimeColumns in Plan(tableCount, columns) <==> NoneOfRole(columns, Time)
  {
    var times := TimeColumns(columns);
    var ranges := RangeSteps(times);
    assert Plan(tableCount, columns) == [DatabaseFound, TableStatus(true), TopRows, ColumnList(columns)] + ranges + [FinalStep(columns)];
    assert NoTimeColumns in ranges <==> times == [] by {
      if times != [] {
        assert forall k :: 0 <= k < |ranges| ==> ranges[k].TimeRange?;
      }
    }
    assert FinalStep(columns) != NoTimeColumns;
  }

  /** For a present table, the last report follows the rule of the query
      tools: a missing vibration column first, then a missing time column,
      otherwise the query on the first time column. */
  lemma {:induction false} FinalStepFollowsTools(tableCount: int, columns: seq<string>)
    requires tableCount > 0
    ensures var p := Plan(tableCount, columns); var s := p[|p| - 1];
              && (s == SchemaProblem(NoVibrationColumn) <==> NoneOfRole(columns, Vibration))
              && (s == SchemaProblem(NoTimeColumn) <==> !NoneOfRole(columns, Vibration) && NoneOfRole(columns, Time))
              && (s.MaxQuery? ==> TimeColumns(columns) != [] && s.roles.timeColumn == TimeColumns(columns)[0])
  {
    if Resolve(columns).Resolved? {
      ResolvedTimeIsFirstTimeColumn(columns);
    }
  }
}
