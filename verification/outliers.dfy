/** The outlier search of `find_vibration_outliers_on_date`, from the fetched
    rows onwards: keep the numeric readings of the vibration column, compute
    their population mean and standard deviation, flag every row whose reading
    lies more than `threshold` standard deviations from the mean, and report
    the flagged rows, numbered from 1. */
module Outliers {
  import opened Text
  import opened Schema
  import opened Stats

  /** A cell of a fetched row: a Python `int` or `float` (`Num`), or any other
      value, such as a timestamp or a string (`NonNum`). */
  datatype Value = Num(x: real) | NonNum(text: string)

  /** A row as `cursor(dictionary=True)` returns it: column name to cell. */
  type Row = map<string, Value>

  /** An outlier as reported: column name and cell, in column order. */
  type Record = seq<(string, Value)>

  /** `SELECT *` returns every column of the table in every row. */
  predicate HasAll(row: Row, columns: seq<string>)
  {
    forall c :: c in columns ==> c in row
  }

  predicate Complete(rows: seq<Row>, columns: seq<string>)
  {
    forall i :: 0 <= i < |rows| ==> HasAll(rows[i], columns)
  }

  predicate HasColumn(rows: seq<Row>, col: string)
  {
    forall i :: 0 <= i < |rows| ==> col in rows[i]
  }

  lemma {:induction false} CompleteHasColumn(rows: seq<Row>, columns: seq<string>, col: string)
    requires Complete(rows, columns) && col in columns
    ensures HasColumn(rows, col)
  {
    forall i | 0 <= i < |rows|
      ensures col in rows[i]
    {
      assert HasAll(rows[i], columns);
    }
  }

  /** `[row[col] for row in rows if isinstance(row[col], (int, float))]` */
  function NumericValues(rows: seq<Row>, col: string): (r: seq<real>)
    requires HasColumn(rows, col)
    ensures |r| <= |rows|
  {
    if rows == [] then []
    else
      var init := rows[..|rows| - 1];
      assert forall i :: 0 <= i < |init| ==> init[i] == rows[i];
      match rows[|rows| - 1][col]
      case Num(x) => NumericValues(init, col) + [x]
      case NonNum(_) => NumericValues(init, col)
  }

  /** The readings of a list of rows are the readings of its two parts, in
      order; a row contributes its reading if it is a number and nothing
      otherwise. */
  lemma {:induction false} NumericValuesAppend(a: seq<Row>, b: seq<Row>, col: string)
    requires HasColumn(a, col) && HasColumn(b, col)
    ensures HasColumn(a + b, col)
    ensures NumericValues(a + b, col) == NumericValues(a, col) + NumericValues(b, col)
    decreases |b|
  {
    if b == [] {
      assert a + b == a;
    } else {
      var b' := b[..|b| - 1];
      assert (a + b)[..|a + b| - 1] == a + b';
      NumericValuesAppend(a, b', col);
    }
  }

  lemma {:induction false} NumericValuesOne(row: Row, col: string)
    requires col in row
    ensures NumericValues([row], col) == if row[col].Num? then [row[col].x] else []
  {
    assert [row][..0] == [];
  }

  /** There are no readings exactly when no cell of the column is a number. */
  lemma {:induction false} NoReadingsIffNoNumericCell(rows: seq<Row>, col: string)
    requires HasColumn(rows, col)
    ensures NumericValues(rows, col) == [] <==> forall j :: 0 <= j < |rows| ==> !rows[j][col].Num?
    decreases |rows|
  {
    if rows != [] {
      var init := rows[..|rows| - 1];
      assert forall i :: 0 <= i < |init| ==> init[i] == rows[i];
      NoReadingsIffNoNumericCell(init, col);
    }
  }

  /** Every numeric cell of the column is one of the readings. */
  lemma {:induction false} NumericValueIndex(rows: seq<Row>, col: string, j: int)
    requires HasColumn(rows, col) && 0 <= j < |rows| && rows[j][col].Num?
    ensures exists k :: 0 <= k < |NumericValues(rows, col)| && NumericValues(rows, col)[k] == rows[j][col].x
    decreases |rows|
  {
    var init := rows[..|rows| - 1];
    assert forall i :: 0 <= i < |init| ==> init[i] == rows[i];
    if j < |rows| - 1 {
      NumericValueIndex(init, col, j);
      var k :| 0 <= k < |NumericValues(init, col)| && NumericValues(init, col)[k] == init[j][col].x;
      assert NumericValues(rows, col)[k] == rows[j][col].x;
    } else {
      var k := |NumericValues(init, col)|;
      assert NumericValues(rows, col)[k] == rows[j][col].x;
    }
  }

  /** The outlier test of `find_vibration_outliers_on_date` without the square root. With `std` the root of
      `variance`, `std > 0` is `variance > 0`, and for a positive `std`,
      `|v - avg| > t * std` is `t < 0 or (v - avg)² > t² * variance`
      (see `FlagsAgreesWithStd`). */
  predicate Flags(v: Value, avg: real, variance: real, t: real)
  {
    v.Num? && variance > 0.0 && (t < 0.0 || Square(v.x - avg) > Square(t) * variance)
  }

  function Abs(x: real): real
  {
    if x < 0.0 then -x else x
  }

  /** The square-root-free test agrees with the test as written, for every
      square root `std` of the variance. */
  lemma {:induction false} FlagsAgreesWithStd(v: Value, avg: real, variance: real, t: real, std: real)
    requires std >= 0.0 && Square(std) == variance
    ensures Flags(v, avg, variance, t) <==> v.Num? && std > 0.0 && Abs(v.x - avg) > t * std
  {
    RootPositive(std, variance);
    if v.Num? && std > 0.0 {
      var d := Abs(v.x - avg);
      assert Square(d) == Square(v.x - avg);
      if t < 0.0 {
        NegativeTimesPositive(t, std);
      } else {
        ProductNonNegative(t, std);
        SquareMonotone(d, t * std);
        SquareOfProduct(t, std);
      }
    }
  }

  /** `{col: row[col] for col in columns}`: a dictionary keeps the first
      position of a repeated key, so the record lists each distinct column
      once, in order. */
  function Project(row: Row, columns: seq<string>): Record
    requires HasAll(row, columns)
  {
    var cols := Distinct(columns);
    seq(|cols|, k requires 0 <= k < |cols| => (cols[k], row[cols[k]]))
  }

  /** The column names of a record, in order. */
  function Keys(r: Record): seq<string>
  {
    seq(|r|, k requires 0 <= k < |r| => r[k].0)
  }

  /** A projected row names every column once, with the row's cell for it;
      for a table's columns, which have no repeats, the names come in column
      order. */
  lemma {:induction false} ProjectKeepsColumns(row: Row, columns: seq<string>)
    requires HasAll(row, columns)
    ensures var r := Project(row, columns);
              && (forall k :: 0 <= k < |r| ==> r[k].0 in row && r[k].1 == row[r[k].0])
              && (forall c :: c in Keys(r) <==> c in columns)
              && (forall i, j :: 0 <= i < j < |r| ==> r[i].0 != r[j].0)
              && ((forall i, j :: 0 <= i < j < |columns| ==> columns[i] != columns[j]) ==> Keys(r) == columns)
  {
    var r := Project(row, columns);
    assert Keys(r) == Distinct(columns);
    if forall i, j :: 0 <= i < j < |columns| ==> columns[i] != columns[j] {
      DistinctFromKeeps(columns, {});
    }
  }

  /** The elements of `cs` not in `seen`, each once, at its first position. */
  function DistinctFrom(cs: seq<string>, seen: set<string>): (r: seq<string>)
    ensures forall c :: c in r <==> c in cs && c !in seen
    ensures forall i, j :: 0 <= i < j < |r| ==> r[i] != r[j]
  {
    if cs == [] then []
    else if cs[0] in seen then DistinctFrom(cs[1..], seen)
    else [cs[0]] + DistinctFrom(cs[1..], seen + {cs[0]})
  }

  function Distinct(cs: seq<string>): (r: seq<string>)
    ensures forall c :: c in r <==> c in cs
    ensures forall i, j :: 0 <= i < j < |r| ==> r[i] != r[j]
  {
    DistinctFrom(cs, {})
  }

  /** Column names without repeats (as a table's are) are kept as they are. */
  lemma {:induction false} DistinctFromKeeps(cs: seq<string>, seen: set<string>)
    requires forall i, j :: 0 <= i < j < |cs| ==> cs[i] != cs[j]
    requires forall c :: c in cs ==> c !in seen
    ensures DistinctFrom(cs, seen) == cs
  {
    if cs != [] {
      assert forall c :: c in cs[1..] ==> c !in seen + {cs[0]} by {
        forall c | c in cs[1..]
          ensures c !in seen + {cs[0]}
        {
          var j :| 0 <= j < |cs[1..]| && cs[1..][j] == c;
          assert cs[j + 1] == c;
        }
      }
      DistinctFromKeeps(cs[1..], seen + {cs[0]});
    }
  }

  /** Row `row` holds a reading in column `col` that the test flags. */
  predicate FlaggedRow(row: Row, col: string, avg: real, variance: real, t: real)
  {
    col in row && Flags(row[col], avg, variance, t)
  }

  /** The positions of the flagged rows, in increasing order. */
  function FlaggedIndices(rows: seq<Row>, col: string, avg: real, variance: real, t: real): (r: seq<int>)
    ensures forall k :: 0 <= k < |r| ==> 0 <= r[k] < |rows|
    ensures forall k, l :: 0 <= k < l < |r| ==> r[k] < r[l]
    ensures forall j :: j in r <==> 0 <= j < |rows| && FlaggedRow(rows[j], col, avg, variance, t)
    ensures |r| <= |rows|
    ensures r == [] <==> forall j :: 0 <= j < |rows| ==> !FlaggedRow(rows[j], col, avg, variance, t)
  {
    if rows == [] then []
    else
      var init := rows[..|rows| - 1];
      assert forall i :: 0 <= i < |init| ==> init[i] == rows[i];
      var last := |rows| - 1;
      var before := FlaggedIndices(init, col, avg, variance, t);
      if FlaggedRow(rows[last], col, avg, variance, t) then
        assert last in before + [last];
        before + [last]
      else
        before
  }

  /** The `outliers` list of `find_vibration_outliers_on_date`: the flagged
      rows, in row order, each projected onto the columns. */
  function OutlierRecords(rows: seq<Row>, col: string, columns: seq<string>, avg: real, variance: real, t: real): seq<Record>
    requires Complete(rows, columns)
  {
    if rows == [] then []
    else
      var init, row := rows[..|rows| - 1], rows[|rows| - 1];
      assert forall i :: 0 <= i < |init| ==> init[i] == rows[i];
      var before := OutlierRecords(init, col, columns, avg, variance, t);
      if FlaggedRow(row, col, avg, variance, t) then before + [Project(row, columns)] else before
  }

  /** The outliers are the projections of the rows at the flagged positions,
      one per position, in row order. */
  lemma {:induction false} OutlierRecordsAreFlaggedRows(rows: seq<Row>, col: string, columns: seq<string>, avg: real, variance: real, t: real)
    requires Complete(rows, columns)
    ensures var r, idx := OutlierRecords(rows, col, columns, avg, variance, t), FlaggedIndices(rows, col, avg, variance, t);
              |r| == |idx| && forall k :: 0 <= k < |r| ==> r[k] == Project(rows[idx[k]], columns)
  {
    if rows != [] {
      var init, row := rows[..|rows| - 1], rows[|rows| - 1];
      assert forall i :: 0 <= i < |init| ==> init[i] == rows[i];
      OutlierRecordsAreFlaggedRows(init, col, columns, avg, variance, t);
      var before, r := OutlierRecords(init, col, columns, avg, variance, t), OutlierRecords(rows, col, columns, avg, variance, t);
      var idx, all := FlaggedIndices(init, col, avg, variance, t), FlaggedIndices(rows, col, avg, variance, t);
      var flagged := FlaggedRow(row, col, avg, variance, t);
      assert all == if flagged then idx + [|rows| - 1] else idx;
      assert r == if flagged then before + [Project(row, columns)] else before;
      forall k | 0 <= k < |r|
        ensures r[k] == Project(rows[all[k]], columns)
      {
        if k < |before| {
          assert r[k] == before[k] && all[k] == idx[k] && init[idx[k]] == rows[idx[k]];
        }
      }
    }
  }

  /** How the search ends; each error is its own outcome. */
  datatype Outcome =
    | SchemaFailure(error: SchemaError)
    | NoRows
    | NoNumericValues
    | NoOutliers
    | Found(outliers: seq<Record>)

  /** The outcome of the search once the vibration column `col` is known. */
  function Search(columns: seq<string>, col: string, rows: seq<Row>, t: real): (r: Outcome)
    requires Complete(rows, columns) && col in columns
    ensures !r.SchemaFailure?
    ensures r.Found? ==> r.outliers != [] && |r.outliers| <= |rows|
  {
    CompleteHasColumn(rows, columns, col);
    if rows == [] then NoRows
    else
      var values := NumericValues(rows, col);
      if values == [] then NoNumericValues
      else
        var recs := OutlierRecords(rows, col, columns, Mean(values), Variance(values), t);
        OutlierRecordsAreFlaggedRows(rows, col, columns, Mean(values), Variance(values), t);
        if recs == [] then NoOutliers else Found(recs)
  }

  /** The outcome of the search over the fetched rows: a schema failure comes
      before everything else. */
  function FindOutliers(columns: seq<string>, rows: seq<Row>, t: real): (r: Outcome)
    requires Complete(rows, columns)
    ensures r.SchemaFailure? <==> Resolve(columns).Unresolved?
  {
    match Resolve(columns)
    case Unresolved(e) => SchemaFailure(e)
    case Resolved(roles) =>
      assert exists j :: FirstOfRole(columns, j, Vibration) && columns[j] == roles.vibrationColumn;
      Search(columns, roles.vibrationColumn, rows, t)
  }

  /** The four outcomes of the search once the vibration column `col` is
      known: no rows; rows but no numeric cell; readings but no flagged row;
      or the projections of the flagged rows, one per flagged row and in row
      order, for the mean and variance of the readings. */
  lemma {:induction false} SearchOutcomes(columns: seq<string>, col: string, rows: seq<Row>, t: real)
    requires Complete(rows, columns) && col in columns
    ensures HasColumn(rows, col)
    ensures Search(columns, col, rows, t) == NoRows <==> rows == []
    ensures Search(columns, col, rows, t) == NoNumericValues <==>
              rows != [] && forall j :: 0 <= j < |rows| ==> !rows[j][col].Num?
    ensures var vs := NumericValues(rows, col);
              Search(columns, col, rows, t) == NoOutliers <==>
                vs != [] && FlaggedIndices(rows, col, Mean(vs), Variance(vs), t) == []
    ensures var r, vs := Search(columns, col, rows, t), NumericValues(rows, col);
              r.Found? ==>
                && vs != []
                && var idx := FlaggedIndices(rows, col, Mean(vs), Variance(vs), t);
                   |r.outliers| == |idx| && forall k :: 0 <= k < |idx| ==> r.outliers[k] == Project(rows[idx[k]], columns)
  {
    CompleteHasColumn(rows, columns, col);
    NoReadingsIffNoNumericCell(rows, col);
    var vs := NumericValues(rows, col);
    if rows != [] && vs != [] {
      OutlierRecordsAreFlaggedRows(rows, col, columns, Mean(vs), Variance(vs), t);
    }
  }

  /** `FindOutliers` with resolved columns is the search on the vibration
      column, so its outcomes are those of `SearchOutcomes`. */
  lemma {:induction false} FindOutliersOutcomes(columns: seq<string>, rows: seq<Row>, t: real)
    requires Complete(rows, columns) && Resolve(columns).Resolved?
    ensures var col := Resolve(columns).roles.vibrationColumn;
              && HasColumn(rows, col)
              && (FindOutliers(columns, rows, t) == NoRows <==> rows == [])
              && (FindOutliers(columns, rows, t) == NoNumericValues <==>
                    rows != [] && forall j :: 0 <= j < |rows| ==> !rows[j][col].Num?)
              && (var vs := NumericValues(rows, col);
                  FindOutliers(columns, rows, t) == NoOutliers <==>
                    vs != [] && FlaggedIndices(rows, col, Mean(vs), Variance(vs), t) == [])
              && (var r, vs := FindOutliers(columns, rows, t), NumericValues(rows, col);
                  r.Found? ==>
                    && vs != []
                    && var idx := FlaggedIndices(rows, col, Mean(vs), Variance(vs), t);
                       |r.outliers| == |idx| && forall k :: 0 <= k < |idx| ==> r.outliers[k] == Project(rows[idx[k]], columns))
  {
    var col := Resolve(columns).roles.vibrationColumn;
    assert FindOutliers(columns, rows, t) == Search(columns, col, rows, t);
    SearchOutcomes(columns, col, rows, t);
  }

  const HeadingLine := "離群值資料如下："
  const Header := HeadingLine + "\n"

  /** `", ".join(f"{k}: {v}" for k, v in outlier.items())`, with `show` for `str`. */
  function Info(rec: Record, show: Value -> string): string
  {
    Join(seq(|rec|, j requires 0 <= j < |rec| => rec[j].0 + ": " + show(rec[j].1)), ", ")
  }

  /** `f"{idx}. {info}\n"` */
  function Entry(idx: nat, rec: Record, show: Value -> string): string
  {
    Digits(idx) + ". " + Info(rec, show) + "\n"
  }

  /** The `result` string of `find_vibration_outliers_on_date`: the heading,
      then one entry per outlier, numbered from 1. */
  function Report(recs: seq<Record>, show: Value -> string): string
  {
    if recs == [] then Header
    else Report(recs[..|recs| - 1], show) + Entry(|recs|, recs[|recs| - 1], show)
  }

  /** The message of every date query that returns no rows. */
  function NoDataMessage(date: string): string
  {
    date + " 沒有資料。"
  }

  /** The string the tool returns for each outcome. */
  function Message(date: string, outcome: Outcome, show: Value -> string): string
  {
    match outcome
    case SchemaFailure(e) => SchemaMessage(e)
    case NoRows => NoDataMessage(date)
    case NoNumericValues => "No valid vibration data found."
    case NoOutliers => date + " 沒有發現離群值。"
    case Found(recs) => Strip(Report(recs, show))
  }

  /** `find_vibration_outliers_on_date` after the column listing and the fetch:
      `columns` as `SHOW COLUMNS` lists them, `rows` as the date query returns
      them, `show` standing for `str`; the threshold defaults to 3.0. */
  method FindOutliersOnDate(date: string, columns: seq<string>, rows: seq<Row>, show: Value -> string, threshold: real := 3.0)
    returns (outcome: Outcome, message: string)
    requires Complete(rows, columns)
    ensures outcome == FindOutliers(columns, rows, threshold)
    ensures message == Message(date, outcome, show)
  {
    outcome := SearchRows(columns, rows, threshold);
    message := ComposeMessage(date, outcome, show);
  }

  /** The checks of `find_vibration_outliers_on_date` in order (schema, rows,
      readings), then its loop over the rows. */
  method SearchRows(columns: seq<string>, rows: seq<Row>, threshold: real) returns (outcome: Outcome)
    requires Complete(rows, columns)
    ensures outcome == FindOutliers(columns, rows, threshold)
  {
    var resolution := Resolve(columns);
    if resolution.Unresolved? {
      return SchemaFailure(resolution.error);
    }
    var col := resolution.roles.vibrationColumn;
    assert FindOutliers(columns, rows, threshold) == Search(columns, col, rows, threshold);
    CompleteHasColumn(rows, columns, col);
    if rows == [] {
      return NoRows;
    }
    var values := NumericValues(rows, col);
    if values == [] {
      return NoNumericValues;
    }
    var outliers := CollectOutliers(rows, col, columns, Mean(values), Variance(values), threshold);
    if outliers == [] {
      return NoOutliers;
    }
    return Found(outliers);
  }

  /** The string returned at each exit of the tool; for outliers, the loop
      that builds `result`, followed by `strip`. */
  method ComposeMessage(date: string, outcome: Outcome, show: Value -> string) returns (message: string)
    ensures message == Message(date, outcome, show)
  {
    match outcome
    case SchemaFailure(e) =>
      message := SchemaMessage(e);
    case NoRows =>
      message := NoDataMessage(date);
    case NoNumericValues =>
      message := "No valid vibration data found.";
    case NoOutliers =>
      message := date + " 沒有發現離群值。";
    case Found(outliers) =>
      var result := FormatReport(outliers, show);
      message := Strip(result);
  }

  /** The loop over the rows in `find_vibration_outliers_on_date`: every row
      whose reading passes the test is appended, projected onto the columns. */
  method CollectOutliers(rows: seq<Row>, col: string, columns: seq<string>, avg: real, variance: real, t: real)
    returns (outliers: seq<Record>)
    requires Complete(rows, columns) && col in columns
    ensures outliers == OutlierRecords(rows, col, columns, avg, variance, t)
  {
    CompleteHasColumn(rows, columns, col);
    outliers := [];
    var i := 0;
    while i < |rows|
      invariant 0 <= i <= |rows|
      invariant Complete(rows[..i], columns)
      invariant outliers == OutlierRecords(rows[..i], col, columns, avg, variance, t)
    {
      assert rows[..i + 1][..i] == rows[..i];
      if FlaggedRow(rows[i], col, avg, variance, t) {
        outliers := outliers + [Project(rows[i], columns)];
      }
      i := i + 1;
    }
    assert rows[..|rows|] == rows;
  }

  /** The loop that builds `result` in `find_vibration_outliers_on_date`: the
      heading, then `f"{idx}. {info}\n"` for each outlier, counting from 1. */
  method FormatReport(outliers: seq<Record>, show: Value -> string) returns (result: string)
    ensures result == Report(outliers, show)
  {
    result := Header;
    var k := 0;
    while k < |outliers|
      invariant 0 <= k <= |outliers|
      invariant result == Report(outliers[..k], show)
    {
      assert outliers[..k + 1][..k] == outliers[..k];
      result := result + Entry(k + 1, outliers[k], show);
      k := k + 1;
    }
    assert outliers[..|outliers|] == outliers;
  }

  // Properties of the search.

  /** Only rows whose reading is a number are reported. */
  lemma {:induction false} OnlyNumericRowsFlagged(rows: seq<Row>, col: string, avg: real, variance: real, t: real)
    requires HasColumn(rows, col)
    ensures forall j :: j in FlaggedIndices(rows, col, avg, variance, t) ==> rows[j][col].Num?
  {
  }

  /** Zero spread: when every reading is equal, nothing is flagged, whatever
      the threshold. */
  lemma {:induction false} ZeroSpreadFlagsNothing(rows: seq<Row>, col: string, t: real)
    requires HasColumn(rows, col) && NumericValues(rows, col) != []
    requires var vs := NumericValues(rows, col);
               forall i, j :: 0 <= i < |vs| && 0 <= j < |vs| ==> vs[i] == vs[j]
    ensures var vs := NumericValues(rows, col);
              FlaggedIndices(rows, col, Mean(vs), Variance(vs), t) == []
  {
    var vs := NumericValues(rows, col);
    VarianceZeroIffConstant(vs);
  }

  /** A negative threshold is not rejected: once the readings are not all
      equal, every numeric row is flagged. */
  lemma {:induction false} NegativeThresholdFlagsAll(rows: seq<Row>, col: string, t: real)
    requires HasColumn(rows, col) && NumericValues(rows, col) != [] && t < 0.0
    requires Variance(NumericValues(rows, col)) > 0.0
    ensures var vs := NumericValues(rows, col);
              forall j :: j in FlaggedIndices(rows, col, Mean(vs), Variance(vs), t) <==> 0 <= j < |rows| && rows[j][col].Num?
  {
  }

  /** Samuelson's bound: with n readings, no row is flagged once the
      threshold reaches sqrt(n - 1). */
  lemma {:induction false} ThresholdAboveSamuelsonFlagsNothing(rows: seq<Row>, col: string, t: real)
    requires HasColumn(rows, col) && NumericValues(rows, col) != []
    requires t >= 0.0 && Count(NumericValues(rows, col)) - 1.0 <= Square(t)
    ensures var vs := NumericValues(rows, col);
              FlaggedIndices(rows, col, Mean(vs), Variance(vs), t) == []
  {
    var vs := NumericValues(rows, col);
    var avg, variance := Mean(vs), Variance(vs);
    VarianceNonNegative(vs);
    forall j | 0 <= j < |rows|
      ensures !Flags(rows[j][col], avg, variance, t)
    {
      if rows[j][col].Num? {
        NumericValueIndex(rows, col, j);
        var k :| 0 <= k < |vs| && vs[k] == rows[j][col].x;
        Samuelson(vs, k);
        ScaleAtMost(Count(vs) - 1.0, Square(t), variance);
      }
    }
  }

  /** At the default threshold 3.0, fewer than 11 numeric readings never
      produce an outlier: [1, 1, 1, 1, 100] reports none. */
  lemma {:induction false} DefaultThresholdNeedsElevenReadings(columns: seq<string>, rows: seq<Row>)
    requires Complete(rows, columns)
    requires Resolve(columns).Resolved?
    requires |NumericValues(rows, Resolve(columns).roles.vibrationColumn)| <= 10
    ensures !FindOutliers(columns, rows, 3.0).Found?
  {
    var col := Resolve(columns).roles.vibrationColumn;
    CompleteHasColumn(rows, columns, col);
    var vs := NumericValues(rows, col);
    assert FindOutliers(columns, rows, 3.0) == Search(columns, col, rows, 3.0);
    if rows != [] && vs != [] {
      assert Square(3.0) == 9.0;
      ThresholdAboveSamuelsonFlagsNothing(rows, col, 3.0);
      OutlierRecordsAreFlaggedRows(rows, col, columns, Mean(vs), Variance(vs), 3.0);
    }
  }

  /** The three "nothing to report" outcomes produce three different messages. */
  lemma {:induction false} EmptyOutcomeMessagesDistinct(date: string, show: Value -> string)
    ensures Message(date, NoRows, show) != Message(date, NoNumericValues, show)
    ensures Message(date, NoRows, show) != Message(date, NoOutliers, show)
    ensures Message(date, NoNumericValues, show) != Message(date, NoOutliers, show)
  {
    var a, b, c := Message(date, NoRows, show), Message(date, NoNumericValues, show), Message(date, NoOutliers, show);
    assert a[|a| - 1] == '。' && c[|c| - 1] == '。' && b[|b| - 1] == '.';
    assert |a| != |c|;
  }

  /** A schema failure is never mistaken for an empty day: its answer differs
      from the no-rows, no-readings and no-outliers answers. */
  lemma {:induction false} SchemaAnswerIsNotNoData(date: string, e: SchemaError, show: Value -> string)
    ensures SchemaMessage(e) != NoDataMessage(date)
    ensures Message(date, SchemaFailure(e), show) != Message(date, NoRows, show)
    ensures Message(date, SchemaFailure(e), show) != Message(date, NoNumericValues, show)
    ensures Message(date, SchemaFailure(e), show) != Message(date, NoOutliers, show)
  {
    var m, none, invalid, clean := SchemaMessage(e), NoDataMessage(date), "No valid vibration data found.", date + " 沒有發現離群值。";
    assert m[|m| - 1] == '.' && none[|none| - 1] == '。' && clean[|clean| - 1] == '。';
    assert m[4] != invalid[4];
  }

  /** Line `k + 1` of an outlier report: `k + 1`, a dot, and the outlier. */
  function Lines(recs: seq<Record>, show: Value -> string): (r: seq<string>)
    ensures |r| == |recs|
  {
    seq(|recs|, k requires 0 <= k < |recs| => Digits(k + 1) + ". " + Info(recs[k], show))
  }

  lemma {:induction false} ReportJoin(recs: seq<Record>, show: Value -> string)
    ensures Report(recs, show) == Join([HeadingLine] + Lines(recs, show), "\n") + "\n"
  {
    if recs != [] {
      var init := recs[..|recs| - 1];
      ReportJoin(init, show);
      var line := Digits(|recs|) + ". " + Info(recs[|recs| - 1], show);
      assert Lines(recs, show) == Lines(init, show) + [line];
      JoinAppend([HeadingLine] + Lines(init, show), line, "\n");
      assert [HeadingLine] + Lines(recs, show) == ([HeadingLine] + Lines(init, show)) + [line];
    }
  }

  lemma {:induction false} LinesWithoutLineFeed(recs: seq<Record>, show: Value -> string)
    requires forall k :: 0 <= k < |recs| ==> '\n' !in Info(recs[k], show)
    ensures forall k :: 0 <= k < |recs| ==> '\n' !in Lines(recs, show)[k]
  {
    forall k | 0 <= k < |recs|
      ensures '\n' !in Lines(recs, show)[k]
    {
      var d := Digits(k + 1);
      assert '\n' !in d;
      assert Lines(recs, show)[k] == d + ". " + Info(recs[k], show);
    }
  }

  /** Stripping the report removes only its final line feed, as long as the
      last outlier's text does not end in whitespace. */
  lemma {:induction false} StrippedReportJoinsLines(recs: seq<Record>, show: Value -> string)
    requires recs != []
    requires var last := Info(recs[|recs| - 1], show); last != [] && !IsSpace(last[|last| - 1])
    ensures Strip(Report(recs, show)) == Join([HeadingLine] + Lines(recs, show), "\n")
  {
    var parts := [HeadingLine] + Lines(recs, show);
    var joined := Join(parts, "\n");
    ReportJoin(recs, show);
    assert Report(recs, show) == joined + "\n";
    assert parts[|parts| - 1] == Digits(|recs|) + ". " + Info(recs[|recs| - 1], show);
    JoinEnds(parts, "\n");
    StripLineFeed(joined);
  }

  /** The report has one line per outlier after the heading, numbered 1, 2,
      ... in the order the rows came, provided no outlier's text holds a line
      feed and the last one does not end in whitespace (which `strip` would
      remove). */
  lemma {:induction false} ReportHasNumberedLines(date: string, recs: seq<Record>, show: Value -> string)
    requires recs != []
    requires forall k :: 0 <= k < |recs| ==> '\n' !in Info(recs[k], show)
    requires var last := Info(recs[|recs| - 1], show); last != [] && !IsSpace(last[|last| - 1])
    ensures Split(Message(date, Found(recs), show), '\n') == [HeadingLine] + Lines(recs, show)
  {
    var lines := Lines(recs, show);
    var parts := [HeadingLine] + lines;
    StrippedReportJoinsLines(recs, show);
    assert Message(date, Found(recs), show) == Strip(Report(recs, show));
    LinesWithoutLineFeed(recs, show);
    assert '\n' !in HeadingLine;
    forall k | 0 <= k < |parts|
      ensures '\n' !in parts[k]
    {
      if k > 0 {
        assert parts[k] == lines[k - 1];
      }
    }
    SplitJoin(parts, '\n');
  }

  // Arithmetic over plain reals.

  lemma {:induction false} RootPositive(std: real, variance: real)
    requires std >= 0.0 && Square(std) == variance
    ensures std > 0.0 <==> variance > 0.0
  {
    SquareNonNegative(std);
    SquareOverSelf(std);
  }

  lemma {:induction false} NegativeTimesPositive(a: real, b: real)
    requires a < 0.0 && b > 0.0
    ensures a * b < 0.0
  {
  }

  lemma {:induction false} ProductNonNegative(a: real, b: real)
    requires a >= 0.0 && b >= 0.0
    ensures a * b >= 0.0
  {
  }

  lemma {:induction false} SquareOfProduct(a: real, b: real)
    ensures Square(a * b) == Square(a) * Square(b)
  {
  }

  /** Squaring is strictly increasing on the non-negative reals. */
  lemma {:induction false} SquareMonotone(a: real, b: real)
    requires a >= 0.0 && b >= 0.0
    ensures a > b <==> Square(a) > Square(b)
  {
    if a > b {
      DifferenceOfSquares(a, b);
      PositiveProduct(a - b, a + b);
    } else {
      DifferenceOfSquares(b, a);
      ProductNonNegative(b - a, b + a);
    }
  }

  lemma {:induction false} DifferenceOfSquares(a: real, b: real)
    ensures Square(a) - Square(b) == (a - b) * (a + b)
  {
  }

  lemma {:induction false} PositiveProduct(a: real, b: real)
    requires a > 0.0 && b > 0.0
    ensures a * b > 0.0
  {
  }

  lemma {:induction false} ScaleAtMost(a: real, b: real, c: real)
    requires a <= b && c >= 0.0
    ensures a * c <= b * c
  {
  }
}
