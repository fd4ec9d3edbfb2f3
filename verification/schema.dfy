/** Column-role resolution ("schema sniffing"): the three database tools guess
    which column holds the vibration reading and which holds the timestamp
    from the column names alone. */
module Schema {
  import opened Text

  datatype Option<T> = None | Some(value: T)

  /** The two roles a column can be guessed to play. */
  datatype Role = Vibration | Time

  /** Case-insensitive substring rule: "vibration" for the reading,
      "time" or "date" for the timestamp. */
  predicate Matches(role: Role, column: string)
  {
    match role
    case Vibration => Contains(Lower(column), "vibration")
    case Time => Contains(Lower(column), "time") || Contains(Lower(column), "date")
  }

  /** Position `i` holds the first column playing `role`. */
  predicate FirstOfRole(columns: seq<string>, i: int, role: Role)
  {
    0 <= i < |columns| && Matches(role, columns[i]) &&
    forall j :: 0 <= j < i ==> !Matches(role, columns[j])
  }

  predicate NoneOfRole(columns: seq<string>, role: Role)
  {
    forall i :: 0 <= i < |columns| ==> !Matches(role, columns[i])
  }

  /** `next((col for col in columns if 'vibration' in col.lower()), None)`. */
  function FirstVibrationColumn(columns: seq<string>): (r: Option<string>)
    ensures r.None? <==> NoneOfRole(columns, Vibration)
    ensures r.Some? ==> exists i :: FirstOfRole(columns, i, Vibration) && columns[i] == r.value
  {
    if columns == [] then None
    else if Matches(Vibration, columns[0]) then
      assert FirstOfRole(columns, 0, Vibration);
      Some(columns[0])
    else
      var r := FirstVibrationColumn(columns[1..]);
      assert r.Some? ==> exists i :: FirstOfRole(columns, i, Vibration) && columns[i] == r.value by {
        if r.Some? {
          var i :| FirstOfRole(columns[1..], i, Vibration) && columns[1..][i] == r.value;
          assert FirstOfRole(columns, i + 1, Vibration);
        }
      }
      assert NoneOfRole(columns[1..], Vibration) ==> NoneOfRole(columns, Vibration) by {
        if NoneOfRole(columns[1..], Vibration) {
          forall i | 0 < i < |columns| ensures !Matches(Vibration, columns[i]) {
            assert columns[i] == columns[1..][i - 1];
          }
        }
      }
      r
  }

  /** `[col for col in columns if 'time' in col.lower() or 'date' in col.lower()]`. */
  function TimeColumns(columns: seq<string>): (r: seq<string>)
    ensures |r| <= |columns|
    ensures forall c :: c in r <==> c in columns && Matches(Time, c)
    ensures r == [] <==> NoneOfRole(columns, Time)
    ensures r != [] ==> exists i :: FirstOfRole(columns, i, Time) && columns[i] == r[0]
  {
    if columns == [] then []
    else
      var rest := TimeColumns(columns[1..]);
      assert columns == [columns[0]] + columns[1..];
      if Matches(Time, columns[0]) then
        assert FirstOfRole(columns, 0, Time);
        [columns[0]] + rest
      else
        assert rest != [] ==> exists i :: FirstOfRole(columns, i, Time) && columns[i] == rest[0] by {
          if rest != [] {
            var i :| FirstOfRole(columns[1..], i, Time) && columns[1..][i] == rest[0];
            assert FirstOfRole(columns, i + 1, Time);
          }
        }
        assert NoneOfRole(columns[1..], Time) ==> NoneOfRole(columns, Time) by {
          if NoneOfRole(columns[1..], Time) {
            forall i | 0 < i < |columns| ensures !Matches(Time, columns[i]) {
              assert columns[i] == columns[1..][i - 1];
            }
          }
        }
        rest
  }

  /** Filtering distributes over concatenation, so the time columns keep the
      table's column order. */
  lemma {:induction false} TimeColumnsConcat(a: seq<string>, b: seq<string>)
    ensures TimeColumns(a + b) == TimeColumns(a) + TimeColumns(b)
  {
    if a == [] {
      assert a + b == b;
    } else {
      assert (a + b)[1..] == a[1..] + b;
      TimeColumnsConcat(a[1..], b);
    }
  }

  datatype SchemaError = NoVibrationColumn | NoTimeColumn

  /** The two columns a query is built from. */
  datatype Roles = Roles(timeColumn: string, vibrationColumn: string)

  datatype Resolution = Resolved(roles: Roles) | Unresolved(error: SchemaError)

  /** The rule every database tool applies: a missing vibration column is
      reported first, then a missing time column; otherwise the time column
      is the first of the time columns. */
  function Resolve(columns: seq<string>): (r: Resolution)
    ensures r == Unresolved(NoVibrationColumn) <==> NoneOfRole(columns, Vibration)
    ensures r == Unresolved(NoTimeColumn) <==>
              !NoneOfRole(columns, Vibration) && NoneOfRole(columns, Time)
    ensures r.Resolved? ==> r.roles.timeColumn in columns && r.roles.vibrationColumn in columns
    ensures r.Resolved? ==>
              (exists i :: FirstOfRole(columns, i, Time) && columns[i] == r.roles.timeColumn) &&
              (exists j :: FirstOfRole(columns, j, Vibration) && columns[j] == r.roles.vibrationColumn)
  {
    match FirstVibrationColumn(columns)
    case None => Unresolved(NoVibrationColumn)
    case Some(v) =>
      var times := TimeColumns(columns);
      if times == [] then Unresolved(NoTimeColumn) else Resolved(Roles(times[0], v))
  }

  /** The time column chosen by `Resolve` is the head of the time-column list. */
  lemma ResolvedTimeIsFirstTimeColumn(columns: seq<string>)
    requires Resolve(columns).Resolved?
    ensures TimeColumns(columns) != [] && Resolve(columns).roles.timeColumn == TimeColumns(columns)[0]
  {
  }

  /** The message each tool returns when resolution fails. */
  function SchemaMessage(e: SchemaError): (r: string)
    ensures r != [] && r[|r| - 1] == '.'
  {
    match e
    case NoVibrationColumn => "No vibration column found."
    case NoTimeColumn => "No time/date columns found for filtering."
  }

  lemma SchemaMessagesDistinct()
    ensures SchemaMessage(NoVibrationColumn) != SchemaMessage(NoTimeColumn)
  {
    assert SchemaMessage(NoVibrationColumn)[3] != SchemaMessage(NoTimeColumn)[3];
  }

  lemma DeviceTimeRoles()
    ensures Matches(Time, "Device_Time") && !Matches(Vibration, "Device_Time")
  {
    assert Lower("Device_Time") == "device_time";
    assert OccursAt("time", "device_time", 7);
    assert "device_time"[1..] == "evice_time" && "evice_time"[1..] == "vice_time";
    assert "vice_time"[1..] == "ice_time";
    assert !Contains("vice_time", "vibration") by {
      assert "vice_time"[..9][2] == 'c';
    }
    assert !Contains("evice_time", "vibration") by {
      assert "evice_time"[..9][0] == 'e';
    }
    assert !Contains("device_time", "vibration") by {
      assert "device_time"[..9][0] == 'd';
    }
  }

  lemma ShortNamesRoles()
    ensures !Matches(Vibration, "id") && !Matches(Time, "id") && !Matches(Vibration, "reading")
    ensures Matches(Vibration, "VibrationX")
  {
    assert Lower("VibrationX") == "vibrationx";
    assert OccursAt("vibration", "vibrationx", 0);
    assert Lower("reading") == "reading";
  }

  /** Two sample column lists. */
  lemma ResolveExamples()
    ensures Resolve(["id", "Device_Time", "VibrationX"]) == Resolved(Roles("Device_Time", "VibrationX"))
    ensures Resolve(["id", "reading"]) == Unresolved(NoVibrationColumn)
  {
    DeviceTimeRoles();
    ShortNamesRoles();
    var cols := ["id", "Device_Time", "VibrationX"];
    assert cols[1..] == ["Device_Time", "VibrationX"] && cols[1..][1..] == ["VibrationX"];
    assert ["id", "reading"][1..] == ["reading"];
  }
}
