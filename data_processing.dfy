/** The long-to-wide formatting pipeline of src/data/data_processing.py: pivot the
    readings to one row per time and one column per parameter code, relabel the
    columns through the parameter catalog, then fill single gaps. */
module DataProcessing {
  import opened Wrappers
  import Ordering
  import StationConfig
  import opened Interpolation

  /** One long-format row: `time` (minutes), `parameter_code` and `value`. */
  datatype Reading = Reading(time: int, code: string, value: real)

  datatype FrameError =
    | DuplicateEntries   // pivot: "Index contains duplicate entries, cannot reshape"
    | IndexParseError    // pd.to_datetime could not parse the index

  predicate HasDuplicateEntries(readings: seq<Reading>)
  {
    exists i, j :: 0 <= i < j < |readings| && readings[i].time == readings[j].time && readings[i].code == readings[j].code
  }

  function TimesOf(readings: seq<Reading>): (ts: seq<int>)
    ensures |ts| == |readings| && forall k :: 0 <= k < |readings| ==> ts[k] == readings[k].time
  {
    seq(|readings|, k requires 0 <= k < |readings| => readings[k].time)
  }

  function CodesOf(readings: seq<Reading>): (cs: seq<string>)
    ensures |cs| == |readings| && forall k :: 0 <= k < |readings| ==> cs[k] == readings[k].code
  {
    seq(|readings|, k requires 0 <= k < |readings| => readings[k].code)
  }

  /** The value read at `time` for `code`, if any (the first, when there are several). */
  function CellValue(readings: seq<Reading>, time: int, code: string): (v: Cell)
    ensures v.None? <==> forall k :: 0 <= k < |readings| ==> !(readings[k].time == time && readings[k].code == code)
    ensures v.Some? ==> exists k :: 0 <= k < |readings| && readings[k] == Reading(time, code, v.value)
  {
    if readings == [] then None
    else if readings[0].time == time && readings[0].code == code then Some(readings[0].value)
    else
      var v := CellValue(readings[1..], time, code);
      assert forall k :: 0 < k < |readings| ==> readings[k] == readings[1..][k - 1];
      v
  }

  /** Without duplicate keys, the cell of a reading's time and code holds its value. */
  lemma CellValueOfReading(readings: seq<Reading>, k: nat)
    requires !HasDuplicateEntries(readings) && k < |readings|
    ensures CellValue(readings, readings[k].time, readings[k].code) == Some(readings[k].value)
  {
    var r := readings[k];
    var v := CellValue(readings, r.time, r.code);
    var m :| 0 <= m < |readings| && readings[m] == Reading(r.time, r.code, v.value);
  }

  /** `df.pivot(index='time', columns='parameter_code', values='value')`: the distinct
      times ascending, the distinct codes ascending, and the matching value in each cell. */
  datatype Pivoted = Pivoted(index: seq<int>, codes: seq<string>, rows: seq<Row>)

  function Pivot(readings: seq<Reading>): (r: Result<Pivoted, FrameError>)
    ensures r.Failure? <==> HasDuplicateEntries(readings)
    ensures r.Failure? ==> r.error == DuplicateEntries
    ensures r.Success? ==> |r.value.rows| == |r.value.index| && Rectangular(r.value.rows, |r.value.codes|)
  {
    if HasDuplicateEntries(readings) then Failure(DuplicateEntries)
    else
      var index := Ordering.SortDistinct(TimesOf(readings), Ordering.IntLess);
      var codes := Ordering.SortDistinct(CodesOf(readings), Ordering.StrLess);
      Success(Pivoted(index, codes, PivotRows(readings, index, codes)))
  }

  /** The cells of the pivot: row `i`, column `j` holds the value read at `index[i]` for `codes[j]`. */
  function PivotRows(readings: seq<Reading>, index: seq<int>, codes: seq<string>): (rows: seq<Row>)
    ensures |rows| == |index| && Rectangular(rows, |codes|)
    ensures forall i, j :: 0 <= i < |index| && 0 <= j < |codes| ==> rows[i][j] == CellValue(readings, index[i], codes[j])
  {
    seq(|index|, i requires 0 <= i < |index| =>
      seq(|codes|, j requires 0 <= j < |codes| => CellValue(readings, index[i], codes[j])))
  }

  /** Each distinct time gives exactly one row, in ascending order and never twice; each
      distinct code exactly one column, in ascending order and never twice. */
  lemma PivotAxes(readings: seq<Reading>)
    requires Pivot(readings).Success?
    ensures var p := Pivot(readings).value;
      && Ordering.StrictlyIncreasing(p.index, Ordering.IntLess)
      && (forall t :: t in p.index <==> exists k :: 0 <= k < |readings| && readings[k].time == t)
      && Ordering.StrictlyIncreasing(p.codes, Ordering.StrLess)
      && (forall c :: c in p.codes <==> exists k :: 0 <= k < |readings| && readings[k].code == c)
      && (forall i, j :: 0 <= i < |p.index| && 0 <= j < |p.index| && p.index[i] == p.index[j] ==> i == j)
      && (forall i, j :: 0 <= i < |p.codes| && 0 <= j < |p.codes| && p.codes[i] == p.codes[j] ==> i == j)
  {
    var p := Pivot(readings).value;
    Ordering.IntLessIsStrictTotal();
    Ordering.StrLessIsStrictTotal();
    Ordering.SortDistinctCorrect(TimesOf(readings), Ordering.IntLess);
    Ordering.SortDistinctCorrect(CodesOf(readings), Ordering.StrLess);
    forall i, j | 0 <= i < |p.index| && 0 <= j < |p.index| && p.index[i] == p.index[j] ensures i == j {
      Ordering.IncreasingIsDistinct(p.index, Ordering.IntLess, i, j);
    }
    forall i, j | 0 <= i < |p.codes| && 0 <= j < |p.codes| && p.codes[i] == p.codes[j] ensures i == j {
      Ordering.IncreasingIsDistinct(p.codes, Ordering.StrLess, i, j);
    }
  }

  /** Every reading sits at the row of its time and the column of its code. */
  lemma PivotPlacesEveryReading(readings: seq<Reading>, k: nat)
    requires Pivot(readings).Success? && k < |readings|
    ensures var p := Pivot(readings).value;
      exists i, j :: 0 <= i < |p.index| && 0 <= j < |p.codes| &&
        p.index[i] == readings[k].time && p.codes[j] == readings[k].code && p.rows[i][j] == Some(readings[k].value)
  {
    var p := Pivot(readings).value;
    PivotAxes(readings);
    assert readings[k].time in p.index;
    assert readings[k].code in p.codes;
    var i :| 0 <= i < |p.index| && p.index[i] == readings[k].time;
    var j :| 0 <= j < |p.codes| && p.codes[j] == readings[k].code;
    CellValueOfReading(readings, k);
    assert p.rows[i][j] == Some(readings[k].value);
  }

  /** A cell is missing exactly when no reading has its time and code. */
  lemma PivotMissingCells(readings: seq<Reading>, i: nat, j: nat)
    requires Pivot(readings).Success?
    requires i < |Pivot(readings).value.index| && j < |Pivot(readings).value.codes|
    ensures var p := Pivot(readings).value;
      p.rows[i][j].None? <==> forall k :: 0 <= k < |readings| ==> !(readings[k].time == p.index[i] && readings[k].code == p.codes[j])
  {
  }

  // ----- the wide table -----

  /** A wide table: the row index (with whether it is a DatetimeIndex), the column
      labels (`None` for a NaN label) and the rows of cells. */
  datatype Table = Table(index: seq<int>, indexIsDatetime: bool, columns: seq<Option<string>>, rows: seq<Row>)

  predicate WellShaped(t: Table)
  {
    |t.rows| == |t.index| && Rectangular(t.rows, |t.columns|)
  }

  /** `columns.map(WATER_QUALITY_PARAMS)`: each label replaced by its catalog label;
      a code outside the catalog, or a NaN label, becomes a NaN label. */
  function MapLabels(columns: seq<Option<string>>): (r: seq<Option<string>>)
    ensures |r| == |columns|
    ensures forall j :: 0 <= j < |columns| ==> r[j] == (if columns[j].Some? then StationConfig.Label(columns[j].value) else None)
  {
    seq(|columns|, j requires 0 <= j < |columns| =>
      if columns[j].Some? then StationConfig.Label(columns[j].value) else None)
  }

  /** A code outside the catalog gets a NaN label rather than raising; a catalog code
      gets a label of its own. */
  lemma UncataloguedCodeUnlabelled(columns: seq<Option<string>>, j: nat)
    requires j < |columns| && columns[j].Some?
    ensures MapLabels(columns)[j].None? <==> columns[j].value !in StationConfig.PARAM_CODES
  {
    StationConfig.CatalogLabels(columns[j].value, columns[j].value);
  }

  /** `pd.to_datetime` on every key of the index; it fails as a whole if one key fails. */
  function ParseIndex(keys: seq<int>, parse: int -> Option<int>): (r: Option<seq<int>>)
    ensures r.Some? <==> forall k :: 0 <= k < |keys| ==> parse(keys[k]).Some?
    ensures r.Some? ==> |r.value| == |keys| && forall k :: 0 <= k < |keys| ==> r.value[k] == parse(keys[k]).value
  {
    if keys == [] then Some([])
    else match (parse(keys[0]), ParseIndex(keys[1..], parse))
      case (Some(t), Some(ts)) =>
        assert forall k :: 0 < k < |keys| ==> keys[k] == keys[1..][k - 1];
        Some([t] + ts)
      case (_, _) =>
        assert forall k :: 0 < k < |keys| ==> keys[k] == keys[1..][k - 1];
        None
  }

  /** The index step of `interpolate_missing_values`: a non-datetime index is
      replaced by its parsed form. */
  function NormalizeIndex(t: Table, parse: int -> Option<int>): (r: Result<Table, FrameError>)
    ensures t.indexIsDatetime ==> r == Success(t)
    ensures r.Failure? <==> !t.indexIsDatetime && exists k :: 0 <= k < |t.index| && parse(t.index[k]).None?
    ensures r.Failure? ==> r.error == IndexParseError
    ensures r.Success? ==> (r.value.indexIsDatetime && |r.value.index| == |t.index|
      && r.value.columns == t.columns && r.value.rows == t.rows)
    ensures r.Success? && !t.indexIsDatetime ==>
      forall k :: 0 <= k < |t.index| ==> parse(t.index[k]) == Some(r.value.index[k])
  {
    if t.indexIsDatetime then Success(t)
    else match ParseIndex(t.index, parse)
      case None => Failure(IndexParseError)
      case Some(index) => Success(t.(index := index, indexIsDatetime := true))
  }

  /** The fill step of `interpolate_missing_values`, with `method='linear'` and `limit=1`. */
  function Interpolated(t: Table, dir: Direction): (r: Table)
    requires WellShaped(t)
    ensures WellShaped(r) && r.index == t.index && r.indexIsDatetime == t.indexIsDatetime && r.columns == t.columns
    ensures forall i, j :: 0 <= i < |t.rows| && 0 <= j < |t.columns| && t.rows[i][j].Some? ==> r.rows[i][j] == t.rows[i][j]
    ensures r.rows == FillTable(t.rows, |t.columns|, dir)
  {
    t.(rows := FillTable(t.rows, |t.columns|, dir))
  }

  /** `format_data_for_modeling`: pivot, relabel, then interpolate in both directions.
      `timeIsDatetime` says whether the `time` column is of datetime type. */
  function Format(readings: seq<Reading>, timeIsDatetime: bool, parse: int -> Option<int>): (r: Result<Table, FrameError>)
    ensures r.Success? ==> WellShaped(r.value)
    ensures r.Success? ==>
      && Pivot(readings).Success?
      && |r.value.columns| == |Pivot(readings).value.codes|
      && (forall j :: 0 <= j < |r.value.columns| ==> r.value.columns[j] == StationConfig.Label(Pivot(readings).value.codes[j]))
      && r.value.rows == FillTable(Pivot(readings).value.rows, |Pivot(readings).value.codes|, Both)
    ensures r.Success? ==>
      var p := Pivot(readings).value;
      && r.value.indexIsDatetime && |r.value.index| == |p.index|
      && forall i :: 0 <= i < |p.index| ==>
           if timeIsDatetime then r.value.index[i] == p.index[i] else parse(p.index[i]) == Some(r.value.index[i])
  {
    match Pivot(readings)
    case Failure(e) => Failure(e)
    case Success(p) =>
      var wide := Table(p.index, timeIsDatetime, MapLabels(seq(|p.codes|, j requires 0 <= j < |p.codes| => Some(p.codes[j]))), p.rows);
      match NormalizeIndex(wide, parse)
      case Failure(e) => Failure(e)
      case Success(normalized) => Success(Interpolated(normalized, Both))
  }

  /** Formatting fails on duplicate (time, code) pairs and on an index that does not parse,
      and on nothing else. */
  lemma FormatErrors(readings: seq<Reading>, timeIsDatetime: bool, parse: int -> Option<int>)
    ensures Format(readings, timeIsDatetime, parse) == Failure(DuplicateEntries) <==> HasDuplicateEntries(readings)
    ensures Format(readings, timeIsDatetime, parse) == Failure(IndexParseError) <==>
      !HasDuplicateEntries(readings) && !timeIsDatetime && exists k :: 0 <= k < |readings| && parse(readings[k].time).None?
  {
    if !HasDuplicateEntries(readings) {
      var p := Pivot(readings).value;
      PivotAxes(readings);
      if exists k :: 0 <= k < |readings| && parse(readings[k].time).None? {
        var k :| 0 <= k < |readings| && parse(readings[k].time).None?;
        assert readings[k].time in p.index;
      } else {
        forall i | 0 <= i < |p.index| ensures parse(p.index[i]).Some? {
          assert p.index[i] in p.index;
          var k :| 0 <= k < |readings| && readings[k].time == p.index[i];
          assert parse(readings[k].time).Some?;
        }
      }
    }
  }

  /** Every reading ends up at the row of its (parsed) time, in the column labelled by the
      catalog entry of its code, with its value; no row is dropped. */
  lemma FormatPlacesEveryReading(readings: seq<Reading>, timeIsDatetime: bool, parse: int -> Option<int>, k: nat)
    requires Format(readings, timeIsDatetime, parse).Success? && k < |readings|
    ensures var t := Format(readings, timeIsDatetime, parse).value;
      && |t.index| == |Pivot(readings).value.index|
      && exists i, j :: 0 <= i < |t.index| && 0 <= j < |t.columns|
           && (timeIsDatetime ==> t.index[i] == readings[k].time)
           && (!timeIsDatetime ==> parse(readings[k].time) == Some(t.index[i]))
           && t.columns[j] == StationConfig.Label(readings[k].code)
           && t.rows[i][j] == Some(readings[k].value)
  {
    var p := Pivot(readings).value;
    PivotPlacesEveryReading(readings, k);
    var i, j :| 0 <= i < |p.index| && 0 <= j < |p.codes| &&
        p.index[i] == readings[k].time && p.codes[j] == readings[k].code && p.rows[i][j] == Some(readings[k].value);
    var t := Format(readings, timeIsDatetime, parse).value;
    assert t.rows[i][j] == p.rows[i][j];
    assert t.columns[j] == StationConfig.Label(p.codes[j]);
  }

  /** The worked example after the pivot: rows for times 1, 2 and 3, columns temperature
      and streamflow. The missing streamflow between 5.0 and 7.0 becomes 6.0, and the
      trailing missing temperature repeats the last one, 12.0. */
  lemma ExampleFill()
    ensures var filled := FillTable([[Some(10.0), Some(5.0)], [Some(12.0), None], [None, Some(7.0)]], 2, Both);
      && |filled| == 3
      && filled[0] == [Some(10.0), Some(5.0)]
      && filled[1] == [Some(12.0), Some(6.0)]
      && filled[2] == [Some(12.0), Some(7.0)]
  {
    var rows: seq<Row> := [[Some(10.0), Some(5.0)], [Some(12.0), None], [None, Some(7.0)]];
    var streamflow: Column := [Some(5.0), None, Some(7.0)];
    assert ColumnOf(rows, 1, 2) == streamflow;
    SingleGapIsMean(streamflow, 1, Both);
    var temperature: Column := [Some(10.0), Some(12.0), None];
    assert ColumnOf(rows, 0, 2) == temperature;
    assert NextPresent(temperature, 2).None?;
    var filled := FillTable(rows, 2, Both);
    var t1, s1 := FillColumn(temperature, Both), FillColumn(streamflow, Both);
    assert t1[0] == Some(10.0) && t1[1] == Some(12.0) && t1[2] == Some(12.0);
    assert s1[0] == Some(5.0) && s1[1] == Some(6.0) && s1[2] == Some(7.0);
    assert filled[0][0] == t1[0] && filled[0][1] == s1[0];
    assert filled[1][0] == t1[1] && filled[1][1] == s1[1];
    assert filled[2][0] == t1[2] && filled[2][1] == s1[2];
  }

  // ----- the frame, whose index the interpolation overwrites -----

  /** A pandas DataFrame: the row index (and whether it is a DatetimeIndex), the column
      labels and the cells, all reassignable. */
  class Frame {
    var index: seq<int>
    var indexIsDatetime: bool
    var columns: seq<Option<string>>
    var rows: seq<Row>

    function Value(): Table
      reads this
    {
      Table(index, indexIsDatetime, columns, rows)
    }

    predicate Valid()
      reads this
    {
      WellShaped(Value())
    }

    constructor (t: Table)
      requires WellShaped(t)
      ensures Valid() && Value() == t
    {
      index, indexIsDatetime, columns, rows := t.index, t.indexIsDatetime, t.columns, t.rows;
    }

    /** `df.columns = df.columns.map(WATER_QUALITY_PARAMS)` */
    method RelabelColumns()
      requires Valid()
      modifies this
      ensures Valid() && Value() == old(Value()).(columns := MapLabels(old(columns)))
    {
      columns := MapLabels(columns);
    }
  }

  /** `interpolate_missing_values(df, 'linear', direction)`: the caller's frame gets the
      parsed index, and a new frame holds the filled cells. A parse failure raises before
      anything is assigned. */
  method InterpolateMissingValues(df: Frame, dir: Direction, parse: int -> Option<int>) returns (r: Result<Frame, FrameError>)
    requires df.Valid()
    modifies df
    ensures df.Valid()
    ensures NormalizeIndex(old(df.Value()), parse).Failure? ==>
      r == Failure(IndexParseError) && df.Value() == old(df.Value())
    ensures NormalizeIndex(old(df.Value()), parse).Success? ==>
      && df.Value() == NormalizeIndex(old(df.Value()), parse).value
      && r.Success? && fresh(r.value) && r.value.Valid() && r.value.Value() == Interpolated(df.Value(), dir)
  {
    if !df.indexIsDatetime {
      var parsed := ParseIndex(df.index, parse);
      if parsed.None? {
        return Failure(IndexParseError);
      }
      df.index := parsed.value;
      df.indexIsDatetime := true;
    }
    var filled := new Frame(Interpolated(df.Value(), dir));
    r := Success(filled);
  }

  /** `format_data_for_modeling(df, metadata)`; the metadata argument is unused by the source. */
  method FormatDataForModeling(readings: seq<Reading>, timeIsDatetime: bool, parse: int -> Option<int>)
    returns (r: Result<Frame, FrameError>)
    ensures Format(readings, timeIsDatetime, parse).Failure? ==> r == Failure(Format(readings, timeIsDatetime, parse).error)
    ensures Format(readings, timeIsDatetime, parse).Success? ==>
      r.Success? && fresh(r.value) && r.value.Valid() && r.value.Value() == Format(readings, timeIsDatetime, parse).value
  {
    var pivoted := Pivot(readings);
    if pivoted.Failure? {
      return Failure(pivoted.error);
    }
    var p := pivoted.value;
    var wide := new Frame(Table(p.index, timeIsDatetime, seq(|p.codes|, j requires 0 <= j < |p.codes| => Some(p.codes[j])), p.rows));
    wide.RelabelColumns();
    r := InterpolateMissingValues(wide, Both, parse);
  }
}
