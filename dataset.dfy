/** DatasetData: one dataset's table together with its missingness and its
    randomness stream, and the steps that prepare it for noising, noise it
    and trim it to the dataset's schema. */
module Datasets {
  import opened Tables
  import opened Randomness
  import opened ColumnNoise
  import opened Noise

  const RowNoiseKey: string := "row_noise"
  const ColumnNoiseKey: string := "column_noise"

  /** The date columns of the schema. */
  const DateOfBirth: string := "date_of_birth"
  const EventDate: string := "event_date"

  /** The schema entry of a dataset: its name, its output columns in
      order, and the date format of its date columns. */
  datatype Dataset = Dataset(name: string, columns: seq<string>, dateFormat: DateFormat)

  // ---------------------------------------------------------------------
  // Missingness

  /** One row of a missingness table: its label and a flag per column. */
  datatype MaskRow = MaskRow(key: Label, flags: map<string, bool>)

  /** A table of missingness flags (a boolean DataFrame). */
  datatype Mask = Mask(columns: seq<string>, rows: seq<MaskRow>)

  /** is_missing: a cell is flagged exactly when it is "" or NA. */
  function IsMissingFrame(data: Frame): (m: Mask)
    ensures m.columns == data.columns && |m.rows| == |data.rows|
    ensures forall i :: 0 <= i < |data.rows| ==>
      m.rows[i].key == data.rows[i].key && m.rows[i].flags.Keys == data.rows[i].cells.Keys
    ensures forall i, c :: 0 <= i < |data.rows| && c in data.rows[i].cells ==>
      (m.rows[i].flags[c] <==> IsMissing(data.rows[i].cells[c]))
  {
    Mask(data.columns, seq(|data.rows|, i requires 0 <= i < |data.rows| =>
      MaskRow(data.rows[i].key, map c | c in data.rows[i].cells :: IsMissing(data.rows[i].cells[c]))))
  }

  /** missingness[c].all(): KeyError when c is not a column of the mask. */
  function ColumnAllFlagged(m: Mask, c: string): (r: Result<bool>)
    ensures r.Err? <==> c !in m.columns
    ensures r.Err? ==> r.error == KeyError(c)
  {
    if c !in m.columns then Err(KeyError(c))
    else Ok(forall i :: 0 <= i < |m.rows| ==> c in m.rows[i].flags && m.rows[i].flags[c])
  }

  /** The first row of the mask with label l, if any. */
  function MaskRowOf(rows: seq<MaskRow>, l: Label): (r: Option<MaskRow>)
    ensures r.Some? ==> r.value in rows && r.value.key == l
    ensures r.None? <==> forall i :: 0 <= i < |rows| ==> rows[i].key != l
  {
    if rows == [] then None
    else if rows[0].key == l then Some(rows[0])
    else MaskRowOf(rows[1..], l)
  }

  /** Every flag of the row among the columns is set. */
  predicate AllFlagged(mr: MaskRow, columns: seq<string>)
  {
    forall c :: c in columns ==> c in mr.flags && mr.flags[c]
  }

  /** Some flag of the row among the columns is set. */
  predicate AnyFlagged(mr: MaskRow, columns: seq<string>)
  {
    exists c :: c in columns && c in mr.flags && mr.flags[c]
  }

  /** data.loc[~mask]: the labels of the rows whose mask row is not
      dropped. The mask is aligned to the table by label; a table label
      the mask lacks raises IndexingError. */
  function KeepUnmasked(rows: seq<Row>, m: Mask, any: bool, columns: seq<string>): (r: Result<seq<Label>>)
    ensures r.Ok? ==> forall l :: l in r.value ==> exists i :: 0 <= i < |rows| && rows[i].key == l
    decreases |rows|
  {
    if rows == [] then Ok([])
    else
      var mr := MaskRowOf(m.rows, rows[0].key);
      if mr.None? then Err(IndexingError("Unalignable boolean Series provided as indexer"))
      else
        var rest :- KeepUnmasked(rows[1..], m, any, columns);
        var dropped := if any then AnyFlagged(mr.value, columns) else AllFlagged(mr.value, columns);
        assert forall l :: l in rest ==> exists i :: 0 <= i < |rows| && rows[i].key == l by {
          forall l | l in rest ensures exists i :: 0 <= i < |rows| && rows[i].key == l {
            var i :| 0 <= i < |rows[1..]| && rows[1..][i].key == l;
            assert rows[i + 1].key == l;
          }
        }
        Ok((if dropped then [] else [rows[0].key]) + rest)
  }

  /** The first of the names that is not among the columns. */
  function FirstAbsent(names: seq<string>, columns: seq<string>): (r: Option<string>)
    ensures r.None? <==> forall c :: c in names ==> c in columns
    ensures r.Some? ==> r.value in names && r.value !in columns
  {
    if names == [] then None
    else if names[0] !in columns then Some(names[0])
    else FirstAbsent(names[1..], columns)
  }

  /** get_non_empty_index. Without required columns: the rows not missing
      in every column. With them: missingness[required] (KeyError for an
      absent one), the rows missing none of them, then the column
      selection on the table (KeyError again). */
  function NonEmptyIndex(data: Frame, m: Mask, required: Option<seq<string>>): (r: Result<seq<Label>>)
    ensures r.Ok? ==> forall l :: l in r.value ==> exists i :: 0 <= i < |data.rows| && data.rows[i].key == l
    ensures required.Some? && (exists c :: c in required.value && c !in m.columns) ==> r.Err? && r.error.KeyError?
    ensures required.Some? && r.Ok? ==> forall c :: c in required.value ==> c in m.columns && c in data.columns
  {
    match required
    case None => KeepUnmasked(data.rows, m, false, m.columns)
    case Some(req) =>
      if FirstAbsent(req, m.columns).Some? then Err(KeyError(FirstAbsent(req, m.columns).value))
      else
        var kept :- KeepUnmasked(data.rows, m, true, req);
        if FirstAbsent(req, data.columns).Some? then Err(KeyError(FirstAbsent(req, data.columns).value))
        else Ok(kept)
  }

  /** A row whose cells among the columns are missing: all of them when
      any is false, at least one when it is true. */
  predicate Dropped(row: Row, any: bool, columns: seq<string>)
  {
    if any then exists c :: c in columns && c in row.cells && IsMissing(row.cells[c])
    else forall c :: c in columns ==> c in row.cells && IsMissing(row.cells[c])
  }

  /** With strictly increasing labels, looking a row's label up finds that
      row. */
  lemma {:induction false} MaskRowOfFindsRow(rows: seq<MaskRow>, i: nat)
    requires i < |rows|
    requires forall a, b :: 0 <= a < b < |rows| ==> rows[a].key < rows[b].key
    ensures MaskRowOf(rows, rows[i].key) == Some(rows[i])
    decreases i
  {
    if i > 0 {
      assert rows[0].key < rows[i].key;
      assert rows[1..][i - 1] == rows[i];
      MaskRowOfFindsRow(rows[1..], i - 1);
    }
  }

  /** With the flags computed from the table itself, the rows kept are
      exactly the ones not dropped, and no label is unalignable. */
  lemma {:induction false} KeepUnmaskedFresh(data: Frame, any: bool, columns: seq<string>, k: nat)
    requires IncreasingRows(data.rows) && k <= |data.rows|
    ensures var r := KeepUnmasked(data.rows[k..], IsMissingFrame(data), any, columns);
      && r.Ok?
      && forall l :: l in r.value <==>
        exists i :: k <= i < |data.rows| && data.rows[i].key == l && !Dropped(data.rows[i], any, columns)
    decreases |data.rows| - k
  {
    var m := IsMissingFrame(data);
    var rows := data.rows;
    if k < |rows| {
      assert rows[k..][0] == rows[k] && rows[k..][1..] == rows[k + 1..];
      MaskRowOfFindsRow(m.rows, k);
      KeepUnmaskedFresh(data, any, columns, k + 1);
      FreshFlagsAgree(data, any, columns, k);
      var rest := KeepUnmasked(rows[k + 1..], m, any, columns);
      var keep := !Dropped(rows[k], any, columns);
      ConsMembership(rows, k, keep, KeepUnmasked(rows[k..], m, any, columns).value, rest.value, any, columns);
    } else {
      assert rows[k..] == [];
    }
  }

  /** The flags of a freshly computed mask row say what the row's cells
      say. */
  lemma FreshFlagsAgree(data: Frame, any: bool, columns: seq<string>, k: nat)
    requires k < |data.rows|
    ensures var mr := IsMissingFrame(data).rows[k];
      (if any then AnyFlagged(mr, columns) else AllFlagged(mr, columns)) <==> Dropped(data.rows[k], any, columns)
  {
  }

  /** The labels of a list that keeps or skips its head. */
  lemma ConsMembership(rows: seq<Row>, k: nat, keep: bool, r: seq<Label>, rest: seq<Label>, any: bool, columns: seq<string>)
    requires k < |rows|
    requires r == (if keep then [rows[k].key] else []) + rest
    requires keep <==> !Dropped(rows[k], any, columns)
    requires forall l :: l in rest <==>
      exists i :: k + 1 <= i < |rows| && rows[i].key == l && !Dropped(rows[i], any, columns)
    ensures forall l :: l in r <==>
      exists i :: k <= i < |rows| && rows[i].key == l && !Dropped(rows[i], any, columns)
  {
    forall l
      ensures l in r <==> exists i :: k <= i < |rows| && rows[i].key == l && !Dropped(rows[i], any, columns)
    {
      if l in r && l !in rest {
        assert rows[k].key == l && keep;
      }
      if exists i :: k <= i < |rows| && rows[i].key == l && !Dropped(rows[i], any, columns) {
        var i :| k <= i < |rows| && rows[i].key == l && !Dropped(rows[i], any, columns);
        if i > k {
          assert l in rest;
        }
      }
    }
  }

  /** get_non_empty_index() on freshly computed flags: the labels of the
      rows with at least one cell that is not missing. */
  lemma NonEmptyIndexAnyColumn(data: Frame)
    requires data.Valid()
    ensures var r := NonEmptyIndex(data, IsMissingFrame(data), None);
      && r.Ok?
      && forall l :: l in r.value <==>
        exists i :: 0 <= i < |data.rows| && data.rows[i].key == l
          && exists c :: c in data.columns && !IsMissing(data.rows[i].cells[c])
  {
    KeepUnmaskedFresh(data, false, data.columns, 0);
    assert data.rows[0..] == data.rows;
  }

  /** get_non_empty_index(required) on freshly computed flags: KeyError for
      a required column the table lacks; otherwise the labels of the rows
      missing none of the required columns. */
  lemma NonEmptyIndexRequired(data: Frame, required: seq<string>)
    requires data.Valid()
    ensures var r := NonEmptyIndex(data, IsMissingFrame(data), Some(required));
      && (r.Err? <==> exists c :: c in required && c !in data.columns)
      && (r.Err? ==> r.error.KeyError?)
      && (r.Ok? ==> forall l :: l in r.value <==>
        exists i :: 0 <= i < |data.rows| && data.rows[i].key == l
          && forall c :: c in required ==> !IsMissing(data.rows[i].cells[c]))
  {
    KeepUnmaskedFresh(data, true, required, 0);
    assert data.rows[0..] == data.rows;
  }

  /** is_empty(c) on freshly computed flags: KeyError for a column the
      table lacks; otherwise whether every cell of the column is missing. */
  lemma IsEmptyFresh(data: Frame, c: string)
    requires data.Valid()
    ensures var r := ColumnAllFlagged(IsMissingFrame(data), c);
      && (r.Err? <==> c !in data.columns)
      && (r.Ok? ==> (r.value <==> forall i :: 0 <= i < |data.rows| ==> IsMissing(data.rows[i].cells[c])))
  {
  }

  // ---------------------------------------------------------------------
  // Date formatting

  /** "0" repeated n times. */
  function Zeros(n: nat): (z: string)
    ensures |z| == n && forall i :: 0 <= i < n ==> z[i] == '0'
  {
    if n == 0 then "" else Zeros(n - 1) + "0"
  }

  /** _zfill_fast for one string: ("0" * n + s)[-n:]. For n = 0 the slice
      [-0:] is the whole string. */
  function ZfillFast(s: string, n: nat): (r: string)
    ensures n == 0 ==> r == s
    ensures n > 0 ==> |r| == n
  {
    var padded := Zeros(n) + s;
    if n == 0 then padded else padded[|padded| - n..]
  }

  /** str.zfill: pad with zeros on the left to width n, after a leading
      sign; a string already that wide is returned as it is. */
  function Zfill(s: string, n: nat): (r: string)
  {
    if |s| >= n then s
    else if |s| > 0 && (s[0] == '+' || s[0] == '-') then [s[0]] + Zeros(n - |s|) + s[1..]
    else Zeros(n - |s|) + s
  }

  /** For a positive width, _zfill_fast gives exactly that many
      characters, the last ones of the string padded with zeros. */
  lemma ZfillFastWidth(s: string, n: nat)
    requires n > 0
    ensures |ZfillFast(s, n)| == n
    ensures |s| >= n ==> ZfillFast(s, n) == s[|s| - n..]
    ensures |s| < n ==> ZfillFast(s, n) == Zeros(n - |s|) + s
  {
    var padded := Zeros(n) + s;
    if |s| >= n {
      assert padded[|padded| - n..] == s[|s| - n..];
    } else {
      assert padded[|padded| - n..] == Zeros(n - |s|) + s;
    }
  }

  /** _zfill_fast agrees with str.zfill exactly when the width is zero, the
      string already has that width, or it is shorter and does not start
      with a sign: a longer string is cut, a signed one padded before its
      sign. */
  lemma ZfillFastAgreesWithZfill(s: string, n: nat)
    ensures ZfillFast(s, n) == Zfill(s, n) <==>
      n == 0 || |s| == n || (|s| < n && (|s| == 0 || (s[0] != '+' && s[0] != '-')))
  {
    if n > 0 {
      ZfillFastWidth(s, n);
      if |s| > n {
        assert |Zfill(s, n)| != n;
      } else if |s| < n && |s| > 0 && (s[0] == '+' || s[0] == '-') {
        assert ZfillFast(s, n)[0] == '0' != Zfill(s, n)[0];
      } else if |s| == n {
        assert s[|s| - n..] == s;
      }
    }
  }

  /** The strings of one date in the dataset's format: year, zero-filled
      month and zero-filled day; any other format raises ValueError. */
  function FormatDate(format: DateFormat, datasetName: string, year: int, month: int, day: int): (r: Result<string>)
    ensures r.Err? <==> format.OtherFormat?
  {
    var y := IntToString(year);
    var m := ZfillFast(IntToString(month), 2);
    var d := ZfillFast(IntToString(day), 2);
    match format
    case YYYYMMDD => Ok(y + m + d)
    case MM_DD_YYYY => Ok(m + "/" + d + "/" + y)
    case MMDDYYYY => Ok(m + d + y)
    case OtherFormat(_) => Err(InvalidDateFormat(datasetName))
  }

  function InvalidDateFormat(datasetName: string): (e: Error)
    ensures e.ValueError?
  {
    ValueError("Invalid date format in " + datasetName + ".")
  }

  /** Four-digit years are spelled with four characters. */
  lemma FourDigitYear(year: int)
    requires 1000 <= year <= 9999
    ensures |IntToString(year)| == 4
  {
    NatToStringStep(year);
    NatToStringStep(year / 10);
    NatToStringStep(year / 10 / 10);
    NatToStringStep(year / 10 / 10 / 10);
  }

  /** Each digit above the last adds one character. */
  lemma NatToStringStep(n: nat)
    ensures |NatToString(n)| == if n < 10 then 1 else |NatToString(n / 10)| + 1
  {
  }

  /** The formatted date has the year's characters and two per month and
      day: 8 for YYYYMMDD and MMDDYYYY, 10 for MM/DD/YYYY with a
      four-digit year. */
  lemma FormatDateLength(format: DateFormat, datasetName: string, year: int, month: int, day: int)
    requires !format.OtherFormat?
    ensures var r := FormatDate(format, datasetName, year, month, day);
      |r.value| == |IntToString(year)| + (if format == MM_DD_YYYY then 6 else 4)
  {
    ZfillFastWidth(IntToString(month), 2);
    ZfillFastWidth(IntToString(day), 2);
  }

  /** The date formatting and the month/day swap fit together: swapping a
      formatted date gives the formatted date with month and day
      exchanged (for YYYYMMDD the year must have four characters). */
  lemma FormatDateSwap(format: DateFormat, datasetName: string, year: int, month: int, day: int)
    requires format == YYYYMMDD || format == MM_DD_YYYY
    requires format == YYYYMMDD ==> 1000 <= year <= 9999
    ensures SwapString(format, FormatDate(format, datasetName, year, month, day).value)
      == FormatDate(format, datasetName, year, day, month).value
  {
    var y := IntToString(year);
    var m := ZfillFast(IntToString(month), 2);
    var d := ZfillFast(IntToString(day), 2);
    ZfillFastWidth(IntToString(month), 2);
    ZfillFastWidth(IntToString(day), 2);
    if format == YYYYMMDD {
      FourDigitYear(year);
      var s := y + m + d;
      assert Slice(s, 0, 4) == y && Slice(s, 6, |s|) == d && Slice(s, 4, 6) == m;
    } else {
      var s := m + "/" + d + "/" + y;
      assert Slice(s, 3, 6) == d + "/" && Slice(s, 0, 3) == m + "/" && Slice(s, 6, |s|) == y;
    }
  }

  /** The .dt accessor applies: every cell that is not NA is a date. */
  predicate DatetimeLike(column: Series)
  {
    forall i :: 0 <= i < |column.values| ==> column.values[i] == NA || column.values[i].Date?
  }

  /** One date column formatted as strings: AttributeError when a cell that
      is not NA is not a date, ValueError for an unknown format; NA cells
      stay NA. */
  function FormatDateColumn(ds: Dataset, column: Series): (r: Result<Series>)
    ensures r.Ok? ==> r.value.name == column.name && r.value.index == column.index
    ensures r.Ok? ==> |r.value.values| == |column.values|
    ensures r.Ok? ==> forall i :: 0 <= i < |column.values| ==> (r.value.values[i] == NA <==> column.values[i] == NA)
    ensures r.Err? <==> !DatetimeLike(column) || ds.dateFormat.OtherFormat?
  {
    if !DatetimeLike(column) then Err(AttributeError("Can only use .dt accessor with datetimelike values"))
    else if ds.dateFormat.OtherFormat? then Err(InvalidDateFormat(ds.name))
    else
      var vs := seq(|column.values|, i requires 0 <= i < |column.values| =>
        match column.values[i]
        case Date(y, m, d) => Str(FormatDate(ds.dateFormat, ds.name, y, m, d).value)
        case _ => NA);
      Ok(Series(column.name, column.index, vs, false))
  }

  /** Each date cell of a formatted column is the formatted date, so the
      swap applied to it later exchanges its month and day. */
  lemma FormattedCellSwaps(ds: Dataset, column: Series, i: nat)
    requires FormatDateColumn(ds, column).Ok? && i < |column.values| && column.values[i].Date?
    requires ds.dateFormat == YYYYMMDD || ds.dateFormat == MM_DD_YYYY
    requires ds.dateFormat == YYYYMMDD ==> 1000 <= column.values[i].year <= 9999
    ensures var c := FormatDateColumn(ds, column).value.values[i];
      var v := column.values[i];
      && c.Str?
      && c.s == FormatDate(ds.dateFormat, ds.name, v.year, v.month, v.day).value
      && SwapString(ds.dateFormat, c.s) == FormatDate(ds.dateFormat, ds.name, v.year, v.day, v.month).value
  {
    var v := column.values[i];
    FormatDateSwap(ds.dateFormat, ds.name, v.year, v.month, v.day);
  }

  /** The columns the date formatting visits: each date column and then
      its household-member copy, when it has one. */
  function DateCandidates(shadow: map<string, string>): (cs: seq<string>)
  {
    [DateOfBirth] + (if DateOfBirth in shadow then [shadow[DateOfBirth]] else [])
      + [EventDate] + (if EventDate in shadow then [shadow[EventDate]] else [])
  }

  /** The candidates formatted in turn, each one present in the table. */
  function ReformattedDates(ds: Dataset, candidates: seq<string>, data: Frame): (r: Result<Frame>)
    requires data.Valid()
    ensures r.Ok? ==> r.value.Valid() && KeptExcept(data, r.value, set c | c in candidates)
    decreases |candidates|
  {
    if candidates == [] then
      assert KeptExcept(data, data, {});
      Ok(data)
    else
      var c := candidates[0];
      assert (set d | d in candidates) == {c} + (set d | d in candidates[1..]);
      if c !in data.columns then ReformattedDates(ds, candidates[1..], data)
      else
        var formatted :- FormatDateColumn(ds, data.Column(c));
        KeptExceptWithColumn(data, c, formatted);
        var rest :- ReformattedDates(ds, candidates[1..], data.WithColumn(c, formatted));
        KeptExceptTransitive(data, data.WithColumn(c, formatted), rest, {c}, set d | d in candidates[1..]);
        Ok(rest)
  }

  // ---------------------------------------------------------------------
  // Column selection

  /** data[names]: the listed columns in the listed order; KeyError for the
      first name that is not a column. */
  function SelectColumns(data: Frame, names: seq<string>): (r: Result<Frame>)
    requires data.Valid()
    ensures r.Err? <==> exists c :: c in names && c !in data.columns
    ensures r.Ok? ==> r.value.columns == names && |r.value.rows| == |data.rows|
    ensures r.Ok? ==> forall i :: 0 <= i < |data.rows| ==>
      && r.value.rows[i].key == data.rows[i].key
      && r.value.rows[i].cells.Keys == (set c | c in names)
      && forall c :: c in names ==> r.value.rows[i].cells[c] == data.rows[i].cells[c]
    ensures r.Ok? && Distinct(names) ==> r.value.Valid()
  {
    var absent := FirstAbsent(names, data.columns);
    if absent.Some? then Err(KeyError(absent.value))
    else
      var keep := set c | c in names;
      var rs := seq(|data.rows|, i requires 0 <= i < |data.rows| =>
        Row(data.rows[i].key, map c | c in data.rows[i].cells && c in keep :: data.rows[i].cells[c]));
      var f := Frame(names, data.categorical * keep, rs);
      assert forall i :: 0 <= i < |data.rows| ==> rs[i].cells.Keys == keep;
      assert IncreasingRows(rs);
      Ok(f)
  }

  /** Selecting the same columns again changes nothing. */
  lemma SelectColumnsIdempotent(data: Frame, names: seq<string>)
    requires data.Valid() && Distinct(names) && SelectColumns(data, names).Ok?
    ensures SelectColumns(SelectColumns(data, names).value, names) == SelectColumns(data, names)
  {
    var once := SelectColumns(data, names).value;
    var twice := SelectColumns(once, names).value;
    var keep := set c | c in names;
    assert twice.categorical == once.categorical;
    assert |twice.rows| == |once.rows|;
    forall i | 0 <= i < |once.rows|
      ensures twice.rows[i] == once.rows[i]
    {
      assert twice.rows[i].cells == once.rows[i].cells;
    }
    assert twice.rows == once.rows;
  }

  // ---------------------------------------------------------------------
  // Noise types as dataset.py calls them

  /** A noise type called with the dataset object: a row type with its
      configuration node, a column type with its node and the column's
      name. The function gives the object's table after the call. */
  datatype DatasetNoiseType =
    | DatasetRowType(name: string, rowFunction: (Frame, Tree) -> Result<Frame>)
    | DatasetColumnType(name: string, columnFunction: (Frame, Tree, string) -> Result<Frame>)
    | DatasetUnsupported(kind: string)

  /** The table reached, and whether the walk completed or raised. */
  type Run = (Frame, Outcome)

  /** A column type applied to the listed columns in turn. */
  function NoiseDatasetColumns(f: (Frame, Tree, string) -> Result<Frame>, name: string, columns: seq<string>, node: Tree, data: Frame): (r: Run)
    requires forall c :: c in columns ==> node.Has(c) && node.kids[c].Has(name)
    decreases |columns|
  {
    if columns == [] then (data, Pass)
    else
      var c := columns[0];
      assert c in columns && node.Has(c) && node.kids[c].Has(name);
      var next := f(data, node.kids[c].kids[name], c);
      if next.Err? then (data, Fail(next.error))
      else NoiseDatasetColumns(f, name, columns[1..], node, next.value)
  }

  /** One entry of the catalog: a row type runs only when row_noise lists
      it; a column type runs on the columns column_noise lists it for that
      are in the table; anything else raises TypeError. */
  function NoiseDatasetStep(t: DatasetNoiseType, node: Tree, data: Frame): (r: Run)
  {
    match t
    case DatasetRowType(name, f) =>
      if node.Has(RowNoiseKey) && node.kids[RowNoiseKey].Has(name) then
        var next := f(data, node.kids[RowNoiseKey].kids[name]);
        if next.Err? then (data, Fail(next.error)) else (next.value, Pass)
      else (data, Pass)
    case DatasetColumnType(name, f) =>
      if node.Has(ColumnNoiseKey) then
        var columnNode := node.kids[ColumnNoiseKey];
        NoiseDatasetColumns(f, name, ColumnsToNoise(columnNode, data.columns, name), columnNode, data)
      else (data, Pass)
    case DatasetUnsupported(kind) => (data, Fail(InvalidNoiseType(kind)))
  }

  /** The catalog in order; the first failure stops the walk. */
  function NoiseDatasetTypes(noiseTypes: seq<DatasetNoiseType>, node: Tree, data: Frame): (r: Run)
    decreases |noiseTypes|
  {
    if noiseTypes == [] then (data, Pass)
    else
      var step := NoiseDatasetStep(noiseTypes[0], node, data);
      if step.1.Fail? then step else NoiseDatasetTypes(noiseTypes[1..], node, step.0)
  }

  /** noise_dataset: configuration[dataset name] (KeyError when absent),
      then the catalog. */
  function NoiseDatasetRun(datasetName: string, data: Frame, configuration: Tree, noiseTypes: seq<DatasetNoiseType>): (r: Run)
  {
    if !configuration.Has(datasetName) then (data, Fail(KeyError(datasetName)))
    else NoiseDatasetTypes(noiseTypes, configuration.kids[datasetName], data)
  }

  /** Running two catalogs one after the other is running their
      concatenation; a failure in the first stops before the second. */
  lemma {:induction false} NoiseDatasetTypesCompose(a: seq<DatasetNoiseType>, b: seq<DatasetNoiseType>, node: Tree, data: Frame)
    ensures var first := NoiseDatasetTypes(a, node, data);
      NoiseDatasetTypes(a + b, node, data) == if first.1.Fail? then first else NoiseDatasetTypes(b, node, first.0)
    decreases |a|
  {
    if a == [] {
      assert a + b == b;
    } else {
      assert (a + b)[0] == a[0] && (a + b)[1..] == a[1..] + b;
      var step := NoiseDatasetStep(a[0], node, data);
      if step.1.Pass? {
        NoiseDatasetTypesCompose(a[1..], b, node, step.0);
      }
    }
  }

  /** A row noise type row_noise does not list leaves the table as it is. */
  lemma UnlistedRowTypeSkipped(name: string, f: (Frame, Tree) -> Result<Frame>, node: Tree, data: Frame)
    requires !(node.Has(RowNoiseKey) && node.kids[RowNoiseKey].Has(name))
    ensures NoiseDatasetStep(DatasetRowType(name, f), node, data) == (data, Pass)
  {
  }

  /** A column noise type that no column of the table lists in column_noise
      is never called and leaves the table as it is. */
  lemma UnlistedColumnTypeSkipped(name: string, f: (Frame, Tree, string) -> Result<Frame>, node: Tree, data: Frame)
    requires node.Has(ColumnNoiseKey) ==>
      forall c :: c in data.columns && node.kids[ColumnNoiseKey].Has(c) ==> !node.kids[ColumnNoiseKey].kids[c].Has(name)
    ensures NoiseDatasetStep(DatasetColumnType(name, f), node, data) == (data, Pass)
  {
    if node.Has(ColumnNoiseKey) {
      var cs := ColumnsToNoise(node.kids[ColumnNoiseKey], data.columns, name);
      assert forall c :: c !in cs;
    }
  }

  /** An unsupported entry raises TypeError with the table reached by the
      entries before it. */
  lemma {:induction false} UnsupportedEntryRaises(noiseTypes: seq<DatasetNoiseType>, k: nat, node: Tree, data: Frame)
    requires k < |noiseTypes| && noiseTypes[k].DatasetUnsupported?
    ensures var before := NoiseDatasetTypes(noiseTypes[..k], node, data);
      var r := NoiseDatasetTypes(noiseTypes, node, data);
      r == if before.1.Fail? then before else (before.0, Fail(InvalidNoiseType(noiseTypes[k].kind)))
  {
    var before := NoiseDatasetTypes(noiseTypes[..k], node, data);
    assert noiseTypes == noiseTypes[..k] + noiseTypes[k..];
    NoiseDatasetTypesCompose(noiseTypes[..k], noiseTypes[k..], node, data);
    assert noiseTypes[k..][0] == noiseTypes[k];
  }

  /** A dataset missing from the configuration raises KeyError before any
      noise type runs. */
  lemma MissingDatasetRaises(datasetName: string, data: Frame, configuration: Tree, noiseTypes: seq<DatasetNoiseType>)
    requires !configuration.Has(datasetName)
    ensures NoiseDatasetRun(datasetName, data, configuration, noiseTypes) == (data, Fail(KeyError(datasetName)))
  {
  }

  // ---------------------------------------------------------------------
  // The object

  /** DatasetData.__init__ as written, statement by statement, on the
      object's attributes: the second statement reads self.data, which
      the third one is the first to set. */
  datatype Attributes = Attributes(dataset: Option<Dataset>, data: Option<Frame>, randomness: Option<Stream>, missingness: Option<Mask>)

  /** Attribute access self.data: AttributeError before it is set. */
  function DataAttribute(a: Attributes): (r: Result<Frame>)
    ensures r.Ok? <==> a.data.Some?
  {
    if a.data.Some? then Ok(a.data.value) else Err(AttributeError("'DatasetData' object has no attribute 'data'"))
  }

  /** The statements of __init__ run on an object whose attributes are
      a; on a new object none is set yet. */
  function InitStatements(a: Attributes, dataset: Dataset, loaded: Frame, seed: string, streamFor: (string, string, seq<Label>) -> Stream): (r: Result<Attributes>)
    ensures r.Err? <==> a.data.None?
  {
    var withDataset := a.(dataset := Some(dataset));
    var current :- DataAttribute(withDataset);
    var withStream := withDataset.(randomness := Some(streamFor(dataset.name, seed, current.Index())));
    var withData := withStream.(data := Some(loaded));
    Ok(withData.(missingness := Some(IsMissingFrame(loaded))))
  }

  function InitAsWritten(dataset: Dataset, loaded: Frame, seed: string, streamFor: (string, string, seq<Label>) -> Stream): (r: Result<Attributes>)
    ensures r.Err? && r.error.AttributeError?
  {
    InitStatements(Attributes(None, None, None, None), dataset, loaded, seed, streamFor)
  }

  /** DataFrame.empty: no rows or no columns. */
  predicate IsEmptyFrame(data: Frame)
  {
    |data.rows| == 0 || |data.columns| == 0
  }

  /** DatasetData.__bool__ as written: data.empty. */
  function TruthAsWritten(data: Frame): (b: bool)
    ensures b <==> IsEmptyFrame(data)
  {
    data.rows == [] || data.columns == []
  }

  /** The truth value the object evidently means to have: it holds data. */
  function Truth(data: Frame): (b: bool)
    ensures b <==> !IsEmptyFrame(data)
  {
    !TruthAsWritten(data)
  }

  /** The constructor as written never completes. */
  lemma InitAsWrittenAlwaysFails(dataset: Dataset, loaded: Frame, seed: string, streamFor: (string, string, seq<Label>) -> Stream)
    ensures InitAsWritten(dataset, loaded, seed, streamFor).Err?
    ensures InitAsWritten(dataset, loaded, seed, streamFor).error.AttributeError?
  {
  }

  /** __bool__ as written is the negation of holding data: an object with
      one row of one column is falsy, one with no rows truthy. */
  lemma TruthAsWrittenInverted(data: Frame)
    ensures TruthAsWritten(data) == !Truth(data)
    ensures TruthAsWritten(Frame([], {}, [])) && !Truth(Frame([], {}, []))
    ensures var one := Frame(["a"], {}, [Row(0, map["a" := Str("x")])]);
      !TruthAsWritten(one) && Truth(one) && one.Valid()
  {
    var one := Frame(["a"], {}, [Row(0, map["a" := Str("x")])]);
    assert one.ColumnSet() == {"a"};
  }

  class DatasetData {
    var dataset: Dataset
    var data: Frame
    var missingness: Mask
    var randomness: Stream

    /** DatasetData.__init__ with the table loaded before the stream that
        is keyed on its index is built. Loading the file is outside the
        model: the loaded table is a parameter, and so is the function that
        builds the randomness stream. */
    constructor (dataset: Dataset, loaded: Frame, seed: string, streamFor: (string, string, seq<Label>) -> Stream)
      ensures this.dataset == dataset && data == loaded
      ensures randomness == streamFor(dataset.name, seed, loaded.Index())
      ensures missingness == IsMissingFrame(loaded)
    {
      this.dataset := dataset;
      data := loaded;
      randomness := streamFor(dataset.name, seed, loaded.Index());
      missingness := IsMissingFrame(loaded);
    }

    /** __bool__, corrected: true when the object holds data. */
    function Bool(): (b: bool)
      reads this
      ensures b <==> |data.rows| > 0 && |data.columns| > 0
    {
      Truth(data)
    }

    /** is_empty: every cell of the column is flagged missing. The flags
        are the ones computed when the object was built. */
    function IsEmpty(columnName: string): (r: Result<bool>)
      reads this
      ensures r.Err? <==> columnName !in missingness.columns
    {
      ColumnAllFlagged(missingness, columnName)
    }

    /** get_non_empty_index on the flags computed when the object was
        built: labels of the table's rows, KeyError for a required column
        without flags. */
    function GetNonEmptyIndex(required: Option<seq<string>>): (r: Result<seq<Label>>)
      reads this
      ensures r.Ok? ==> forall l :: l in r.value ==> exists i :: 0 <= i < |data.rows| && data.rows[i].key == l
      ensures required.Some? && (exists c :: c in required.value && c !in missingness.columns) ==>
        r.Err? && r.error.KeyError?
      ensures required.Some? && r.Ok? ==> forall c :: c in required.value ==> c in missingness.columns && c in data.columns
    {
      NonEmptyIndex(data, missingness, required)
    }

    /** The inner loop of noise_dataset for one column type. */
    method NoiseColumns(f: (Frame, Tree, string) -> Result<Frame>, name: string, columns: seq<string>, node: Tree)
      returns (r: Outcome)
      requires forall c :: c in columns ==> node.Has(c) && node.kids[c].Has(name)
      modifies this
      ensures dataset == old(dataset) && missingness == old(missingness) && randomness == old(randomness)
      ensures (data, r) == NoiseDatasetColumns(f, name, columns, node, old(data))
    {
      for j := 0 to |columns|
        invariant dataset == old(dataset) && missingness == old(missingness) && randomness == old(randomness)
        invariant NoiseDatasetColumns(f, name, columns, node, old(data)) == NoiseDatasetColumns(f, name, columns[j..], node, data)
      {
        var column := columns[j];
        assert columns[j..][0] == column && columns[j..][1..] == columns[j + 1..];
        var next := f(data, node.kids[column].kids[name], column);
        if next.Err? {
          return Fail(next.error);
        }
        data := next.value;
      }
      r := Pass;
    }

    /** noise_dataset: the catalog in order on the object's table. The
        missingness flags are not recomputed. */
    method NoiseDataset(configuration: Tree, noiseTypes: seq<DatasetNoiseType>) returns (r: Outcome)
      modifies this
      ensures dataset == old(dataset) && missingness == old(missingness) && randomness == old(randomness)
      ensures (data, r) == NoiseDatasetRun(old(dataset).name, old(data), configuration, noiseTypes)
    {
      if !configuration.Has(dataset.name) {
        return Fail(KeyError(dataset.name));
      }
      var node := configuration.kids[dataset.name];
      for t := 0 to |noiseTypes|
        invariant dataset == old(dataset) && missingness == old(missingness) && randomness == old(randomness)
        invariant NoiseDatasetRun(old(dataset).name, old(data), configuration, noiseTypes) == NoiseDatasetTypes(noiseTypes[t..], node, data)
      {
        var rest := noiseTypes[t..];
        assert rest[0] == noiseTypes[t] && rest[1..] == noiseTypes[t + 1..];
        match noiseTypes[t]
        case DatasetRowType(name, f) =>
          if node.Has(RowNoiseKey) && node.kids[RowNoiseKey].Has(name) {
            var next := f(data, node.kids[RowNoiseKey].kids[name]);
            if next.Err? {
              return Fail(next.error);
            }
            data := next.value;
          }
        case DatasetColumnType(name, f) =>
          if node.Has(ColumnNoiseKey) {
            var columnNode := node.kids[ColumnNoiseKey];
            var columns := ColumnsToNoise(columnNode, data.columns, name);
            var o := NoiseColumns(f, name, columns, columnNode);
            if o.Fail? {
              return o;
            }
          }
        case DatasetUnsupported(kind) =>
          return Fail(InvalidNoiseType(kind));
      }
      r := Pass;
    }

    /** _reformat_dates_for_noising: on a copy of the table, each date
        column present (and its household-member copy) becomes strings in
        the dataset's format; the object's table is replaced only when every
        column succeeded. */
    method ReformatDatesForNoising(shadow: map<string, string>) returns (r: Outcome)
      requires data.Valid()
      modifies this
      ensures dataset == old(dataset) && missingness == old(missingness) && randomness == old(randomness)
      ensures var f := ReformattedDates(old(dataset), DateCandidates(shadow), old(data));
        && (r.Pass? <==> f.Ok?)
        && (r.Pass? ==> data == f.value)
        && (r.Fail? ==> r.error == f.error && data == old(data))
    {
      var copy := data;
      var candidates := DateCandidates(shadow);
      for j := 0 to |candidates|
        invariant copy.Valid()
        invariant ReformattedDates(dataset, candidates, data) == ReformattedDates(dataset, candidates[j..], copy)
      {
        var column := candidates[j];
        assert candidates[j..][0] == column && candidates[j..][1..] == candidates[j + 1..];
        if column in copy.columns {
          var formatted := FormatDateColumn(dataset, copy.Column(column));
          if formatted.Err? {
            return Fail(formatted.error);
          }
          copy := copy.WithColumn(column, formatted.value);
        }
      }
      data := copy;
      r := Pass;
    }

    /** drop_extra_columns: keep the schema's columns, in schema order. */
    method DropExtraColumns() returns (r: Outcome)
      requires data.Valid()
      modifies this
      ensures dataset == old(dataset) && missingness == old(missingness) && randomness == old(randomness)
      ensures var f := SelectColumns(old(data), old(dataset).columns);
        && (r.Pass? <==> f.Ok?)
        && (r.Pass? ==> data == f.value)
        && (r.Fail? ==> r.error == f.error && data == old(data))
    {
      var selected := SelectColumns(data, dataset.columns);
      if selected.Err? {
        return Fail(selected.error);
      }
      data := selected.value;
      r := Pass;
    }
  }
}
