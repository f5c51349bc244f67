/** The row-noise operations of the noise library: random row omission and
    the demographic do-not-respond omission used by the census and the
    surveys. Both select rows and return the table without them. */
module RowNoise {
  import opened Tables
  import opened Randomness
  import opened Utilities

  const RowProbability: string := "row_probability"

  const Census: string := "decennial_census"
  const Acs: string := "american_community_survey"
  const Cps: string := "current_population_survey"

  /** The share of Current Population Survey households that never respond. */
  const CpsNonResponse: real := 0.276

  // ---------------------------------------------------------------------
  // Dropping selected rows

  /** data.loc[data.index.difference(data.index[mask])]: the table without
      the rows the mask selects. */
  function DropSelected(data: Frame, mask: seq<bool>): (f: Frame)
    requires data.Valid() && |mask| == |data.rows|
    ensures f.Valid() && f.columns == data.columns && f.categorical == data.categorical
    ensures forall x :: x in f.rows ==> x in data.rows
    ensures forall j :: 0 <= j < |data.rows| ==> (data.rows[j] in f.rows <==> !mask[j])
    ensures |f.rows| <= |data.rows|
  {
    var ix := data.Index();
    SelectWhereSpec(ix, mask);
    var selected := SelectWhere(ix, mask);
    var f := data.DropRows(set l | l in selected);
    assert forall j :: 0 <= j < |data.rows| ==> (data.rows[j].key in selected <==> mask[j]) by {
      forall j | 0 <= j < |data.rows| ensures data.rows[j].key in selected <==> mask[j] {
        assert ix[j] == data.rows[j].key;
      }
    }
    f
  }

  /** A mask that selects nothing leaves the table as it is. */
  lemma DropNothing(data: Frame, mask: seq<bool>)
    requires data.Valid() && |mask| == |data.rows|
    requires forall j :: 0 <= j < |mask| ==> !mask[j]
    ensures DropSelected(data, mask) == data
  {
    var ix := data.Index();
    SelectWhereConstant(ix, mask, false);
    assert (set l | l in SelectWhere(ix, mask)) == {};
    KeepRowsNone(data.rows, {});
  }

  lemma {:induction false} KeepRowsNone(rs: seq<Row>, drop: set<Label>)
    requires forall j :: 0 <= j < |rs| ==> rs[j].key !in drop
    ensures KeepRows(rs, drop) == rs
    decreases |rs|
  {
    if rs != [] {
      KeepRowsNone(rs[1..], drop);
      assert [rs[0]] + rs[1..] == rs;
    }
  }

  lemma {:induction false} KeepRowsAll(rs: seq<Row>, drop: set<Label>)
    requires forall j :: 0 <= j < |rs| ==> rs[j].key in drop
    ensures KeepRows(rs, drop) == []
    decreases |rs|
  {
    if rs != [] {
      KeepRowsAll(rs[1..], drop);
    }
  }

  /** A mask that selects every row leaves no row. */
  lemma DropEverything(data: Frame, mask: seq<bool>)
    requires data.Valid() && |mask| == |data.rows|
    requires forall j :: 0 <= j < |mask| ==> mask[j]
    ensures DropSelected(data, mask).rows == []
  {
    var ix := data.Index();
    SelectWhereConstant(ix, mask, true);
    KeepRowsAll(data.rows, set l | l in SelectWhere(ix, mask));
  }

  // ---------------------------------------------------------------------
  // omit_rows

  /** The draw threshold test filter_for_probability applies to every row. */
  function BelowLevel(data: Frame, level: real, u: Label -> real): (mask: seq<bool>)
    ensures |mask| == |data.rows|
    ensures forall j :: 0 <= j < |data.rows| ==> mask[j] == (u(data.rows[j].key) < level)
  {
    seq(|data.rows|, j requires 0 <= j < |data.rows| => u(data.rows[j].key) < level)
  }

  /** omit_rows: the configured row_probability selects rows with the
      stream's draws under the key "<dataset>_omit_choice"; the selected rows
      are dropped. */
  function OmitRows(datasetName: string, data: Frame, configuration: Tree, stream: Stream): (r: Result<Frame>)
    requires data.Valid()
    ensures r.Err? <==> GetReal(configuration, RowProbability).Err?
    ensures r.Err? ==> r.error == GetReal(configuration, RowProbability).error
    ensures r.Ok? ==> r.value.Valid() && r.value.columns == data.columns
    ensures r.Ok? ==> forall x :: x in r.value.rows ==> x in data.rows
    ensures r.Ok? ==> forall j :: 0 <= j < |data.rows| ==>
      (data.rows[j] in r.value.rows <==>
       !(stream.draw(datasetName + "_omit_choice", data.rows[j].key) < GetReal(configuration, RowProbability).value))
  {
    var level :- GetReal(configuration, RowProbability);
    var key := datasetName + "_omit_choice";
    Ok(DropSelected(data, BelowLevel(data, level, l => stream.draw(key, l))))
  }

  /** row_probability 0 keeps every row; row_probability 1 keeps none. */
  lemma OmitRowsExtremes(datasetName: string, data: Frame, configuration: Tree, stream: Stream)
    requires data.Valid() && stream.Valid()
    requires GetReal(configuration, RowProbability).Ok?
    ensures GetReal(configuration, RowProbability).value == 0.0 ==>
      OmitRows(datasetName, data, configuration, stream) == Ok(data)
    ensures GetReal(configuration, RowProbability).value == 1.0 ==>
      OmitRows(datasetName, data, configuration, stream).value.rows == []
  {
    var level := GetReal(configuration, RowProbability).value;
    var key := datasetName + "_omit_choice";
    var mask := BelowLevel(data, level, l => stream.draw(key, l));
    forall j | 0 <= j < |mask| ensures 0.0 <= stream.draw(key, data.rows[j].key) < 1.0 {
      var l := data.rows[j].key;
      assert 0.0 <= stream.draw(key, l) < 1.0;
    }
    if level == 0.0 { DropNothing(data, mask); }
    if level == 1.0 { DropEverything(data, mask); }
  }

  // ---------------------------------------------------------------------
  // _get_census_omission_noise_levels

  /** One bin of the age distribution of the sex-specific additions: ages in
      the interval (lo, hi] add `add` to the do-not-respond probability. */
  datatype AgeBin = AgeBin(lo: real, hi: real, add: real)

  predicate InBin(b: AgeBin, age: real)
  {
    b.lo < age <= b.hi
  }

  /** pd.cut refuses overlapping bins. */
  predicate NonOverlapping(bins: seq<AgeBin>)
  {
    forall i, j :: 0 <= i < j < |bins| ==> bins[i].hi <= bins[j].lo || bins[j].hi <= bins[i].lo
  }

  /** pd.cut(age).map(additions): the addition of the bin holding the age,
      or NaN (None) when no bin holds it or the age is not a number. */
  function BinAddition(bins: seq<AgeBin>, age: Cell): (a: Option<real>)
    ensures a.Some? <==> age.Num? && exists b :: b in bins && InBin(b, age.n as real)
    ensures a.Some? ==> exists b :: b in bins && InBin(b, age.n as real) && a.value == b.add
    decreases |bins|
  {
    if !age.Num? || bins == [] then None
    else if InBin(bins[0], age.n as real) then assert bins[0] in bins; Some(bins[0].add)
    else
      var rest := BinAddition(bins[1..], age);
      assert forall b :: b in bins[1..] ==> b in bins;
      assert forall b :: b in bins && b != bins[0] ==> b in bins[1..];
      rest
  }

  /** Addition with NaN propagation. */
  function AddOpt(x: Option<real>, y: Option<real>): (z: Option<real>)
    ensures z.Some? <==> x.Some? && y.Some?
    ensures z.Some? ==> z.value == x.value + y.value
  {
    if x.Some? && y.Some? then Some(x.value + y.value) else None
  }

  /** The two clipping assignments: below 0 becomes 0, above 1 becomes 1;
      NaN compares false and stays NaN. */
  function Clip(x: Option<real>): (z: Option<real>)
    ensures z.Some? <==> x.Some?
    ensures z.Some? ==> 0.0 <= z.value <= 1.0
    ensures z.Some? && 0.0 <= x.value <= 1.0 ==> z.value == x.value
  {
    if x.None? then None
    else if x.value < 0.0 then Some(0.0)
    else if x.value > 1.0 then Some(1.0)
    else x
  }

  /** The constant tables the demographic model reads. */
  datatype DemographicTables = DemographicTables(
    base: real,
    byRace: map<string, real>,
    bySexAge: map<string, seq<AgeBin>>)
  {
    /** The tables pd.cut and the lookups accept: both sexes present and
        neither sex's bins overlapping. */
    predicate Usable()
    {
      && "Female" in bySexAge && "Male" in bySexAge
      && NonOverlapping(bySexAge["Female"]) && NonOverlapping(bySexAge["Male"])
    }
  }

  /** The base probability plus the race addition; a race missing from the
      table maps to NaN. */
  function RaceLevel(t: DemographicTables, race: Cell): Option<real>
  {
    var k := AsStr(race);
    if k in t.byRace then Some(t.base + t.byRace[k]) else None
  }

  /** The level of one row once the additions of the first `done` of the
      sexes Female, Male have been applied, before clipping. */
  function UnclippedLevel(t: DemographicTables, race: Cell, sex: Cell, age: Cell, done: nat): Option<real>
    requires done >= 1 ==> "Female" in t.bySexAge
    requires done >= 2 ==> "Male" in t.bySexAge
  {
    var r := RaceLevel(t, race);
    if done >= 1 && sex == Str("Female") then AddOpt(r, BinAddition(t.bySexAge["Female"], age))
    else if done >= 2 && sex == Str("Male") then AddOpt(r, BinAddition(t.bySexAge["Male"], age))
    else r
  }

  /** The census do-not-respond level of one row: NaN (None) when the race
      is not in the table, or the row is Female or Male and its age falls in
      no bin; otherwise the clipped sum, which lies in [0, 1]. */
  function CensusLevel(t: DemographicTables, race: Cell, sex: Cell, age: Cell): (p: Option<real>)
    requires t.Usable()
    ensures p.Some? ==> 0.0 <= p.value <= 1.0
    ensures p.Some? <==> (AsStr(race) in t.byRace &&
      (sex == Str("Female") ==> BinAddition(t.bySexAge["Female"], age).Some?) &&
      (sex == Str("Male") ==> BinAddition(t.bySexAge["Male"], age).Some?))
    ensures p.Some? && sex != Str("Female") && sex != Str("Male") ==>
      p.value == Clip(Some(t.base + t.byRace[AsStr(race)])).value
  {
    Clip(UnclippedLevel(t, race, sex, age, 2))
  }

  /** The census levels of every row, in row order. */
  function CensusLevels(t: DemographicTables, data: Frame): (ps: seq<Option<real>>)
    requires t.Usable() && data.Valid() && "race_ethnicity" in data.columns
    requires "sex" in data.columns && "age" in data.columns
    ensures |ps| == |data.rows|
  {
    seq(|data.rows|, i requires 0 <= i < |data.rows| =>
      CensusLevel(t, data.rows[i].cells["race_ethnicity"], data.rows[i].cells["sex"], data.rows[i].cells["age"]))
  }

  /** The outcome of _get_census_omission_noise_levels: the KeyError of the
      first column or table entry it reads that is absent, the ValueError
      of pd.cut on overlapping bins, or the census level of every row. */
  function CensusOmissionLevels(t: DemographicTables, population: Frame): (r: Result<seq<Option<real>>>)
    requires population.Valid()
    ensures r.Ok? <==> ("race_ethnicity" in population.columns && "sex" in population.columns &&
      "age" in population.columns && t.Usable())
    ensures r.Ok? ==> |r.value| == |population.rows|
    ensures r.Ok? ==> forall i :: 0 <= i < |population.rows| && r.value[i].Some? ==> 0.0 <= r.value[i].value <= 1.0
  {
    if "race_ethnicity" !in population.columns then Err(KeyError("race_ethnicity"))
    else if "sex" !in population.columns then Err(KeyError("sex"))
    else if "age" !in population.columns then Err(KeyError("age"))
    else if "Female" !in t.bySexAge then Err(KeyError("Female"))
    else if !NonOverlapping(t.bySexAge["Female"]) then Err(ValueError(OverlappingBins))
    else if "Male" !in t.bySexAge then Err(KeyError("Male"))
    else if !NonOverlapping(t.bySexAge["Male"]) then Err(ValueError(OverlappingBins))
    else Ok(CensusLevels(t, population))
  }

  const OverlappingBins: string := "Overlapping IntervalIndex is not accepted."

  /** _get_census_omission_noise_levels: start every row at the base
      probability, add the race addition, then for Female and then Male add
      the age-bin addition to the rows of that sex, and finally clip the
      levels into [0, 1] (NaN stays NaN). */
  method CensusOmissionNoiseLevels(population: Frame, t: DemographicTables) returns (r: Result<seq<Option<real>>>)
    requires population.Valid()
    ensures r == CensusOmissionLevels(t, population)
  {
    if "race_ethnicity" !in population.columns { return Err(KeyError("race_ethnicity")); }
    var rows := population.rows;
    var n := |rows|;
    var p := new Option<real>[n](i requires 0 <= i < n => RaceLevel(t, rows[i].cells["race_ethnicity"]));
    var sexes := ["Female", "Male"];
    for s := 0 to 2
      invariant s == 0 ==> forall i :: 0 <= i < n ==> p[i] == RaceLevel(t, rows[i].cells["race_ethnicity"])
      invariant s > 0 ==> "sex" in population.columns && "age" in population.columns
      invariant s >= 1 ==> "Female" in t.bySexAge && NonOverlapping(t.bySexAge["Female"])
      invariant s >= 2 ==> "Male" in t.bySexAge && NonOverlapping(t.bySexAge["Male"])
      invariant s > 0 ==> forall i :: 0 <= i < n ==>
        p[i] == UnclippedLevel(t, rows[i].cells["race_ethnicity"], rows[i].cells["sex"], rows[i].cells["age"], s)
    {
      var sex := sexes[s];
      if "sex" !in population.columns { return Err(KeyError("sex")); }
      if "age" !in population.columns { return Err(KeyError("age")); }
      if sex !in t.bySexAge { return Err(KeyError(sex)); }
      var bins := t.bySexAge[sex];
      if !NonOverlapping(bins) { return Err(ValueError(OverlappingBins)); }
      forall i | 0 <= i < n && rows[i].cells["sex"] == Str(sex) {
        p[i] := AddOpt(p[i], BinAddition(bins, rows[i].cells["age"]));
      }
    }
    forall i | 0 <= i < n && p[i].Some? && p[i].value < 0.0 {
      p[i] := Some(0.0);
    }
    forall i | 0 <= i < n && p[i].Some? && p[i].value > 1.0 {
      p[i] := Some(1.0);
    }
    assert t.Usable();
    forall i | 0 <= i < n
      ensures p[i] == CensusLevel(t, rows[i].cells["race_ethnicity"], rows[i].cells["sex"], rows[i].cells["age"])
    {
    }
    assert p[..] == CensusLevels(t, population);
    r := Ok(p[..]);
  }

  // ---------------------------------------------------------------------
  // apply_do_not_respond

  const RequiredColumns: seq<string> := ["age", "race_ethnicity", "sex"]

  /** The required columns absent from the table, in the required order. */
  function MissingColumns(required: seq<string>, columns: seq<string>): (m: seq<string>)
    ensures forall c :: c in m <==> c in required && c !in columns
    ensures |m| <= |required|
  {
    if required == [] then []
    else (if required[0] in columns then [] else [required[0]]) + MissingColumns(required[1..], columns)
  }

  /** Python's repr of a list of strings. */
  function ListRepr(xs: seq<string>): string
  {
    "[" + Joined(xs) + "]"
  }

  function Joined(xs: seq<string>): string
  {
    if xs == [] then ""
    else if |xs| == 1 then "'" + xs[0] + "'"
    else "'" + xs[0] + "', " + Joined(xs[1..])
  }

  function MissingColumnsMessage(datasetName: string, missing: seq<string>): string
  {
    "Dataset " + datasetName + " is missing required columns: " + ListRepr(missing)
  }

  /** The level a row ends with: its census level, plus the CPS non-response
      rate for CPS, times configured/default, and for ACS and CPS mapped to
      0.5 + p/2 to account for oversampling. NaN stays NaN. */
  function AdjustedLevel(datasetName: string, census: Option<real>, scale: real): (p: Option<real>)
    ensures p.Some? <==> census.Some?
  {
    if census.None? then None
    else
      var withCps := if datasetName == Cps then census.value + CpsNonResponse else census.value;
      var scaled := withCps * scale;
      Some(if datasetName == Acs || datasetName == Cps then 0.5 + scaled / 2.0 else scaled)
  }

  /** Whether a row with the given level is selected by its draw: a NaN
      level selects nothing. */
  predicate Selected(level: Option<real>, u: real)
  {
    level.Some? && u < level.value
  }

  /** The scale factor configured/default, or the error computing it raises:
      KeyError for a missing row_probability or dataset default, and
      ZeroDivisionError for a zero default. */
  function LevelScale(datasetName: string, configuration: Tree, defaults: map<string, real>): (r: Result<real>)
    ensures r.Ok? ==> (GetReal(configuration, RowProbability).Ok? && datasetName in defaults &&
      defaults[datasetName] != 0.0 && r.value == GetReal(configuration, RowProbability).value / defaults[datasetName])
    ensures GetReal(configuration, RowProbability).Err? ==> r == Err(GetReal(configuration, RowProbability).error)
    ensures GetReal(configuration, RowProbability).Ok? && datasetName !in defaults ==> r == Err(KeyError(datasetName))
    ensures GetReal(configuration, RowProbability).Ok? && datasetName in defaults && defaults[datasetName] == 0.0 ==>
      r == Err(ZeroDivisionError)
  {
    var configured :- GetReal(configuration, RowProbability);
    if datasetName !in defaults then Err(KeyError(datasetName))
    else if defaults[datasetName] == 0.0 then Err(ZeroDivisionError)
    else Ok(configured / defaults[datasetName])
  }

  /** apply_do_not_respond: refuses a table without age, race_ethnicity or
      sex (ValueError naming the missing ones); otherwise every row whose
      adjusted level exceeds its draw under "do_not_respond_<dataset>" is
      dropped and every other row is kept. */
  function ApplyDoNotRespond(datasetName: string, data: Frame, configuration: Tree, stream: Stream,
                             t: DemographicTables, defaults: map<string, real>): (r: Result<Frame>)
    requires data.Valid()
    ensures MissingColumns(RequiredColumns, data.columns) != [] ==>
      r == Err(ValueError(MissingColumnsMessage(datasetName, MissingColumns(RequiredColumns, data.columns))))
    ensures r.Ok? <==> (MissingColumns(RequiredColumns, data.columns) == [] &&
      CensusOmissionLevels(t, data).Ok? && LevelScale(datasetName, configuration, defaults).Ok?)
    ensures r.Ok? ==> r.value.Valid() && r.value.columns == data.columns
    ensures r.Ok? ==> forall x :: x in r.value.rows ==> x in data.rows
    ensures r.Ok? ==> forall j :: 0 <= j < |data.rows| ==>
      (data.rows[j] in r.value.rows <==>
       !Selected(AdjustedLevel(datasetName, CensusOmissionLevels(t, data).value[j],
                               LevelScale(datasetName, configuration, defaults).value),
                 stream.draw("do_not_respond_" + datasetName, data.rows[j].key)))
  {
    var missing := MissingColumns(RequiredColumns, data.columns);
    if missing != [] then Err(ValueError(MissingColumnsMessage(datasetName, missing)))
    else
      var census :- CensusOmissionLevels(t, data);
      var scale :- LevelScale(datasetName, configuration, defaults);
      var key := "do_not_respond_" + datasetName;
      var mask := seq(|data.rows|, j requires 0 <= j < |data.rows| =>
        Selected(AdjustedLevel(datasetName, census[j], scale), stream.draw(key, data.rows[j].key)));
      Ok(DropSelected(data, mask))
  }

  /** With the configured level equal to the default (scale 1), a dataset
      other than ACS and CPS keeps its census level. ACS and CPS levels are
      never below 1/2 for a non-negative scale, and CPS at scale 1 is at
      least 0.5 + 0.276/2, because the CPS addition comes after clipping. */
  lemma AdjustedLevelBounds(datasetName: string, census: Option<real>, scale: real)
    requires census.Some? && 0.0 <= census.value <= 1.0
    ensures datasetName != Acs && datasetName != Cps && scale == 1.0 ==>
      AdjustedLevel(datasetName, census, scale) == census
    ensures (datasetName == Acs || datasetName == Cps) && scale >= 0.0 ==>
      AdjustedLevel(datasetName, census, scale).value >= 0.5
    ensures datasetName == Cps && scale == 1.0 ==>
      AdjustedLevel(datasetName, census, scale).value >= 0.5 + CpsNonResponse / 2.0
  {
    if datasetName != Acs && datasetName != Cps && scale == 1.0 {
      assert census.value * scale == census.value;
    }
    if datasetName == Acs || datasetName == Cps {
      var withCps := if datasetName == Cps then census.value + CpsNonResponse else census.value;
      assert withCps >= 0.0;
      if scale >= 0.0 { NonNegativeProduct(withCps, scale); }
    }
  }

  lemma NonNegativeProduct(x: real, y: real)
    requires x >= 0.0 && y >= 0.0
    ensures x * y >= 0.0
  {
  }
}
