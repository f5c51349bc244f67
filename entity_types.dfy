/** The two kinds of noise type: a row noise type applies its function to
    the whole table; a column noise type is the common wrapper that picks
    the cells of one column to noise and hands only those to its function. */
module EntityTypes {
  import opened Tables
  import opened Randomness
  import opened Utilities

  /** The configuration attribute that holds a column noise level. */
  const RowNoiseLevel: string := "row_noise_level"

  /** The dataclass defaults of the two noise types. */
  const DefaultRowProbability: real := 0.0
  const DefaultRowNoiseLevel: real := 0.01
  const DefaultTokenNoiseLevel: real := 0.1

  /** A noise type applied to a whole table: it hands the table, its
      configuration node and the randomness stream to its function. */
  datatype RowNoiseType = RowNoiseType(
    name: string,
    noiseFunction: (Frame, Tree, Stream) -> Result<Frame>,
    probability: real)
  {
    /** RowNoiseType.__call__: the function's result, as it is. */
    function Call(formData: Frame, configuration: Tree, stream: Stream): (r: Result<Frame>)
      ensures r == noiseFunction(formData, configuration, stream)
    {
      noiseFunction(formData, configuration, stream)
    }
  }

  /** A row noise type's name and probability are not passed to its
      function: two types sharing the function give the same result. */
  lemma RowNoiseCallIgnoresMetadata(t: RowNoiseType, u: RowNoiseType, formData: Frame, configuration: Tree, stream: Stream)
    requires t.noiseFunction == u.noiseFunction
    ensures t.Call(formData, configuration, stream) == u.Call(formData, configuration, stream)
  {
  }

  /** A noise type applied to one column at a time. The scaling function
      maps a column name to a factor on the configured noise level. */
  datatype ColumnNoiseType = ColumnNoiseType(
    name: string,
    noiseFunction: (Series, Tree, Stream, string) -> Result<Series>,
    rowNoiseLevel: real,
    tokenNoiseLevel: real,
    scaling: string -> real,
    additionalParameters: Option<Tree>)

  /** A column noise type built with only a name and a function: every
      other field takes its dataclass default, the scaling being 1.0. */
  function DefaultColumnNoiseType(name: string, noiseFunction: (Series, Tree, Stream, string) -> Result<Series>): ColumnNoiseType
  {
    ColumnNoiseType(name, noiseFunction, DefaultRowNoiseLevel, DefaultTokenNoiseLevel, _ => 1.0, None)
  }

  /** The column the wrapper works on: a categorical column is converted
      with astype(str), any other column is copied as it is. */
  function Prepared(column: Series): (s: Series)
    ensures s.name == column.name && s.index == column.index && |s.values| == |column.values|
    ensures column.Valid() ==> s.Valid()
    ensures !s.categorical
    ensures forall i :: 0 <= i < |s.values| ==>
      s.values[i] == if column.categorical then Str(AsStr(column.values[i])) else column.values[i]
  {
    if column.categorical then column.AsStrings() else column
  }

  /** The additional key of the selection draws: the noise type's name and
      the caller's key joined by an underscore. */
  function SelectionKey(name: string, additionalKey: string): string
  {
    name + "_" + additionalKey
  }

  /** The effective noise level: the configured row_noise_level (KeyError
      when the node lacks it) times the scaling of the column's name. */
  function NoiseLevel(t: ColumnNoiseType, configuration: Tree, columnName: string): (r: Result<real>)
    ensures r.Ok? <==> GetReal(configuration, RowNoiseLevel).Ok?
    ensures r.Err? ==> r.error == GetReal(configuration, RowNoiseLevel).error
  {
    var level :- GetReal(configuration, RowNoiseLevel);
    Ok(level * t.scaling(columnName))
  }

  /** get_index_to_noise with the wrapper's level and key. */
  function ToNoise(t: ColumnNoiseType, column: Series, level: real, stream: Stream, additionalKey: string): (idx: seq<Label>)
    requires column.Valid()
    ensures Increasing(idx) && forall l :: l in idx ==> l in column.index
  {
    var key := SelectionKey(t.name, additionalKey);
    GetIndexToNoise(column, _ => level, l => stream.draw(key, l))
  }

  /** column.loc[idx] = noised: each cell whose label is in idx takes the
      value noised aligns to that label; every other cell is kept. */
  function Overwritten(column: Series, idx: seq<Label>, noised: Series): (s: Series)
    ensures s.name == column.name && s.index == column.index && s.categorical == column.categorical
    ensures |s.values| == |column.values|
    ensures forall j :: 0 <= j < |column.values| ==>
      s.values[j] == if j < |column.index| && column.index[j] in idx then noised.Aligned(column.index[j]) else column.values[j]
  {
    var vs := seq(|column.values|, j requires 0 <= j < |column.values| =>
      if j < |column.index| && column.index[j] in idx then noised.Aligned(column.index[j]) else column.values[j]);
    Series(column.name, column.index, vs, column.categorical)
  }

  /** ColumnNoiseType.__call__ as a function of its inputs. */
  function ColumnNoised(t: ColumnNoiseType, column: Series, configuration: Tree, stream: Stream, additionalKey: string): (r: Result<Series>)
    requires column.Valid()
  {
    var c := Prepared(column);
    var level :- NoiseLevel(t, configuration, c.name);
    var idx := ToNoise(t, c, level, stream, additionalKey);
    if idx == [] then Ok(c)
    else
      var noised :- t.noiseFunction(c.Restrict(idx), configuration, stream, additionalKey);
      Ok(Overwritten(c, idx, noised))
  }

  /** ColumnNoiseType.__call__: work on a copy of the column (its string
      form when categorical), select the cells to noise, and overwrite only
      those with what the noise function returns for them. */
  method CallColumnNoise(t: ColumnNoiseType, column: Series, configuration: Tree, stream: Stream, additionalKey: string)
    returns (r: Result<Series>)
    requires column.Valid()
    ensures r == ColumnNoised(t, column, configuration, stream, additionalKey)
  {
    var c := Prepared(column);
    var n := |c.values|;
    var copy := new Cell[n](j requires 0 <= j < n => c.values[j]);
    assert copy[..] == c.values;
    var level :- NoiseLevel(t, configuration, c.name);
    var idx := ToNoise(t, c, level, stream, additionalKey);
    if idx == [] {
      // no cell chosen: the column comes back untouched
      return Ok(Series(c.name, c.index, copy[..], c.categorical));
    }
    var noised :- t.noiseFunction(c.Restrict(idx), configuration, stream, additionalKey);
    forall j | 0 <= j < n && c.index[j] in idx {
      copy[j] := noised.Aligned(c.index[j]);
    }
    assert copy[..] == Overwritten(c, idx, noised).values;
    r := Ok(Series(c.name, c.index, copy[..], c.categorical));
  }

  // ---------------------------------------------------------------------
  // Properties of the wrapper

  /** Cell j is passed over by the selection: it is missing, or its draw
      is not below the effective level. */
  predicate Unselected(t: ColumnNoiseType, column: Series, configuration: Tree, stream: Stream, additionalKey: string, j: nat)
    requires column.Valid() && j < |column.values| && NoiseLevel(t, configuration, column.name).Ok?
  {
    || IsMissing(Prepared(column).values[j])
    || stream.draw(SelectionKey(t.name, additionalKey), column.index[j]) >= NoiseLevel(t, configuration, column.name).value
  }

  /** The wrapper keeps the column's name and index, and a cell that is
      missing, or whose draw is not below the effective level, comes back
      as it went in (in its string form when the column was categorical). */
  lemma ColumnNoiseKeepsUnselected(t: ColumnNoiseType, column: Series, configuration: Tree, stream: Stream, additionalKey: string)
    requires column.Valid()
    ensures var r := ColumnNoised(t, column, configuration, stream, additionalKey);
      r.Ok? ==>
        && NoiseLevel(t, configuration, column.name).Ok?
        && r.value.name == column.name && r.value.index == column.index
        && |r.value.values| == |column.values| && !r.value.categorical
        && forall j :: 0 <= j < |column.values| && Unselected(t, column, configuration, stream, additionalKey, j) ==>
             r.value.values[j] == Prepared(column).values[j]
  {
    var c := Prepared(column);
    var r := ColumnNoised(t, column, configuration, stream, additionalKey);
    if r.Ok? {
      var level := NoiseLevel(t, configuration, c.name).value;
      var key := SelectionKey(t.name, additionalKey);
      var idx := ToNoise(t, c, level, stream, additionalKey);
      assert idx == GetIndexToNoise(c, _ => level, l => stream.draw(key, l));
      forall j | 0 <= j < |column.values| && Unselected(t, column, configuration, stream, additionalKey, j)
        ensures r.value.values[j] == c.values[j]
      {
        assert c.index[j] !in idx;
      }
    }
  }

  /** A cell that is not missing and whose draw is below the level is the
      noise function's value for its label. */
  lemma ColumnNoiseOverwritesSelected(t: ColumnNoiseType, column: Series, configuration: Tree, stream: Stream, additionalKey: string, j: nat)
    requires column.Valid() && j < |column.values|
    requires NoiseLevel(t, configuration, column.name).Ok?
    requires !IsMissing(Prepared(column).values[j])
    requires stream.draw(SelectionKey(t.name, additionalKey), column.index[j]) < NoiseLevel(t, configuration, column.name).value
    ensures var c := Prepared(column);
      var idx := ToNoise(t, c, NoiseLevel(t, configuration, c.name).value, stream, additionalKey);
      var r := ColumnNoised(t, column, configuration, stream, additionalKey);
      && idx != []
      && (r.Ok? <==> t.noiseFunction(c.Restrict(idx), configuration, stream, additionalKey).Ok?)
      && (r.Ok? ==> r.value.values[j] == t.noiseFunction(c.Restrict(idx), configuration, stream, additionalKey).value.Aligned(column.index[j]))
  {
    var c := Prepared(column);
    var level := NoiseLevel(t, configuration, c.name).value;
    var key := SelectionKey(t.name, additionalKey);
    var idx := ToNoise(t, c, level, stream, additionalKey);
    assert idx == GetIndexToNoise(c, _ => level, l => stream.draw(key, l));
    assert c.index[j] in idx;
  }

  /** With a non-positive effective level nothing is selected: the column
      comes back as it went in (in its string form when categorical), and
      the noise function has no say in the result. */
  lemma ColumnNoiseZeroLevel(t: ColumnNoiseType, column: Series, configuration: Tree, stream: Stream, additionalKey: string)
    requires column.Valid() && stream.Valid()
    requires NoiseLevel(t, configuration, column.name).Ok? && NoiseLevel(t, configuration, column.name).value <= 0.0
    ensures ColumnNoised(t, column, configuration, stream, additionalKey) == Ok(Prepared(column))
  {
    var c := Prepared(column);
    var level := NoiseLevel(t, configuration, c.name).value;
    var key := SelectionKey(t.name, additionalKey);
    IndexToNoiseNone(c, _ => level, l => stream.draw(key, l));
  }

  /** A column noise type built with the defaults uses the configured
      row_noise_level unscaled. */
  lemma DefaultScalingKeepsLevel(name: string, f: (Series, Tree, Stream, string) -> Result<Series>, configuration: Tree, columnName: string)
    requires GetReal(configuration, RowNoiseLevel).Ok?
    ensures NoiseLevel(DefaultColumnNoiseType(name, f), configuration, columnName) == GetReal(configuration, RowNoiseLevel)
  {
  }

  /** For one noise type the selection keys of two columns differ, and so
      do the keys of two noise types on one column. */
  lemma SelectionKeyInjective(name: string, name2: string, key: string, key2: string)
    ensures SelectionKey(name, key) == SelectionKey(name, key2) ==> key == key2
    ensures SelectionKey(name, key) == SelectionKey(name2, key) ==> name == name2
  {
    if SelectionKey(name, key) == SelectionKey(name, key2) {
      assert key == SelectionKey(name, key)[|name| + 1..];
      assert key2 == SelectionKey(name, key2)[|name| + 1..];
    }
    if SelectionKey(name, key) == SelectionKey(name2, key) {
      var s := SelectionKey(name, key);
      assert |name| == |name2|;
      assert name == s[..|name|];
      assert name2 == s[..|name2|];
    }
  }

  /** The pair of name and key is not recovered from the joined key: a
      noise type "a_b" on column "c" draws under the same key as a noise
      type "a" on column "b_c". */
  lemma SelectionKeyAmbiguous()
    ensures SelectionKey("a_b", "c") == SelectionKey("a", "b_c")
  {
  }
}
