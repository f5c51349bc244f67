/** noise_form: the catalog-order dispatcher. Every noise type of the
    catalog is visited once, in order; a row noise type replaces the table
    with its result, a column noise type is applied to each configured
    column of the table in turn, and each step sees the table as the steps
    before it left it. */
module Noise {
  import opened Tables
  import opened Randomness
  import opened EntityTypes

  /** An entry of the noise-type catalog. Unsupported stands for an object
      that is neither a row nor a column noise type. */
  datatype NoiseType = RowType(row: RowNoiseType) | ColumnType(column: ColumnNoiseType) | Unsupported(kind: string)

  /** A row noise type whose function returns a well-formed table when it
      is given one. */
  ghost predicate KeepsWellFormed(rt: RowNoiseType)
  {
    forall d: Frame, c: Tree, s: Stream {:trigger rt.Call(d, c, s)} :: d.Valid() && rt.Call(d, c, s).Ok? ==> rt.Call(d, c, s).value.Valid()
  }

  /** Every row noise type of the catalog keeps tables well-formed. */
  ghost predicate CatalogKeepsWellFormed(noiseTypes: seq<NoiseType>)
  {
    forall i :: 0 <= i < |noiseTypes| && noiseTypes[i].RowType? ==> KeepsWellFormed(noiseTypes[i].row)
  }

  /** The keys of a configuration node, in order, that name a column of
      the table and whose node lists the noise type. */
  function SelectedKeys(keys: seq<string>, kids: map<string, Tree>, columns: seq<string>, typeName: string): (cs: seq<string>)
    ensures forall c :: c in cs <==> c in keys && c in columns && c in kids && kids[c].Has(typeName)
    ensures |cs| <= |keys|
    decreases |keys|
  {
    if keys == [] then []
    else
      var c := keys[0];
      (if c in columns && c in kids && kids[c].Has(typeName) then [c] else []) + SelectedKeys(keys[1..], kids, columns, typeName)
  }

  /** columns_to_noise: the configured columns, in configuration order, that
      are in the table and list this noise type. A node that is not a dict
      lists nothing. */
  function ColumnsToNoise(configuration: Tree, columns: seq<string>, typeName: string): (cs: seq<string>)
    ensures forall c :: c in cs <==> configuration.Has(c) && c in configuration.keys && c in columns && configuration.kids[c].Has(typeName)
  {
    if configuration.Leaf? then [] else SelectedKeys(configuration.keys, configuration.kids, columns, typeName)
  }

  /** One column noise type applied to the listed columns in turn: each
      column is noised with its own node of the configuration and written
      back into the table. */
  function ApplyColumnType(t: ColumnNoiseType, columns: seq<string>, data: Frame, configuration: Tree, stream: Stream): (r: Result<Frame>)
    requires data.Valid()
    ensures r.Ok? ==> r.value.Valid()
    decreases |columns|
  {
    if columns == [] then Ok(data)
    else
      var c := columns[0];
      var column :- data.GetColumn(c);
      var node :- configuration.Get(c);
      var typeNode :- node.Get(t.name);
      var noised :- ColumnNoised(t, column, typeNode, stream, c);
      ApplyColumnType(t, columns[1..], data.WithColumn(c, noised), configuration, stream)
  }

  /** The catalog applied in order to a table. */
  function ApplyNoiseTypes(noiseTypes: seq<NoiseType>, data: Frame, configuration: Tree, stream: Stream): (r: Result<Frame>)
    requires data.Valid() && CatalogKeepsWellFormed(noiseTypes)
    ensures r.Ok? ==> r.value.Valid()
    decreases |noiseTypes|
  {
    if noiseTypes == [] then Ok(data)
    else
      assert CatalogKeepsWellFormed(noiseTypes[1..]) by {
        forall i | 0 <= i < |noiseTypes[1..]| && noiseTypes[1..][i].RowType? ensures KeepsWellFormed(noiseTypes[1..][i].row) {
          assert noiseTypes[1..][i] == noiseTypes[i + 1];
        }
      }
      var next :- NoiseStep(noiseTypes[0], data, configuration, stream);
      ApplyNoiseTypes(noiseTypes[1..], next, configuration, stream)
  }

  /** One entry of the catalog: a row type's result replaces the table, a
      column type noises its columns, anything else raises TypeError. */
  function NoiseStep(t: NoiseType, data: Frame, configuration: Tree, stream: Stream): (r: Result<Frame>)
    requires data.Valid() && (t.RowType? ==> KeepsWellFormed(t.row))
    ensures r.Ok? ==> r.value.Valid()
  {
    match t
    case RowType(rt) => rt.Call(data, configuration, stream)
    case ColumnType(ct) => ApplyColumnType(ct, ColumnsToNoise(configuration, data.columns, ct.name), data, configuration, stream)
    case Unsupported(kind) => Err(InvalidNoiseType(kind))
  }

  /** The TypeError raised for an entry of the catalog that is neither kind
      of noise type. */
  function InvalidNoiseType(kind: string): (e: Error)
    ensures e.TypeError?
  {
    TypeError("Invalid noise type. Allowed types are RowNoiseType and ColumnNoiseType. Provided " + kind + ".")
  }

  /** noise_form as a function: the form's node of the configuration
      (KeyError when the form has none), then the catalog in order. */
  function NoiseFormSpec(form: string, formData: Frame, configuration: Tree, noiseTypes: seq<NoiseType>, stream: Stream): (r: Result<Frame>)
    requires formData.Valid() && CatalogKeepsWellFormed(noiseTypes)
  {
    var nc :- configuration.Get(form);
    ApplyNoiseTypes(noiseTypes, formData, nc, stream)
  }

  /** The inner loop of noise_form: form_data[column] = noise_type(...) for
      each column to noise. */
  method NoiseColumns(t: ColumnNoiseType, columns: seq<string>, formData: Frame, configuration: Tree, stream: Stream)
    returns (r: Result<Frame>)
    requires formData.Valid()
    ensures r == ApplyColumnType(t, columns, formData, configuration, stream)
  {
    var data := formData;
    for j := 0 to |columns|
      invariant data.Valid()
      invariant ApplyColumnType(t, columns, formData, configuration, stream) == ApplyColumnType(t, columns[j..], data, configuration, stream)
    {
      var column := columns[j];
      assert columns[j..][0] == column && columns[j..][1..] == columns[j + 1..];
      var series :- data.GetColumn(column);
      var node :- configuration.Get(column);
      var typeNode :- node.Get(t.name);
      var noised :- CallColumnNoise(t, series, typeNode, stream, column);
      data := data.WithColumn(column, noised);
    }
    r := Ok(data);
  }

  /** noise_form: look up the form's node, then walk the catalog. */
  method NoiseForm(form: string, formData: Frame, configuration: Tree, noiseTypes: seq<NoiseType>, stream: Stream)
    returns (r: Result<Frame>)
    requires formData.Valid() && CatalogKeepsWellFormed(noiseTypes)
    ensures r == NoiseFormSpec(form, formData, configuration, noiseTypes, stream)
  {
    var nc :- configuration.Get(form);
    var data := formData;
    for t := 0 to |noiseTypes|
      invariant data.Valid()
      invariant ApplyNoiseTypes(noiseTypes, formData, nc, stream) == ApplyNoiseTypes(noiseTypes[t..], data, nc, stream)
    {
      var rest := noiseTypes[t..];
      assert rest[0] == noiseTypes[t] && rest[1..] == noiseTypes[t + 1..];
      match noiseTypes[t]
      case RowType(rt) =>
        data :- rt.Call(data, nc, stream);
      case ColumnType(ct) =>
        var columns := ColumnsToNoise(nc, data.columns, ct.name);
        data :- NoiseColumns(ct, columns, data, nc, stream);
      case Unsupported(kind) =>
        return Err(InvalidNoiseType(kind));
    }
    r := Ok(data);
  }

  // ---------------------------------------------------------------------
  // Properties of the dispatcher

  /** The catalog a + b is a, then b on the table a left: each noise type
      sees the table as the ones before it made it. */
  lemma {:induction false} ApplyNoiseTypesCompose(a: seq<NoiseType>, b: seq<NoiseType>, data: Frame, configuration: Tree, stream: Stream)
    requires data.Valid() && CatalogKeepsWellFormed(a) && CatalogKeepsWellFormed(b)
    ensures && CatalogKeepsWellFormed(a + b)
            && var first := ApplyNoiseTypes(a, data, configuration, stream);
               ApplyNoiseTypes(a + b, data, configuration, stream) ==
               (if first.Err? then Err(first.error) else ApplyNoiseTypes(b, first.value, configuration, stream))
    decreases |a|
  {
    forall i | 0 <= i < |a + b| && (a + b)[i].RowType? ensures KeepsWellFormed((a + b)[i].row) {
      if i >= |a| { assert (a + b)[i] == b[i - |a|]; }
    }
    if a != [] {
      assert (a + b)[0] == a[0] && (a + b)[1..] == a[1..] + b;
      var next := NoiseStep(a[0], data, configuration, stream);
      if next.Ok? {
        ApplyNoiseTypesCompose(a[1..], b, next.value, configuration, stream);
      }
    } else {
      assert a + b == b;
    }
  }

  /** A column noise type changes only the columns it is applied to: the
      labels, the column list and every other cell stay as they were. */
  lemma {:induction false} ApplyColumnTypeKeepsOthers(t: ColumnNoiseType, columns: seq<string>, data: Frame, configuration: Tree, stream: Stream)
    requires data.Valid()
    ensures var r := ApplyColumnType(t, columns, data, configuration, stream);
      r.Ok? ==> KeptExcept(data, r.value, set d | d in columns)
    decreases |columns|
  {
    var r := ApplyColumnType(t, columns, data, configuration, stream);
    if columns == [] {
      assert KeptExcept(data, data, {});
    } else if r.Ok? {
      var c := columns[0];
      assert (set d | d in columns) == {c} + (set d | d in columns[1..]);
      var column := data.GetColumn(c).value;
      var typeNode := configuration.Get(c).value.Get(t.name).value;
      var noised := ColumnNoised(t, column, typeNode, stream, c).value;
      var next := data.WithColumn(c, noised);
      KeptExceptWithColumn(data, c, noised);
      ApplyColumnTypeKeepsOthers(t, columns[1..], next, configuration, stream);
      KeptExceptTransitive(data, next, r.value, {c}, set d | d in columns[1..]);
    }
  }

  /** One column noise type of the catalog touches only the columns of the
      table whose configuration node lists it. */
  lemma ColumnStepKeepsUnconfigured(ct: ColumnNoiseType, data: Frame, configuration: Tree, stream: Stream)
    requires data.Valid()
    ensures var r := NoiseStep(ColumnType(ct), data, configuration, stream);
      r.Ok? ==> KeptExcept(data, r.value,
        set d | d in data.columns && configuration.Has(d) && d in configuration.keys && configuration.kids[d].Has(ct.name))
  {
    var columns := ColumnsToNoise(configuration, data.columns, ct.name);
    ApplyColumnTypeKeepsOthers(ct, columns, data, configuration, stream);
    assert (set d | d in columns) ==
      set d | d in data.columns && configuration.Has(d) && d in configuration.keys && configuration.kids[d].Has(ct.name);
  }

  /** A catalog holding anything that is neither a row nor a column noise
      type never completes. */
  lemma {:induction false} UnsupportedNoiseTypeFails(noiseTypes: seq<NoiseType>, data: Frame, configuration: Tree, stream: Stream, k: nat)
    requires data.Valid() && CatalogKeepsWellFormed(noiseTypes)
    requires k < |noiseTypes| && noiseTypes[k].Unsupported?
    ensures ApplyNoiseTypes(noiseTypes, data, configuration, stream).Err?
    decreases k
  {
    var next := NoiseStep(noiseTypes[0], data, configuration, stream);
    if k > 0 && next.Ok? {
      assert noiseTypes[1..][k - 1] == noiseTypes[k];
      assert CatalogKeepsWellFormed(noiseTypes[1..]) by {
        forall i | 0 <= i < |noiseTypes[1..]| && noiseTypes[1..][i].RowType? ensures KeepsWellFormed(noiseTypes[1..][i].row) {
          assert noiseTypes[1..][i] == noiseTypes[i + 1];
        }
      }
      UnsupportedNoiseTypeFails(noiseTypes[1..], next.value, configuration, stream, k - 1);
    }
  }

  /** When the catalog's first anomaly is an unsupported entry, the
      error is the TypeError for it. */
  lemma UnsupportedFirstRaisesTypeError(kind: string, rest: seq<NoiseType>, data: Frame, configuration: Tree, stream: Stream)
    requires data.Valid() && CatalogKeepsWellFormed([Unsupported(kind)] + rest)
    ensures ApplyNoiseTypes([Unsupported(kind)] + rest, data, configuration, stream) == Err(InvalidNoiseType(kind))
  {
  }

  /** A row noise type hands the current table to its function and the
      function's result is the table from then on. */
  lemma RowStepReplacesTable(rt: RowNoiseType, rest: seq<NoiseType>, data: Frame, configuration: Tree, stream: Stream)
    requires data.Valid() && KeepsWellFormed(rt) && CatalogKeepsWellFormed(rest)
    ensures && CatalogKeepsWellFormed([RowType(rt)] + rest)
            && var r := rt.Call(data, configuration, stream);
               && (r.Ok? ==> r.value.Valid())
               && ApplyNoiseTypes([RowType(rt)] + rest, data, configuration, stream) ==
                  (if r.Err? then Err(r.error) else ApplyNoiseTypes(rest, r.value, configuration, stream))
  {
    var all := [RowType(rt)] + rest;
    assert all[0] == RowType(rt) && all[1..] == rest;
    forall i | 0 <= i < |all| && all[i].RowType? ensures KeepsWellFormed(all[i].row) {
      if i > 0 { assert all[i] == rest[i - 1]; }
    }
  }
}
