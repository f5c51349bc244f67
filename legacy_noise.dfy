/** The earlier noise_form dispatcher: noise types are called with the
    table (or a column) and their own configuration node only, the node
    of each type is looked up before its kind is examined, and a column
    type visits the table's own columns, skipping those its node does not
    mention. */
module LegacyNoise {
  import opened Tables

  /** An entry of this dispatcher's catalog; the name is the key of its
      configuration node. */
  datatype LegacyNoiseType =
    | LegacyRow(name: string, rowFunction: (Frame, Tree) -> Result<Frame>)
    | LegacyColumn(name: string, columnFunction: (Series, Tree) -> Result<Series>)
    | LegacyUnsupported(name: string)

  /** A row function that returns a well-formed table when given one. */
  ghost predicate KeepsWellFormed(f: (Frame, Tree) -> Result<Frame>)
  {
    forall d: Frame, c: Tree {:trigger f(d, c)} :: d.Valid() && f(d, c).Ok? ==> f(d, c).value.Valid()
  }

  ghost predicate CatalogKeepsWellFormed(noiseTypes: seq<LegacyNoiseType>)
  {
    forall i :: 0 <= i < |noiseTypes| && noiseTypes[i].LegacyRow? ==> KeepsWellFormed(noiseTypes[i].rowFunction)
  }

  function InvalidNoiseType(name: string): (e: Error)
    ensures e.TypeError?
  {
    TypeError("Invalid noise type. Allowed types are RowNoiseType and ColumnNoiseType. Provided " + name + ".")
  }

  /** The column loop: for each listed column, skip it when the node has no
      entry for it, otherwise replace it with the function's result on it
      and its entry. */
  function ApplyToColumns(f: (Series, Tree) -> Result<Series>, columns: seq<string>, data: Frame, node: Tree): (r: Result<Frame>)
    requires data.Valid()
    ensures r.Ok? ==> r.value.Valid()
    decreases |columns|
  {
    if columns == [] then Ok(data)
    else
      var c := columns[0];
      if !node.Has(c) then ApplyToColumns(f, columns[1..], data, node)
      else
        var column :- data.GetColumn(c);
        var noised :- f(column, node.kids[c]);
        ApplyToColumns(f, columns[1..], data.WithColumn(c, noised), node)
  }

  /** One entry: configuration[form][noise_type] first (KeyError when
      absent), then the dispatch on its kind. */
  function LegacyStep(form: string, t: LegacyNoiseType, data: Frame, configuration: Tree): (r: Result<Frame>)
    requires data.Valid() && (t.LegacyRow? ==> KeepsWellFormed(t.rowFunction))
    ensures r.Ok? ==> r.value.Valid()
  {
    var formNode :- configuration.Get(form);
    var node :- formNode.Get(t.name);
    match t
    case LegacyRow(_, f) => f(data, node)
    case LegacyColumn(_, f) => ApplyToColumns(f, data.columns, data, node)
    case LegacyUnsupported(name) => Err(InvalidNoiseType(name))
  }

  function LegacyApply(form: string, noiseTypes: seq<LegacyNoiseType>, data: Frame, configuration: Tree): (r: Result<Frame>)
    requires data.Valid() && CatalogKeepsWellFormed(noiseTypes)
    ensures r.Ok? ==> r.value.Valid()
    decreases |noiseTypes|
  {
    if noiseTypes == [] then Ok(data)
    else
      assert CatalogKeepsWellFormed(noiseTypes[1..]) by {
        forall i | 0 <= i < |noiseTypes[1..]| && noiseTypes[1..][i].LegacyRow?
          ensures KeepsWellFormed(noiseTypes[1..][i].rowFunction)
        {
          assert noiseTypes[1..][i] == noiseTypes[i + 1];
        }
      }
      var next :- LegacyStep(form, noiseTypes[0], data, configuration);
      LegacyApply(form, noiseTypes[1..], next, configuration)
  }

  /** The column loop of a column type, over the table's columns as they
      were when the loop began. */
  method NoiseColumns(f: (Series, Tree) -> Result<Series>, formData: Frame, node: Tree) returns (r: Result<Frame>)
    requires formData.Valid()
    ensures r == ApplyToColumns(f, formData.columns, formData, node)
  {
    var columns := formData.columns;
    var data := formData;
    for j := 0 to |columns|
      invariant data.Valid()
      invariant ApplyToColumns(f, columns, formData, node) == ApplyToColumns(f, columns[j..], data, node)
    {
      var column := columns[j];
      assert columns[j..][0] == column && columns[j..][1..] == columns[j + 1..];
      if !node.Has(column) {
        continue;
      }
      var series :- data.GetColumn(column);
      var noised :- f(series, node.kids[column]);
      data := data.WithColumn(column, noised);
    }
    r := Ok(data);
  }

  /** noise_form of the earlier package. */
  method LegacyNoiseForm(form: string, formData: Frame, configuration: Tree, noiseTypes: seq<LegacyNoiseType>)
    returns (r: Result<Frame>)
    requires formData.Valid() && CatalogKeepsWellFormed(noiseTypes)
    ensures r == LegacyApply(form, noiseTypes, formData, configuration)
  {
    var data := formData;
    for t := 0 to |noiseTypes|
      invariant data.Valid()
      invariant LegacyApply(form, noiseTypes, formData, configuration) == LegacyApply(form, noiseTypes[t..], data, configuration)
    {
      var rest := noiseTypes[t..];
      assert rest[0] == noiseTypes[t] && rest[1..] == noiseTypes[t + 1..];
      var formNode :- configuration.Get(form);
      var node :- formNode.Get(noiseTypes[t].name);
      match noiseTypes[t]
      case LegacyRow(_, f) =>
        data :- f(data, node);
      case LegacyColumn(_, f) =>
        data :- NoiseColumns(f, data, node);
      case LegacyUnsupported(name) =>
        return Err(InvalidNoiseType(name));
    }
    r := Ok(data);
  }

  // ---------------------------------------------------------------------
  // Properties

  /** The columns of the list that the node has an entry for. */
  function Configured(columns: seq<string>, node: Tree): (s: set<string>)
    ensures forall d :: d in s <==> d in columns && node.Has(d)
  {
    set d | d in columns && node.Has(d)
  }

  /** A column type leaves the index and the column list as they were, and
      every column its node has no entry for keeps its cells. */
  lemma {:induction false} ApplyToColumnsKeepsOthers(f: (Series, Tree) -> Result<Series>, columns: seq<string>, data: Frame, node: Tree)
    requires data.Valid()
    ensures var r := ApplyToColumns(f, columns, data, node);
      r.Ok? ==> KeptExcept(data, r.value, Configured(columns, node))
    decreases |columns|
  {
    var r := ApplyToColumns(f, columns, data, node);
    if columns == [] {
      assert KeptExcept(data, data, {});
    } else if r.Ok? {
      var c := columns[0];
      assert Configured(columns, node) == (if node.Has(c) then {c} else {}) + Configured(columns[1..], node);
      if !node.Has(c) {
        ApplyToColumnsKeepsOthers(f, columns[1..], data, node);
      } else {
        var column := data.GetColumn(c).value;
        var noised := f(column, node.kids[c]).value;
        var next := data.WithColumn(c, noised);
        KeptExceptWithColumn(data, c, noised);
        ApplyToColumnsKeepsOthers(f, columns[1..], next, node);
        KeptExceptTransitive(data, next, r.value, {c}, Configured(columns[1..], node));
      }
    }
  }

  /** The configuration node is looked up before the kind is examined: an
      unsupported entry whose node is missing raises KeyError, and one whose
      node is present raises TypeError. */
  lemma LookupBeforeTypeCheck(form: string, name: string, data: Frame, configuration: Tree)
    requires data.Valid()
    ensures var r := LegacyStep(form, LegacyUnsupported(name), data, configuration);
      && (!configuration.Has(form) ==> r == Err(KeyError(form)))
      && (configuration.Has(form) && !configuration.kids[form].Has(name) ==> r == Err(KeyError(name)))
      && (configuration.Has(form) && configuration.kids[form].Has(name) ==> r == Err(InvalidNoiseType(name)))
  {
  }

  /** The catalog a + b is a, then b on the table a left. */
  lemma {:induction false} LegacyApplyCompose(form: string, a: seq<LegacyNoiseType>, b: seq<LegacyNoiseType>, data: Frame, configuration: Tree)
    requires data.Valid() && CatalogKeepsWellFormed(a) && CatalogKeepsWellFormed(b)
    ensures && CatalogKeepsWellFormed(a + b)
            && var first := LegacyApply(form, a, data, configuration);
               LegacyApply(form, a + b, data, configuration) ==
               (if first.Err? then Err(first.error) else LegacyApply(form, b, first.value, configuration))
    decreases |a|
  {
    forall i | 0 <= i < |a + b| && (a + b)[i].LegacyRow? ensures KeepsWellFormed((a + b)[i].rowFunction) {
      if i >= |a| { assert (a + b)[i] == b[i - |a|]; }
    }
    if a != [] {
      assert (a + b)[0] == a[0] && (a + b)[1..] == a[1..] + b;
      var next := LegacyStep(form, a[0], data, configuration);
      if next.Ok? {
        LegacyApplyCompose(form, a[1..], b, next.value, configuration);
      }
    } else {
      assert a + b == b;
    }
  }
}
