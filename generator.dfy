/** The noising configuration: the baseline built from the noise-type
    descriptors of every dataset, the default overrides, the user's
    overrides, and the formatting of the user's age perturbations. */
module Generator {
  import opened Tables

  const RowNoiseKey: string := "row_noise"
  const ColumnNoiseKey: string := "column_noise"
  const RowProbability: string := "row_probability"
  const CellProbability: string := "cell_probability"
  const NoNoiseName: string := "no_noise"
  const AgeColumn: string := "age"
  const MisreportAge: string := "misreport_age"
  const PossibleAgeDifferences: string := "possible_age_differences"

  // ---------------------------------------------------------------------
  // Nested dicts

  /** An empty dict (falsy in Python). */
  predicate EmptyDict(t: Tree)
  {
    t.Node? && t.kids == map[]
  }

  /** d[k] = v for each item in turn. */
  function PutAll(base: Tree, items: seq<(string, Tree)>): (r: Tree)
    requires base.Node? && base.Ordered()
    ensures r.Node? && r.Ordered()
    decreases |items|
  {
    if items == [] then base
    else
      var last := items[|items| - 1];
      Put(PutAll(base, items[..|items| - 1]), last.0, last.1)
  }

  /** The items whose value is not an empty dict, in order. */
  function NonEmptyEntries(items: seq<(string, Tree)>): (r: seq<(string, Tree)>)
    ensures forall e :: e in r <==> e in items && !EmptyDict(e.1)
    decreases |items|
  {
    if items == [] then []
    else
      var last := items[|items| - 1];
      var rest := NonEmptyEntries(items[..|items| - 1]);
      assert forall e :: e in items <==> e in items[..|items| - 1] || e == last by {
        assert items == items[..|items| - 1] + [last];
      }
      if EmptyDict(last.1) then rest else rest + [last]
  }

  /** A dict built by `if entry: d[name] = entry` for each entry in turn. */
  function FoldPut(items: seq<(string, Tree)>): (r: Tree)
    ensures r.Node? && r.Ordered()
  {
    PutAll(EmptyTree, NonEmptyEntries(items))
  }

  /** t[p0][p1]...: None as soon as a key is missing. */
  function Lookup(t: Tree, path: seq<string>): (r: Option<Tree>)
    ensures path == [] ==> r == Some(t)
    decreases |path|
  {
    if path == [] then Some(t)
    else if t.Has(path[0]) then Lookup(t.kids[path[0]], path[1..])
    else None
  }

  /** No dict of the first n levels below t holds an empty dict. */
  predicate Pruned(t: Tree, n: nat)
    decreases n
  {
    n == 0 || (t.Node? ==> forall k :: k in t.kids ==> !EmptyDict(t.kids[k]) && Pruned(t.kids[k], n - 1))
  }

  /** After the puts, a key the items give one value holds that value. */
  lemma {:induction false} PutAllFind(base: Tree, items: seq<(string, Tree)>, k: string, v: Tree)
    requires base.Node? && base.Ordered()
    requires (k, v) in items
    requires forall e :: e in items && e.0 == k ==> e.1 == v
    ensures k in PutAll(base, items).kids && PutAll(base, items).kids[k] == v
    decreases |items|
  {
    var last := items[|items| - 1];
    var prefix := items[..|items| - 1];
    assert items == prefix + [last];
    if last.0 != k {
      PutAllFind(base, prefix, k, v);
    }
  }

  /** After the puts, every key holds the value of one of the items or
      the value it had before. */
  lemma {:induction false} PutAllOrigin(base: Tree, items: seq<(string, Tree)>, k: string)
    requires base.Node? && base.Ordered()
    requires k in PutAll(base, items).kids
    ensures (exists e :: e in items && e.0 == k && PutAll(base, items).kids[k] == e.1)
      || (k in base.kids && PutAll(base, items).kids[k] == base.kids[k])
    decreases |items|
  {
    if items != [] {
      var last := items[|items| - 1];
      var prefix := items[..|items| - 1];
      assert items == prefix + [last];
      if last.0 != k {
        PutAllOrigin(base, prefix, k);
      } else {
        assert last in items;
      }
    }
  }

  /** Names that identify their entry. */
  predicate DistinctNames(items: seq<(string, Tree)>)
  {
    forall a, b :: 0 <= a < |items| && 0 <= b < |items| && items[a].0 == items[b].0 ==> a == b
  }

  /** In a dict built from entries with distinct names, a name is a key
      exactly when its entry is not empty, and then holds its entry. */
  lemma FoldPutFind(items: seq<(string, Tree)>, i: nat)
    requires DistinctNames(items) && i < |items|
    ensures FoldPut(items).Has(items[i].0) <==> !EmptyDict(items[i].1)
    ensures !EmptyDict(items[i].1) ==> FoldPut(items).kids[items[i].0] == items[i].1
  {
    var kept := NonEmptyEntries(items);
    var k := items[i].0;
    assert forall e :: e in kept && e.0 == k ==> e == items[i];
    if !EmptyDict(items[i].1) {
      PutAllFind(EmptyTree, kept, k, items[i].1);
    } else if k in FoldPut(items).kids {
      PutAllOrigin(EmptyTree, kept, k);
    }
  }

  /** A dict built from entries that are pruned to depth n is pruned to
      depth n + 1. */
  lemma FoldPutPruned(items: seq<(string, Tree)>, n: nat)
    requires forall e :: e in items ==> Pruned(e.1, n)
    ensures Pruned(FoldPut(items), n + 1)
  {
    var kept := NonEmptyEntries(items);
    var r := FoldPut(items);
    forall k | k in r.kids
      ensures !EmptyDict(r.kids[k]) && Pruned(r.kids[k], n)
    {
      PutAllOrigin(EmptyTree, kept, k);
    }
  }

  // ---------------------------------------------------------------------
  // Descriptors and the baseline

  datatype ConfigType = Default | NoNoise

  /** A row noise type's declared default row probability, if any. */
  datatype RowNoiseDescriptor = RowNoiseDescriptor(name: string, rowProbability: Option<real>)

  /** A column noise type's declared default cell probability, if any, and
      its extra parameters as a dict's items, if any. */
  datatype ColumnNoiseDescriptor = ColumnNoiseDescriptor(
    name: string, cellProbability: Option<real>, additionalParameters: Option<seq<(string, Tree)>>)

  datatype ColumnDescriptor = ColumnDescriptor(name: string, noiseTypes: seq<ColumnNoiseDescriptor>)

  datatype DatasetDescriptor = DatasetDescriptor(
    name: string, rowNoiseTypes: seq<RowNoiseDescriptor>, columns: seq<ColumnDescriptor>)

  /** The probability written into the baseline: 0.0 under no_noise. */
  function BaselineLevel(configType: ConfigType, declared: real): (p: real)
    ensures configType == NoNoise ==> p == 0.0
    ensures configType == Default ==> p == declared
  {
    if configType == NoNoise then 0.0 else declared
  }

  function RowNoiseNode(configType: ConfigType, rn: RowNoiseDescriptor): Tree
  {
    match rn.rowProbability
    case None => EmptyTree
    case Some(p) => Put(EmptyTree, RowProbability, Leaf(RealV(BaselineLevel(configType, p))))
  }

  function RowEntries(configType: ConfigType, rns: seq<RowNoiseDescriptor>): seq<(string, Tree)>
  {
    seq(|rns|, i requires 0 <= i < |rns| => (rns[i].name, RowNoiseNode(configType, rns[i])))
  }

  function RowNoiseDict(configType: ConfigType, rns: seq<RowNoiseDescriptor>): Tree
  {
    FoldPut(RowEntries(configType, rns))
  }

  function ParametersOf(nt: ColumnNoiseDescriptor): seq<(string, Tree)>
  {
    if nt.additionalParameters.Some? then nt.additionalParameters.value else []
  }

  function CellNode(configType: ConfigType, nt: ColumnNoiseDescriptor): (t: Tree)
    ensures t.Node? && t.Ordered()
  {
    match nt.cellProbability
    case None => EmptyTree
    case Some(p) => Put(EmptyTree, CellProbability, Leaf(RealV(BaselineLevel(configType, p))))
  }

  function ColumnNoiseTypeNode(configType: ConfigType, nt: ColumnNoiseDescriptor): Tree
  {
    PutAll(CellNode(configType, nt), ParametersOf(nt))
  }

  function ColumnNoiseEntries(configType: ConfigType, nts: seq<ColumnNoiseDescriptor>): seq<(string, Tree)>
  {
    seq(|nts|, i requires 0 <= i < |nts| => (nts[i].name, ColumnNoiseTypeNode(configType, nts[i])))
  }

  function ColumnNoiseDict(configType: ConfigType, nts: seq<ColumnNoiseDescriptor>): Tree
  {
    FoldPut(ColumnNoiseEntries(configType, nts))
  }

  function ColumnEntries(configType: ConfigType, columns: seq<ColumnDescriptor>): seq<(string, Tree)>
  {
    seq(|columns|, i requires 0 <= i < |columns| => (columns[i].name, ColumnNoiseDict(configType, columns[i].noiseTypes)))
  }

  function ColumnDict(configType: ConfigType, columns: seq<ColumnDescriptor>): Tree
  {
    FoldPut(ColumnEntries(configType, columns))
  }

  function DatasetEntries(configType: ConfigType, ds: DatasetDescriptor): seq<(string, Tree)>
  {
    [(RowNoiseKey, RowNoiseDict(configType, ds.rowNoiseTypes)), (ColumnNoiseKey, ColumnDict(configType, ds.columns))]
  }

  function DatasetDict(configType: ConfigType, ds: DatasetDescriptor): Tree
  {
    FoldPut(DatasetEntries(configType, ds))
  }

  function BaselineEntries(configType: ConfigType, datasets: seq<DatasetDescriptor>): seq<(string, Tree)>
  {
    seq(|datasets|, i requires 0 <= i < |datasets| => (datasets[i].name, DatasetDict(configType, datasets[i])))
  }

  /** The baseline layer built from the descriptors. */
  function Baseline(configType: ConfigType, datasets: seq<DatasetDescriptor>): Tree
  {
    FoldPut(BaselineEntries(configType, datasets))
  }

  /** One more entry extends the dict built so far. */
  lemma FoldPutStep(items: seq<(string, Tree)>, j: nat)
    requires j < |items|
    ensures FoldPut(items[..j + 1]) ==
      if EmptyDict(items[j].1) then FoldPut(items[..j]) else Put(FoldPut(items[..j]), items[j].0, items[j].1)
  {
    assert items[..j + 1][..j] == items[..j];
    var kept := NonEmptyEntries(items[..j]);
    if !EmptyDict(items[j].1) {
      assert (kept + [items[j]])[..|kept|] == kept;
    }
  }

  /** Keys no item names keep their value. */
  lemma {:induction false} PutAllUntouched(base: Tree, items: seq<(string, Tree)>, k: string)
    requires base.Node? && base.Ordered()
    requires forall e :: e in items ==> e.0 != k
    ensures k in PutAll(base, items).kids <==> k in base.kids
    ensures k in base.kids ==> PutAll(base, items).kids[k] == base.kids[k]
    decreases |items|
  {
    if items != [] {
      var prefix := items[..|items| - 1];
      assert items == prefix + [items[|items| - 1]];
      PutAllUntouched(base, prefix, k);
    }
  }

  // ---------------------------------------------------------------------
  // _generate_configuration's loops

  method BuildRowNoiseDict(configType: ConfigType, rns: seq<RowNoiseDescriptor>) returns (d: Tree)
    ensures d == RowNoiseDict(configType, rns)
  {
    ghost var entries := RowEntries(configType, rns);
    d := EmptyTree;
    for j := 0 to |rns|
      invariant d == FoldPut(entries[..j])
    {
      var rowNoise := rns[j];
      var node := EmptyTree;
      if rowNoise.rowProbability.Some? {
        var level := if configType == NoNoise then 0.0 else rowNoise.rowProbability.value;
        node := Put(node, RowProbability, Leaf(RealV(level)));
      }
      FoldPutStep(entries, j);
      if !EmptyDict(node) {
        d := Put(d, rowNoise.name, node);
      }
    }
    assert entries[..|rns|] == entries;
  }

  method BuildColumnNoiseTypeDict(configType: ConfigType, nt: ColumnNoiseDescriptor) returns (d: Tree)
    ensures d == ColumnNoiseTypeNode(configType, nt)
  {
    d := EmptyTree;
    if nt.cellProbability.Some? {
      var level := if configType == NoNoise then 0.0 else nt.cellProbability.value;
      d := Put(d, CellProbability, Leaf(RealV(level)));
    }
    if nt.additionalParameters.Some? {
      var items := nt.additionalParameters.value;
      for j := 0 to |items|
        invariant d == PutAll(CellNode(configType, nt), items[..j])
      {
        assert items[..j + 1][..j] == items[..j];
        d := Put(d, items[j].0, items[j].1);
      }
      assert items[..|items|] == items;
    }
  }

  method BuildColumnNoiseDict(configType: ConfigType, nts: seq<ColumnNoiseDescriptor>) returns (d: Tree)
    ensures d == ColumnNoiseDict(configType, nts)
  {
    ghost var entries := ColumnNoiseEntries(configType, nts);
    d := EmptyTree;
    for j := 0 to |nts|
      invariant d == FoldPut(entries[..j])
    {
      var node := BuildColumnNoiseTypeDict(configType, nts[j]);
      FoldPutStep(entries, j);
      if !EmptyDict(node) {
        d := Put(d, nts[j].name, node);
      }
    }
    assert entries[..|nts|] == entries;
  }

  method BuildColumnDict(configType: ConfigType, columns: seq<ColumnDescriptor>) returns (d: Tree)
    ensures d == ColumnDict(configType, columns)
  {
    ghost var entries := ColumnEntries(configType, columns);
    d := EmptyTree;
    for j := 0 to |columns|
      invariant d == FoldPut(entries[..j])
    {
      var node := BuildColumnNoiseDict(configType, columns[j].noiseTypes);
      FoldPutStep(entries, j);
      if !EmptyDict(node) {
        d := Put(d, columns[j].name, node);
      }
    }
    assert entries[..|columns|] == entries;
  }

  method BuildDatasetDict(configType: ConfigType, ds: DatasetDescriptor) returns (d: Tree)
    ensures d == DatasetDict(configType, ds)
  {
    var rowNoise := BuildRowNoiseDict(configType, ds.rowNoiseTypes);
    var columns := BuildColumnDict(configType, ds.columns);
    d := EmptyTree;
    if !EmptyDict(rowNoise) {
      d := Put(d, RowNoiseKey, rowNoise);
    }
    if !EmptyDict(columns) {
      d := Put(d, ColumnNoiseKey, columns);
    }
    ghost var entries := DatasetEntries(configType, ds);
    assert entries[0] == (RowNoiseKey, rowNoise) && entries[1] == (ColumnNoiseKey, columns);
    FoldPutPair(entries);
  }

  /** Two entries folded: each non-empty one is put in turn. */
  lemma FoldPutPair(items: seq<(string, Tree)>)
    requires |items| == 2
    ensures var first := if EmptyDict(items[0].1) then EmptyTree else Put(EmptyTree, items[0].0, items[0].1);
      FoldPut(items) == if EmptyDict(items[1].1) then first else Put(first, items[1].0, items[1].1)
  {
    assert items[..0] == [];
    FoldPutStep(items, 0);
    FoldPutStep(items, 1);
    assert items[..2] == items;
  }

  /** The baseline dict of _generate_configuration. */
  method GenerateBaseline(configType: ConfigType, datasets: seq<DatasetDescriptor>) returns (baseline: Tree)
    ensures baseline == Baseline(configType, datasets)
  {
    ghost var entries := BaselineEntries(configType, datasets);
    baseline := EmptyTree;
    for j := 0 to |datasets|
      invariant baseline == FoldPut(entries[..j])
    {
      var node := BuildDatasetDict(configType, datasets[j]);
      FoldPutStep(entries, j);
      if !EmptyDict(node) {
        baseline := Put(baseline, datasets[j].name, node);
      }
    }
    assert entries[..|datasets|] == entries;
  }

  // ---------------------------------------------------------------------
  // What the baseline holds

  predicate DistinctDatasets(datasets: seq<DatasetDescriptor>)
  {
    forall a, b :: 0 <= a < |datasets| && 0 <= b < |datasets| && datasets[a].name == datasets[b].name ==> a == b
  }

  predicate DistinctRowTypes(rns: seq<RowNoiseDescriptor>)
  {
    forall a, b :: 0 <= a < |rns| && 0 <= b < |rns| && rns[a].name == rns[b].name ==> a == b
  }

  predicate DistinctColumns(columns: seq<ColumnDescriptor>)
  {
    forall a, b :: 0 <= a < |columns| && 0 <= b < |columns| && columns[a].name == columns[b].name ==> a == b
  }

  predicate DistinctColumnTypes(nts: seq<ColumnNoiseDescriptor>)
  {
    forall a, b :: 0 <= a < |nts| && 0 <= b < |nts| && nts[a].name == nts[b].name ==> a == b
  }

  lemma RowEntriesDistinct(configType: ConfigType, rns: seq<RowNoiseDescriptor>)
    requires DistinctRowTypes(rns)
    ensures DistinctNames(RowEntries(configType, rns))
  {
  }

  lemma ColumnNoiseEntriesDistinct(configType: ConfigType, nts: seq<ColumnNoiseDescriptor>)
    requires DistinctColumnTypes(nts)
    ensures DistinctNames(ColumnNoiseEntries(configType, nts))
  {
  }

  lemma ColumnEntriesDistinct(configType: ConfigType, columns: seq<ColumnDescriptor>)
    requires DistinctColumns(columns)
    ensures DistinctNames(ColumnEntries(configType, columns))
  {
  }

  lemma BaselineEntriesDistinct(configType: ConfigType, datasets: seq<DatasetDescriptor>)
    requires DistinctDatasets(datasets)
    ensures DistinctNames(BaselineEntries(configType, datasets))
  {
  }

  /** Looking up a path one key at a time. */
  lemma LookupStep(t: Tree, k: string, rest: seq<string>)
    requires t.Has(k)
    ensures Lookup(t, [k] + rest) == Lookup(t.kids[k], rest)
  {
    assert ([k] + rest)[0] == k && ([k] + rest)[1..] == rest;
  }

  /** A non-empty entry of a dict built from distinct names is in it. */
  lemma FoldPutHolds(items: seq<(string, Tree)>, i: nat, k: string, v: Tree)
    requires DistinctNames(items) && i < |items| && items[i] == (k, v) && !EmptyDict(v)
    ensures FoldPut(items).Has(k) && FoldPut(items).kids[k] == v
  {
    FoldPutFind(items, i);
  }

  /** The dataset's node in the baseline, when it has one. */
  lemma BaselineDataset(configType: ConfigType, datasets: seq<DatasetDescriptor>, i: nat)
    requires DistinctDatasets(datasets) && i < |datasets|
    ensures var b := Baseline(configType, datasets);
      && (b.Has(datasets[i].name) <==> !EmptyDict(DatasetDict(configType, datasets[i])))
      && (b.Has(datasets[i].name) ==> b.kids[datasets[i].name] == DatasetDict(configType, datasets[i]))
  {
    BaselineEntriesDistinct(configType, datasets);
    FoldPutFind(BaselineEntries(configType, datasets), i);
  }

  /** Looking up a path through four nested dicts. */
  lemma LookupFour(t: Tree, a: string, b: string, c: string, d: string, rest: seq<string>)
    requires t.Has(a) && t.kids[a].Has(b) && t.kids[a].kids[b].Has(c) && t.kids[a].kids[b].kids[c].Has(d)
    ensures Lookup(t, [a, b, c, d] + rest) == Lookup(t.kids[a].kids[b].kids[c].kids[d], rest)
  {
    var u := t.kids[a];
    var v := u.kids[b];
    var w := v.kids[c];
    assert [a, b, c, d] + rest == [a] + ([b] + ([c] + ([d] + rest)));
    LookupStep(t, a, [b] + ([c] + ([d] + rest)));
    LookupStep(u, b, [c] + ([d] + rest));
    LookupStep(v, c, [d] + rest);
    LookupStep(w, d, rest);
  }

  /** The row noise node of a row noise type in its dataset's dict. */
  lemma DatasetRowType(configType: ConfigType, ds: DatasetDescriptor, r: nat)
    requires DistinctRowTypes(ds.rowNoiseTypes) && r < |ds.rowNoiseTypes|
    requires !EmptyDict(RowNoiseNode(configType, ds.rowNoiseTypes[r]))
    ensures var d := DatasetDict(configType, ds);
      && d.Has(RowNoiseKey) && d.kids[RowNoiseKey].Has(ds.rowNoiseTypes[r].name)
      && d.kids[RowNoiseKey].kids[ds.rowNoiseTypes[r].name] == RowNoiseNode(configType, ds.rowNoiseTypes[r])
  {
    RowDictRowType(configType, ds.rowNoiseTypes, r);
    DatasetEntriesDistinct(configType, ds);
    FoldPutHolds(DatasetEntries(configType, ds), 0, RowNoiseKey, RowNoiseDict(configType, ds.rowNoiseTypes));
  }

  lemma DatasetEntriesDistinct(configType: ConfigType, ds: DatasetDescriptor)
    ensures DistinctNames(DatasetEntries(configType, ds))
  {
  }

  /** The row noise node of a row noise type in the row_noise dict. */
  lemma RowDictRowType(configType: ConfigType, rns: seq<RowNoiseDescriptor>, r: nat)
    requires DistinctRowTypes(rns) && r < |rns|
    requires !EmptyDict(RowNoiseNode(configType, rns[r]))
    ensures RowNoiseDict(configType, rns).Has(rns[r].name)
    ensures RowNoiseDict(configType, rns).kids[rns[r].name] == RowNoiseNode(configType, rns[r])
  {
    RowEntriesDistinct(configType, rns);
    FoldPutHolds(RowEntries(configType, rns), r, rns[r].name, RowNoiseNode(configType, rns[r]));
  }

  /** The node of a column noise type in its dataset's dict. */
  lemma DatasetColumnType(configType: ConfigType, ds: DatasetDescriptor, c: nat, t: nat)
    requires DistinctColumns(ds.columns) && c < |ds.columns|
    requires DistinctColumnTypes(ds.columns[c].noiseTypes) && t < |ds.columns[c].noiseTypes|
    requires !EmptyDict(ColumnNoiseTypeNode(configType, ds.columns[c].noiseTypes[t]))
    ensures var d := DatasetDict(configType, ds);
      var column := ds.columns[c];
      var nt := column.noiseTypes[t];
      && d.Has(ColumnNoiseKey) && d.kids[ColumnNoiseKey].Has(column.name)
      && d.kids[ColumnNoiseKey].kids[column.name].Has(nt.name)
      && d.kids[ColumnNoiseKey].kids[column.name].kids[nt.name] == ColumnNoiseTypeNode(configType, nt)
  {
    ColumnDictColumnType(configType, ds.columns, c, t);
    DatasetEntriesDistinct(configType, ds);
    FoldPutHolds(DatasetEntries(configType, ds), 1, ColumnNoiseKey, ColumnDict(configType, ds.columns));
  }

  /** The node of a column noise type in the column_noise dict. */
  lemma ColumnDictColumnType(configType: ConfigType, columns: seq<ColumnDescriptor>, c: nat, t: nat)
    requires DistinctColumns(columns) && c < |columns|
    requires DistinctColumnTypes(columns[c].noiseTypes) && t < |columns[c].noiseTypes|
    requires !EmptyDict(ColumnNoiseTypeNode(configType, columns[c].noiseTypes[t]))
    ensures var d := ColumnDict(configType, columns);
      var nt := columns[c].noiseTypes[t];
      && d.Has(columns[c].name) && d.kids[columns[c].name].Has(nt.name)
      && d.kids[columns[c].name].kids[nt.name] == ColumnNoiseTypeNode(configType, nt)
  {
    var column := columns[c];
    var nt := column.noiseTypes[t];
    ColumnNoiseEntriesDistinct(configType, column.noiseTypes);
    FoldPutHolds(ColumnNoiseEntries(configType, column.noiseTypes), t, nt.name, ColumnNoiseTypeNode(configType, nt));
    ColumnEntriesDistinct(configType, columns);
    FoldPutHolds(ColumnEntries(configType, columns), c, column.name, ColumnNoiseDict(configType, column.noiseTypes));
  }

  /** Every declared row probability is in the baseline at
      [dataset][row_noise][type][row_probability], as declared or as 0.0
      under no_noise. */
  lemma BaselineRowProbability(configType: ConfigType, datasets: seq<DatasetDescriptor>, i: nat, r: nat)
    requires DistinctDatasets(datasets) && i < |datasets|
    requires DistinctRowTypes(datasets[i].rowNoiseTypes) && r < |datasets[i].rowNoiseTypes|
    requires datasets[i].rowNoiseTypes[r].rowProbability.Some?
    ensures var rn := datasets[i].rowNoiseTypes[r];
      Lookup(Baseline(configType, datasets), [datasets[i].name, RowNoiseKey, rn.name, RowProbability])
        == Some(Leaf(RealV(BaselineLevel(configType, rn.rowProbability.value))))
  {
    var ds := datasets[i];
    var rn := ds.rowNoiseTypes[r];
    var leaf := Leaf(RealV(BaselineLevel(configType, rn.rowProbability.value)));
    var rowNode := RowNoiseNode(configType, rn);
    assert rowNode.Has(RowProbability) && rowNode.kids[RowProbability] == leaf;
    DatasetRowType(configType, ds, r);
    BaselineDataset(configType, datasets, i);
    var b := Baseline(configType, datasets);
    LookupFour(b, ds.name, RowNoiseKey, rn.name, RowProbability, []);
    assert [ds.name, RowNoiseKey, rn.name, RowProbability] + [] == [ds.name, RowNoiseKey, rn.name, RowProbability];
  }

  /** The column-noise node of a column noise type in the baseline. */
  lemma BaselineColumnType(configType: ConfigType, datasets: seq<DatasetDescriptor>, i: nat, c: nat, t: nat)
    requires DistinctDatasets(datasets) && i < |datasets|
    requires DistinctColumns(datasets[i].columns) && c < |datasets[i].columns|
    requires DistinctColumnTypes(datasets[i].columns[c].noiseTypes) && t < |datasets[i].columns[c].noiseTypes|
    requires !EmptyDict(ColumnNoiseTypeNode(configType, datasets[i].columns[c].noiseTypes[t]))
    ensures var column := datasets[i].columns[c];
      var nt := column.noiseTypes[t];
      var node := ColumnNoiseTypeNode(configType, nt);
      forall rest :: Lookup(Baseline(configType, datasets), [datasets[i].name, ColumnNoiseKey, column.name, nt.name] + rest)
        == Lookup(node, rest)
  {
    var ds := datasets[i];
    var column := ds.columns[c];
    var nt := column.noiseTypes[t];
    DatasetColumnType(configType, ds, c, t);
    BaselineDataset(configType, datasets, i);
    var b := Baseline(configType, datasets);
    forall rest: seq<string>
      ensures Lookup(b, [ds.name, ColumnNoiseKey, column.name, nt.name] + rest) == Lookup(ColumnNoiseTypeNode(configType, nt), rest)
    {
      LookupFour(b, ds.name, ColumnNoiseKey, column.name, nt.name, rest);
    }
  }

  /** Every declared cell probability is in the baseline at
      [dataset][column_noise][column][type][cell_probability], as declared
      or as 0.0 under no_noise, unless an extra parameter of the same name
      replaces it. */
  lemma BaselineCellProbability(configType: ConfigType, datasets: seq<DatasetDescriptor>, i: nat, c: nat, t: nat)
    requires DistinctDatasets(datasets) && i < |datasets|
    requires DistinctColumns(datasets[i].columns) && c < |datasets[i].columns|
    requires DistinctColumnTypes(datasets[i].columns[c].noiseTypes) && t < |datasets[i].columns[c].noiseTypes|
    requires datasets[i].columns[c].noiseTypes[t].cellProbability.Some?
    requires forall e :: e in ParametersOf(datasets[i].columns[c].noiseTypes[t]) ==> e.0 != CellProbability
    ensures var column := datasets[i].columns[c];
      var nt := column.noiseTypes[t];
      Lookup(Baseline(configType, datasets), [datasets[i].name, ColumnNoiseKey, column.name, nt.name, CellProbability])
        == Some(Leaf(RealV(BaselineLevel(configType, nt.cellProbability.value))))
  {
    var column := datasets[i].columns[c];
    var nt := column.noiseTypes[t];
    var node := ColumnNoiseTypeNode(configType, nt);
    var leaf := Leaf(RealV(BaselineLevel(configType, nt.cellProbability.value)));
    assert CellNode(configType, nt).kids[CellProbability] == leaf;
    PutAllUntouched(CellNode(configType, nt), ParametersOf(nt), CellProbability);
    assert node.Has(CellProbability) && node.kids[CellProbability] == leaf;
    BaselineColumnType(configType, datasets, i, c, t);
    assert [datasets[i].name, ColumnNoiseKey, column.name, nt.name, CellProbability]
      == [datasets[i].name, ColumnNoiseKey, column.name, nt.name] + [CellProbability];
    LookupStep(node, CellProbability, []);
  }

  /** An extra parameter with a name of its own is in its node. */
  lemma NodeParameter(configType: ConfigType, nt: ColumnNoiseDescriptor, q: nat)
    requires DistinctNames(ParametersOf(nt)) && q < |ParametersOf(nt)|
    ensures var node := ColumnNoiseTypeNode(configType, nt);
      var parameter := ParametersOf(nt)[q];
      && !EmptyDict(node) && node.Has(parameter.0) && node.kids[parameter.0] == parameter.1
  {
    var items := ParametersOf(nt);
    assert forall e :: e in items && e.0 == items[q].0 ==> e == items[q];
    PutAllFind(CellNode(configType, nt), items, items[q].0, items[q].1);
  }

  /** Extra parameters are copied verbatim into their column noise type's
      node. */
  lemma BaselineAdditionalParameter(configType: ConfigType, datasets: seq<DatasetDescriptor>, i: nat, c: nat, t: nat, q: nat)
    requires DistinctDatasets(datasets) && i < |datasets|
    requires DistinctColumns(datasets[i].columns) && c < |datasets[i].columns|
    requires DistinctColumnTypes(datasets[i].columns[c].noiseTypes) && t < |datasets[i].columns[c].noiseTypes|
    requires DistinctNames(ParametersOf(datasets[i].columns[c].noiseTypes[t]))
    requires q < |ParametersOf(datasets[i].columns[c].noiseTypes[t])|
    ensures var column := datasets[i].columns[c];
      var nt := column.noiseTypes[t];
      var parameter := ParametersOf(nt)[q];
      Lookup(Baseline(configType, datasets), [datasets[i].name, ColumnNoiseKey, column.name, nt.name, parameter.0])
        == Some(parameter.1)
  {
    var column := datasets[i].columns[c];
    var nt := column.noiseTypes[t];
    var node := ColumnNoiseTypeNode(configType, nt);
    var items := ParametersOf(nt);
    NodeParameter(configType, nt, q);
    BaselineColumnType(configType, datasets, i, c, t);
    assert [datasets[i].name, ColumnNoiseKey, column.name, nt.name, items[q].0]
      == [datasets[i].name, ColumnNoiseKey, column.name, nt.name] + [items[q].0];
    LookupStep(node, items[q].0, []);
  }

  /** A row noise type without a declared probability, and a column noise
      type without a probability or parameters, leave no node. */
  lemma BaselineOmitsUndeclared(configType: ConfigType, rn: RowNoiseDescriptor, nt: ColumnNoiseDescriptor)
    ensures EmptyDict(RowNoiseNode(configType, rn)) <==> rn.rowProbability.None?
    ensures EmptyDict(ColumnNoiseTypeNode(configType, nt)) <==> nt.cellProbability.None? && ParametersOf(nt) == []
  {
    if ParametersOf(nt) != [] {
      var items := ParametersOf(nt);
      var last := items[|items| - 1];
      assert last.0 in ColumnNoiseTypeNode(configType, nt).kids;
    }
  }

  /** No empty dict is left in the baseline: not a dataset, a row_noise
      or column_noise dict, a row noise type, a column, or a column noise
      type. */
  lemma BaselinePruned(configType: ConfigType, datasets: seq<DatasetDescriptor>)
    ensures Pruned(Baseline(configType, datasets), 4)
  {
    forall ds | ds in datasets
      ensures Pruned(DatasetDict(configType, ds), 3)
    {
      forall rn | rn in ds.rowNoiseTypes
        ensures Pruned(RowNoiseNode(configType, rn), 1)
      {
      }
      FoldPutPruned(RowEntries(configType, ds.rowNoiseTypes), 1);
      forall column | column in ds.columns
        ensures Pruned(ColumnNoiseDict(configType, column.noiseTypes), 1)
      {
        FoldPutPruned(ColumnNoiseEntries(configType, column.noiseTypes), 0);
      }
      FoldPutPruned(ColumnEntries(configType, ds.columns), 1);
      FoldPutPruned(DatasetEntries(configType, ds), 2);
    }
    FoldPutPruned(BaselineEntries(configType, datasets), 3);
  }

  // ---------------------------------------------------------------------
  // Layers

  /** The keys of an update that the dict does not have yet, in order. */
  function NewKeys(keys: seq<string>, existing: map<string, Tree>): (r: seq<string>)
    ensures forall k :: k in r <==> k in keys && k !in existing
  {
    if keys == [] then []
    else (if keys[0] in existing then [] else [keys[0]]) + NewKeys(keys[1..], existing)
  }

  /** ConfigTree.update: the update's dicts merge into the tree's dicts key
      by key; any other value of the update replaces what was there. */
  function Overlay(lower: Tree, upper: Tree): (r: Tree)
    ensures upper.Leaf? ==> r == upper
    ensures upper.Node? ==> r.Node? && r.kids.Keys == (if lower.Node? then lower.kids.Keys else {}) + upper.kids.Keys
    decreases upper
  {
    match upper
    case Leaf(_) => upper
    case Node(upperKeys, upperKids) =>
      if lower.Leaf? then upper
      else
        Node(lower.keys + NewKeys(upperKeys, lower.kids),
          map k | k in lower.kids.Keys + upperKids.Keys ::
            if k in upperKids && k in lower.kids then Overlay(lower.kids[k], upperKids[k])
            else if k in upperKids then upperKids[k]
            else lower.kids[k])
  }

  /** The update has no value along the path: some dict on the way lacks
      the next key. */
  predicate Misses(upper: Tree, path: seq<string>)
    decreases |path|
  {
    upper.Node? && path != [] && (path[0] !in upper.kids || Misses(upper.kids[path[0]], path[1..]))
  }

  /** A value the update sets is what the merged tree holds. */
  lemma {:induction false} OverlayUpperLeaf(lower: Tree, upper: Tree, path: seq<string>)
    requires Lookup(upper, path).Some? && Lookup(upper, path).value.Leaf?
    ensures Lookup(Overlay(lower, upper), path) == Lookup(upper, path)
    decreases |path|
  {
    if path != [] && upper.Node? && lower.Node? {
      var k := path[0];
      if k in lower.kids {
        OverlayUpperLeaf(lower.kids[k], upper.kids[k], path[1..]);
      }
    }
  }

  /** Where the update has no value, the merged tree holds what the tree
      held. */
  lemma {:induction false} OverlayMisses(lower: Tree, upper: Tree, path: seq<string>)
    requires Misses(upper, path)
    ensures Lookup(Overlay(lower, upper), path) == Lookup(lower, path)
    decreases |path|
  {
    var k := path[0];
    if lower.Node? && k in upper.kids {
      if k in lower.kids {
        OverlayMisses(lower.kids[k], upper.kids[k], path[1..]);
      } else {
        MissesLookup(upper.kids[k], path[1..]);
      }
    } else if lower.Leaf? {
      MissesLookup(upper, path);
    }
  }

  lemma {:induction false} MissesLookup(t: Tree, path: seq<string>)
    requires Misses(t, path)
    ensures Lookup(t, path) == None
    decreases |path|
  {
    if path[0] in t.kids {
      MissesLookup(t.kids[path[0]], path[1..]);
    }
  }

  lemma NewKeysAll(keys: seq<string>)
    ensures NewKeys(keys, map[]) == keys
  {
  }

  lemma NewKeysNone(existing: map<string, Tree>)
    ensures NewKeys([], existing) == []
  {
  }

  /** Updating a dict with an empty dict, or updating an empty dict, leaves
      the other as it is. */
  lemma OverlayEmpty(t: Tree)
    requires t.Node?
    ensures Overlay(t, EmptyTree) == t
    ensures Overlay(EmptyTree, t) == t
  {
    NewKeysAll(t.keys);
    assert Overlay(t, EmptyTree).kids == t.kids;
    assert Overlay(EmptyTree, t).kids == t.kids;
  }

  datatype Layer = BaselineLayer | DefaultLayer | UserLayer

  /** The three layers of a noising configuration, lowest first. */
  datatype Layers = Layers(baseline: Tree, defaults: Tree, user: Tree)

  /** The configuration the layers give: user over default over baseline. */
  function ViewOf(l: Layers): Tree
  {
    Overlay(Overlay(l.baseline, l.defaults), l.user)
  }

  /** A value is read from the highest layer that sets it. */
  lemma ViewPrecedence(l: Layers, path: seq<string>)
    ensures Lookup(l.user, path).Some? && Lookup(l.user, path).value.Leaf? ==>
      Lookup(ViewOf(l), path) == Lookup(l.user, path)
    ensures Misses(l.user, path) && Lookup(l.defaults, path).Some? && Lookup(l.defaults, path).value.Leaf? ==>
      Lookup(ViewOf(l), path) == Lookup(l.defaults, path)
    ensures Misses(l.user, path) && Misses(l.defaults, path) ==>
      Lookup(ViewOf(l), path) == Lookup(l.baseline, path)
  {
    var merged := Overlay(l.baseline, l.defaults);
    if Lookup(l.user, path).Some? && Lookup(l.user, path).value.Leaf? {
      OverlayUpperLeaf(merged, l.user, path);
    }
    if Misses(l.user, path) {
      OverlayMisses(merged, l.user, path);
      if Lookup(l.defaults, path).Some? && Lookup(l.defaults, path).value.Leaf? {
        OverlayUpperLeaf(l.baseline, l.defaults, path);
      }
      if Misses(l.defaults, path) {
        OverlayMisses(l.baseline, l.defaults, path);
      }
    }
  }

  /** The layered configuration object (a ConfigTree with the layers
      baseline, default and user). */
  class ConfigTree {
    var baseline: Tree
    var defaults: Tree
    var user: Tree

    constructor ()
      ensures baseline == EmptyTree && defaults == EmptyTree && user == EmptyTree
    {
      baseline := EmptyTree;
      defaults := EmptyTree;
      user := EmptyTree;
    }

    function Layered(): Layers
      reads this
    {
      Layers(baseline, defaults, user)
    }

    /** The values the configuration gives. */
    function View(): Tree
      reads this
    {
      ViewOf(Layered())
    }

    /** update(d, layer): merge d into one layer. */
    method Update(d: Tree, layer: Layer)
      modifies this
      ensures layer == BaselineLayer ==> Layered() == old(Layered()).(baseline := Overlay(old(baseline), d))
      ensures layer == DefaultLayer ==> Layered() == old(Layered()).(defaults := Overlay(old(defaults), d))
      ensures layer == UserLayer ==> Layered() == old(Layered()).(user := Overlay(old(user), d))
    {
      match layer
      case BaselineLayer => baseline := Overlay(baseline, d);
      case DefaultLayer => defaults := Overlay(defaults, d);
      case UserLayer => user := Overlay(user, d);
    }
  }

  // ---------------------------------------------------------------------
  // Age perturbations in the user's configuration

  /** The path below a dataset to its age perturbations. */
  const AgePath: seq<string> := [ColumnNoiseKey, AgeColumn, MisreportAge, PossibleAgeDifferences]

  /** Python truthiness of a configuration value. */
  predicate Truthy(t: Tree)
  {
    match t
    case Node(_, kids) => kids != map[]
    case Leaf(RealV(r)) => r != 0.0
    case Leaf(IntV(i)) => i != 0
    case Leaf(StrV(s)) => s != ""
    case Leaf(RealsV(xs)) => xs != []
    case Leaf(IntsV(ks)) => ks != []
    case Leaf(IntMapV(order, _)) => order != []
  }

  /** t.get(p0, {}).get(p1, {})...: a missing key gives {} (None here), and
      .get on a value that is not a dict raises AttributeError. */
  function GetChain(t: Tree, path: seq<string>): (r: Result<Option<Tree>>)
    ensures r.Ok? && r.value.Some? ==> Lookup(t, path) == r.value
    ensures Lookup(t, path).Some? ==> r == Ok(Lookup(t, path))
    ensures r == Ok(None) ==> Lookup(t, path).None?
    ensures r.Err? ==> r.error.AttributeError?
    decreases |path|
  {
    if path == [] then Ok(Some(t))
    else if t.Leaf? then Err(AttributeError("object has no attribute 'get'"))
    else if path[0] in t.kids then GetChain(t.kids[path[0]], path[1..])
    else Ok(None)
  }

  /** t[p0][p1]... on a ConfigTree: KeyError for the first missing key. */
  function Subscript(t: Tree, path: seq<string>): (r: Result<Tree>)
    ensures r.Ok? <==> Lookup(t, path).Some?
    ensures r.Ok? ==> Lookup(t, path) == Some(r.value)
    ensures r.Err? ==> r.error.KeyError?
    decreases |path|
  {
    if path == [] then Ok(t)
    else if t.Has(path[0]) then Subscript(t.kids[path[0]], path[1..])
    else Err(KeyError(path[0]))
  }

  /** Iterating the default perturbations: the keys of a dict or the items
      of a list. */
  function PerturbationKeys(t: Tree): (r: Result<seq<int>>)
  {
    match t
    case Leaf(IntMapV(order, _)) => Ok(order)
    case Leaf(IntsV(ks)) => Ok(ks)
    case _ => Err(TypeError("age perturbations must be a list or a dict of integers"))
  }

  /** formatted[k] = p for each key in turn; a key already present keeps
      its position. */
  function AssignAll(order: seq<int>, probs: map<int, real>, keys: seq<int>, p: real): (r: (seq<int>, map<int, real>))
    decreases |keys|
  {
    if keys == [] then (order, probs)
    else
      var prefix := AssignAll(order, probs, keys[..|keys| - 1], p);
      var k := keys[|keys| - 1];
      (if k in prefix.1 then prefix.0 else prefix.0 + [k], prefix.1[k := p])
  }

  /** formatted[k] = probs[k] for each (k, probs[k]) of a dict in turn. */
  function AssignFrom(order: seq<int>, probs: map<int, real>, keys: seq<int>, source: map<int, real>): (r: (seq<int>, map<int, real>))
    decreases |keys|
  {
    if keys == [] then (order, probs)
    else
      var prefix := AssignFrom(order, probs, keys[..|keys| - 1], source);
      var k := keys[|keys| - 1];
      if k !in source then prefix
      else (if k in prefix.1 then prefix.0 else prefix.0 + [k], prefix.1[k := source[k]])
  }

  /** The formatted perturbations: every default key at 0, then each key of
      a user list at 1 / len, or each entry of a user dict at its value.
      (An IntMapV's order lists the keys of its map.) */
  function Formatted(defaults: seq<int>, user: Value): (r: Result<Value>)
  {
    var zeroed := AssignAll([], map[], defaults, 0.0);
    match user
    case IntsV(ks) =>
      if |ks| == 0 then Err(ZeroDivisionError)
      else
        var f := AssignAll(zeroed.0, zeroed.1, ks, 1.0 / (|ks| as real));
        Ok(IntMapV(f.0, f.1))
    case IntMapV(order, probs) =>
      var f := AssignFrom(zeroed.0, zeroed.1, order, probs);
      Ok(IntMapV(f.0, f.1))
    case _ => Err(AttributeError("object has no attribute 'items'"))
  }

  /** The keys are listed once each, in an order that covers the map. */
  predicate Listed(order: seq<int>, probs: map<int, real>)
  {
    Distinct(order) && (set k | k in order) == probs.Keys
  }

  lemma {:induction false} AssignAllContents(order: seq<int>, probs: map<int, real>, keys: seq<int>, p: real)
    requires Listed(order, probs)
    ensures var r := AssignAll(order, probs, keys, p);
      && Listed(r.0, r.1)
      && r.1.Keys == probs.Keys + (set k | k in keys)
      && (forall k :: k in keys ==> r.1[k] == p)
      && (forall k :: k in probs && k !in keys ==> r.1[k] == probs[k])
    decreases |keys|
  {
    if keys != [] {
      var prefixKeys := keys[..|keys| - 1];
      assert keys == prefixKeys + [keys[|keys| - 1]];
      AssignAllContents(order, probs, prefixKeys, p);
    }
  }

  lemma {:induction false} AssignFromContents(order: seq<int>, probs: map<int, real>, keys: seq<int>, source: map<int, real>)
    requires Listed(order, probs)
    requires forall k :: k in keys ==> k in source
    ensures var r := AssignFrom(order, probs, keys, source);
      && Listed(r.0, r.1)
      && r.1.Keys == probs.Keys + (set k | k in keys)
      && (forall k :: k in keys ==> r.1[k] == source[k])
      && (forall k :: k in probs && k !in keys ==> r.1[k] == probs[k])
    decreases |keys|
  {
    if keys != [] {
      var prefixKeys := keys[..|keys| - 1];
      assert keys == prefixKeys + [keys[|keys| - 1]];
      AssignFromContents(order, probs, prefixKeys, source);
    }
  }

  /** A user list: every default key and every listed key, the listed
      ones at 1 / len and the other defaults at 0. */
  lemma FormattedList(defaults: seq<int>, ks: seq<int>)
    requires ks != []
    ensures var r := Formatted(defaults, IntsV(ks));
      && r.Ok? && r.value.IntMapV?
      && Listed(r.value.order, r.value.probs)
      && r.value.probs.Keys == (set k | k in defaults) + (set k | k in ks)
      && (forall k :: k in ks ==> r.value.probs[k] == 1.0 / (|ks| as real))
      && (forall k :: k in defaults && k !in ks ==> r.value.probs[k] == 0.0)
  {
    assert Listed([], map[]);
    AssignAllContents([], map[], defaults, 0.0);
    var zeroed := AssignAll([], map[], defaults, 0.0);
    AssignAllContents(zeroed.0, zeroed.1, ks, 1.0 / (|ks| as real));
  }

  /** A user dict: every default key and every user key, the user's at
      their values and the other defaults at 0. */
  lemma FormattedDict(defaults: seq<int>, order: seq<int>, probs: map<int, real>)
    requires Listed(order, probs)
    ensures var r := Formatted(defaults, IntMapV(order, probs));
      && r.Ok? && r.value.IntMapV?
      && Listed(r.value.order, r.value.probs)
      && r.value.probs.Keys == (set k | k in defaults) + probs.Keys
      && (forall k :: k in probs ==> r.value.probs[k] == probs[k])
      && (forall k :: k in defaults && k !in probs ==> r.value.probs[k] == 0.0)
  {
    assert Listed([], map[]);
    AssignAllContents([], map[], defaults, 0.0);
    var zeroed := AssignAll([], map[], defaults, 0.0);
    AssignFromContents(zeroed.0, zeroed.1, order, probs);
  }

  /** The list case of the configuration tests: [-2, -1, 2] over the
      default keys -2, -1, 1, 2. */
  lemma FormattedListExample()
    ensures Formatted([-2, -1, 1, 2], IntsV([-2, -1, 2]))
      == Ok(IntMapV([-2, -1, 1, 2], map[-2 := 1.0 / 3.0, -1 := 1.0 / 3.0, 1 := 0.0, 2 := 1.0 / 3.0]))
  {
    ZeroedExample();
    var z := ([-2, -1, 1, 2], map[-2 := 0.0, -1 := 0.0, 1 := 0.0, 2 := 0.0]);
    var third := 1.0 / 3.0;
    assert [-2, -1, 2][..2] == [-2, -1];
    assert [-2, -1][..1] == [-2];
    assert [-2][..0] == [];
    assert AssignAll(z.0, z.1, [-2], third) == (z.0, z.1[-2 := third]);
    assert AssignAll(z.0, z.1, [-2, -1], third) == (z.0, z.1[-2 := third][-1 := third]);
    assert AssignAll(z.0, z.1, [-2, -1, 2], third) == (z.0, z.1[-2 := third][-1 := third][2 := third]);
    assert z.1[-2 := third][-1 := third][2 := third] == map[-2 := third, -1 := third, 1 := 0.0, 2 := third];
  }

  /** The default keys -2, -1, 1, 2 zeroed. */
  lemma ZeroedExample()
    ensures AssignAll([], map[], [-2, -1, 1, 2], 0.0) == ([-2, -1, 1, 2], map[-2 := 0.0, -1 := 0.0, 1 := 0.0, 2 := 0.0])
  {
    var empty: map<int, real> := map[];
    var keys: seq<int> := [-2, -1, 1, 2];
    assert keys[..0] == [];
    assert AssignAll([], empty, keys[..1], 0.0) == ([-2], map[-2 := 0.0]) by {
      assert keys[..1][..0] == [];
      assert [] + [-2] == [-2];
    }
    assert AssignAll([], empty, keys[..2], 0.0) == ([-2, -1], map[-2 := 0.0, -1 := 0.0]) by {
      assert keys[..2][..1] == keys[..1];
      assert [-2] + [-1] == [-2, -1];
    }
    assert AssignAll([], empty, keys[..3], 0.0) == ([-2, -1, 1], map[-2 := 0.0, -1 := 0.0, 1 := 0.0]) by {
      assert keys[..3][..2] == keys[..2];
      assert [-2, -1] + [1] == [-2, -1, 1];
    }
    assert keys[..4][..3] == keys[..3];
    assert [-2, -1, 1] + [2] == keys;
    assert keys[..4] == keys;
  }

  /** The dict case of the configuration tests: {-2: 0.3, 1: 0.5, 2: 0.2}
      over the default keys -2, -1, 1, 2. */
  lemma FormattedDictExample()
    ensures Formatted([-2, -1, 1, 2], IntMapV([-2, 1, 2], map[-2 := 0.3, 1 := 0.5, 2 := 0.2]))
      == Ok(IntMapV([-2, -1, 1, 2], map[-2 := 0.3, -1 := 0.0, 1 := 0.5, 2 := 0.2]))
  {
    ZeroedExample();
    var z := ([-2, -1, 1, 2], map[-2 := 0.0, -1 := 0.0, 1 := 0.0, 2 := 0.0]);
    var source := map[-2 := 0.3, 1 := 0.5, 2 := 0.2];
    assert [-2, 1, 2][..2] == [-2, 1];
    assert [-2, 1][..1] == [-2];
    assert [-2][..0] == [];
    assert AssignFrom(z.0, z.1, [-2], source) == (z.0, z.1[-2 := 0.3]);
    assert AssignFrom(z.0, z.1, [-2, 1], source) == (z.0, z.1[-2 := 0.3][1 := 0.5]);
    assert AssignFrom(z.0, z.1, [-2, 1, 2], source) == (z.0, z.1[-2 := 0.3][1 := 0.5][2 := 0.2]);
    assert z.1[-2 := 0.3][1 := 0.5][2 := 0.2] == map[-2 := 0.3, -1 := 0.0, 1 := 0.5, 2 := 0.2];
  }

  /** The formatting loops: zero every default key, then assign the user's
      perturbations. */
  method FormatPerturbations(defaults: seq<int>, user: Value) returns (r: Result<Value>)
    ensures r == Formatted(defaults, user)
  {
    var order: seq<int> := [];
    var probs: map<int, real> := map[];
    for j := 0 to |defaults|
      invariant (order, probs) == AssignAll([], map[], defaults[..j], 0.0)
    {
      assert defaults[..j + 1][..j] == defaults[..j];
      var k := defaults[j];
      if k !in probs {
        order := order + [k];
      }
      probs := probs[k := 0.0];
    }
    assert defaults[..|defaults|] == defaults;
    ghost var zeroed := (order, probs);
    match user
    case IntsV(ks) =>
      if |ks| == 0 {
        return Err(ZeroDivisionError);
      }
      var uniform := 1.0 / (|ks| as real);
      for j := 0 to |ks|
        invariant (order, probs) == AssignAll(zeroed.0, zeroed.1, ks[..j], uniform)
      {
        assert ks[..j + 1][..j] == ks[..j];
        var k := ks[j];
        if k !in probs {
          order := order + [k];
        }
        probs := probs[k := uniform];
      }
      assert ks[..|ks|] == ks;
      r := Ok(IntMapV(order, probs));
    case IntMapV(userOrder, userProbs) =>
      for j := 0 to |userOrder|
        invariant (order, probs) == AssignFrom(zeroed.0, zeroed.1, userOrder[..j], userProbs)
      {
        assert userOrder[..j + 1][..j] == userOrder[..j];
        var k := userOrder[j];
        if k in userProbs {
          if k !in probs {
            order := order + [k];
          }
          probs := probs[k := userProbs[k]];
        }
      }
      assert userOrder[..|userOrder|] == userOrder;
      r := Ok(IntMapV(order, probs));
    case _ =>
      r := Err(AttributeError("object has no attribute 'items'"));
  }

  /** d[p0][p1]...[pn] = v along a path that exists; every dict on the way
      keeps its keys and their order. */
  function SetPath(t: Tree, path: seq<string>, v: Tree): (r: Tree)
    requires Lookup(t, path).Some?
    ensures Lookup(r, path) == Some(v)
    ensures path != [] ==> r.Node? && r.keys == t.keys && r.kids.Keys == t.kids.Keys
    decreases |path|
  {
    if path == [] then v
    else Node(t.keys, t.kids[path[0] := SetPath(t.kids[path[0]], path[1..], v)])
  }

  /** q leaves path at position i: they agree before i and differ at i. */
  predicate LeavesPath(q: seq<string>, path: seq<string>)
  {
    exists i :: 0 <= i < |path| && i < |q| && q[..i] == path[..i] && q[i] != path[i]
  }

  /** Setting the value at a path changes nothing at a path that leaves it. */
  lemma {:induction false} SetPathKeepsOthers(t: Tree, path: seq<string>, v: Tree, q: seq<string>, i: nat)
    requires Lookup(t, path).Some? && i < |path| && i < |q| && q[..i] == path[..i] && q[i] != path[i]
    ensures Lookup(SetPath(t, path, v), q) == Lookup(t, q)
    decreases |path|
  {
    var r := SetPath(t, path, v);
    if i > 0 {
      assert q[0] == path[0] by {
        assert q[..i][0] == path[..i][0];
      }
      assert q[1..][..i - 1] == path[1..][..i - 1] by {
        assert q[1..][..i - 1] == q[..i][1..] && path[1..][..i - 1] == path[..i][1..];
      }
      SetPathKeepsOthers(t.kids[path[0]], path[1..], v, q[1..], i - 1);
    }
  }

  /** The new value of user_dict[dataset]: unchanged when it gives no age
      perturbations (or falsy ones); otherwise its perturbations replaced by
      the formatted ones, zeroing the keys of the configuration's defaults. */
  function FormatEntry(view: Tree, dataset: string, entry: Tree): (r: Result<Tree>)
  {
    var found :- GetChain(entry, AgePath);
    if found.None? || !Truthy(found.value) then Ok(entry)
    else
      var defaultNode :- Subscript(view, [dataset] + AgePath);
      var keys :- PerturbationKeys(defaultNode);
      var user :- if found.value.Leaf? then Ok(found.value.v) else Err(TypeError("age perturbation keys must be integers"));
      var formatted :- Formatted(keys, user);
      Ok(SetPath(entry, AgePath, Leaf(formatted)))
  }

  /** The datasets of the user's dict in turn. */
  function FormatFrom(view: Tree, keys: seq<string>, d: Tree): (r: Result<Tree>)
    requires d.Node? && forall k :: k in keys ==> k in d.kids
    ensures r.Ok? ==> r.value.Node? && r.value.keys == d.keys && r.value.kids.Keys == d.kids.Keys
    decreases |keys|
  {
    if keys == [] then Ok(d)
    else
      var updated :- FormatEntry(view, keys[0], d.kids[keys[0]]);
      FormatFrom(view, keys[1..], Node(d.keys, d.kids[keys[0] := updated]))
  }

  /** _format_misreport_age_perturbations on the user's dict. */
  function FormatMisreport(view: Tree, user: Tree): (r: Result<Tree>)
    requires user.Ordered()
  {
    if user.Leaf? then Err(TypeError("the user configuration is not a dict"))
    else FormatFrom(view, user.keys, user)
  }

  /** Each dataset is formatted on its own: the walk succeeds exactly when
      every dataset's entry can be formatted, and then each dataset holds
      its formatted entry. */
  lemma {:induction false} FormatFromEntries(view: Tree, keys: seq<string>, d: Tree)
    requires d.Node? && Distinct(keys) && forall k :: k in keys ==> k in d.kids
    ensures var r := FormatFrom(view, keys, d);
      && (r.Ok? <==> forall k :: k in keys ==> FormatEntry(view, k, d.kids[k]).Ok?)
      && (r.Ok? ==> forall k :: k in d.kids ==>
        r.value.kids[k] == if k in keys then FormatEntry(view, k, d.kids[k]).value else d.kids[k])
    decreases |keys|
  {
    if keys != [] {
      var k0 := keys[0];
      var updated := FormatEntry(view, k0, d.kids[k0]);
      if updated.Ok? {
        var next := Node(d.keys, d.kids[k0 := updated.value]);
        assert Distinct(keys[1..]) && k0 !in keys[1..] by {
          forall i, j | 0 <= i < j < |keys[1..]| ensures keys[1..][i] != keys[1..][j] {
            assert keys[1..][i] == keys[i + 1] && keys[1..][j] == keys[j + 1];
          }
          forall i | 0 <= i < |keys[1..]| ensures keys[1..][i] != k0 {
            assert keys[1..][i] == keys[i + 1];
          }
        }
        FormatFromEntries(view, keys[1..], next);
        assert forall k :: k in keys <==> k == k0 || k in keys[1..];
      }
    }
  }

  /** The user's dict formatted: a dataset whose entry names no truthy age
      perturbations is left untouched; the perturbations of the others
      become the formatted dict. */
  lemma FormatMisreportEntries(view: Tree, user: Tree)
    requires user.Node? && user.Ordered()
    ensures var r := FormatMisreport(view, user);
      && (r.Ok? <==> forall k :: k in user.kids ==> FormatEntry(view, k, user.kids[k]).Ok?)
      && (r.Ok? ==> r.value.keys == user.keys && r.value.kids.Keys == user.kids.Keys)
      && (r.Ok? ==> forall k :: k in user.kids ==> r.value.kids[k] == FormatEntry(view, k, user.kids[k]).value)
  {
    FormatFromEntries(view, user.keys, user);
  }

  /** One dataset's entry: untouched without truthy perturbations, which
      then also raise nothing; otherwise the perturbations are the
      formatted ones. */
  lemma FormatEntryCases(view: Tree, dataset: string, entry: Tree)
    ensures GetChain(entry, AgePath) == Ok(None) ==> FormatEntry(view, dataset, entry) == Ok(entry)
    ensures GetChain(entry, AgePath).Ok? && GetChain(entry, AgePath).value.Some? && !Truthy(GetChain(entry, AgePath).value.value) ==>
      FormatEntry(view, dataset, entry) == Ok(entry)
    ensures var r := FormatEntry(view, dataset, entry);
      r.Ok? && r.value != entry ==>
        && Lookup(entry, AgePath).Some? && Truthy(Lookup(entry, AgePath).value) && Lookup(entry, AgePath).value.Leaf?
        && Lookup(view, [dataset] + AgePath).Some?
        && var keys := PerturbationKeys(Lookup(view, [dataset] + AgePath).value);
          && keys.Ok?
          && Formatted(keys.value, Lookup(entry, AgePath).value.v).Ok?
          && Lookup(r.value, AgePath) == Some(Leaf(Formatted(keys.value, Lookup(entry, AgePath).value.v).value))
    ensures var found := Lookup(entry, AgePath);
      var r := FormatEntry(view, dataset, entry);
      found.Some? && found.value.Leaf? && Truthy(found.value) && r.Ok? ==>
        && Lookup(view, [dataset] + AgePath).Some?
        && var keys := PerturbationKeys(Lookup(view, [dataset] + AgePath).value);
          && keys.Ok?
          && Formatted(keys.value, found.value.v).Ok?
          && Lookup(r.value, AgePath) == Some(Leaf(Formatted(keys.value, found.value.v).value))
    ensures var r := FormatEntry(view, dataset, entry);
      r.Ok? ==> forall q :: LeavesPath(q, AgePath) ==> Lookup(r.value, q) == Lookup(entry, q)
  {
    var r := FormatEntry(view, dataset, entry);
    if r.Ok? && r.value != entry {
      var found := GetChain(entry, AgePath).value.value;
      var keys := PerturbationKeys(Subscript(view, [dataset] + AgePath).value).value;
      var v := Leaf(Formatted(keys, found.v).value);
      assert r.value == SetPath(entry, AgePath, v);
      forall q | LeavesPath(q, AgePath)
        ensures Lookup(r.value, q) == Lookup(entry, q)
      {
        var i :| 0 <= i < |AgePath| && i < |q| && q[..i] == AgePath[..i] && q[i] != AgePath[i];
        SetPathKeepsOthers(entry, AgePath, v, q, i);
      }
    }
  }

  /** The body of the walk for one dataset: the new value of its entry. */
  method FormatDatasetEntry(view: Tree, dataset: string, entry: Tree) returns (r: Result<Tree>)
    ensures r == FormatEntry(view, dataset, entry)
  {
    var found := GetChain(entry, AgePath);
    if found.Err? {
      return Err(found.error);
    }
    if found.value.None? || !Truthy(found.value.value) {
      return Ok(entry);
    }
    var defaultNode := Subscript(view, [dataset] + AgePath);
    if defaultNode.Err? {
      return Err(defaultNode.error);
    }
    var defaults := PerturbationKeys(defaultNode.value);
    if defaults.Err? {
      return Err(defaults.error);
    }
    if found.value.value.Node? {
      return Err(TypeError("age perturbation keys must be integers"));
    }
    var formatted := FormatPerturbations(defaults.value, found.value.value.v);
    if formatted.Err? {
      return Err(formatted.error);
    }
    r := Ok(SetPath(entry, AgePath, Leaf(formatted.value)));
  }

  /** One step of the walk. */
  lemma FormatFromUnfold(view: Tree, keys: seq<string>, j: nat, d: Tree)
    requires d.Node? && j < |keys| && forall k :: k in keys ==> k in d.kids
    ensures var u := FormatEntry(view, keys[j], d.kids[keys[j]]);
      FormatFrom(view, keys[j..], d) ==
        if u.Err? then Err(u.error) else FormatFrom(view, keys[j + 1..], Node(d.keys, d.kids[keys[j] := u.value]))
  {
    assert keys[j..][0] == keys[j] && keys[j..][1..] == keys[j + 1..];
  }

  /** The walk over the user's dict, which reassigns the entry of each
      dataset with age perturbations. */
  method FormatMisreportAgePerturbations(view: Tree, userDict: Tree) returns (r: Result<Tree>)
    requires userDict.Ordered()
    ensures r == FormatMisreport(view, userDict)
  {
    if userDict.Leaf? {
      return Err(TypeError("the user configuration is not a dict"));
    }
    var keys := userDict.keys;
    var d := userDict;
    assert keys[0..] == keys;
    for j := 0 to |keys|
      invariant d.Node? && d.keys == userDict.keys && d.kids.Keys == userDict.kids.Keys
      invariant FormatMisreport(view, userDict) == FormatFrom(view, keys[j..], d)
    {
      var dataset := keys[j];
      FormatFromUnfold(view, keys, j, d);
      var updated := FormatDatasetEntry(view, dataset, d.kids[dataset]);
      if updated.Err? {
        return Err(updated.error);
      }
      d := Node(d.keys, d.kids[dataset := updated.value]);
    }
    assert keys[|keys|..] == [];
    r := Ok(d);
  }

  // ---------------------------------------------------------------------
  // get_configuration

  /** What get_configuration is given: nothing, a str (a path to a YAML
      file, or "no_noise"), a Path, or a dict. The YAML file's contents are
      a parameter; reading the file is outside the model. */
  datatype UserConfiguration =
    | NoUserConfiguration
    | PathString(text: string, contents: Tree)
    | PathObject(contents: Tree)
    | Dictionary(dict: Tree)

  function LowerChar(c: char): (l: char)
  {
    if 'A' <= c <= 'Z' then (c as int - 'A' as int + 'a' as int) as char else c
  }

  /** str.lower on ASCII letters. */
  function Lower(s: string): (r: string)
    ensures |r| == |s| && forall i :: 0 <= i < |s| ==> r[i] == LowerChar(s[i])
  {
    seq(|s|, i requires 0 <= i < |s| => LowerChar(s[i]))
  }

  /** The configuration type and the user configuration get_configuration
      goes on with, as written: a str other than "no_noise" leaves
      config_type unbound. */
  function SelectConfigTypeAsWritten(u: UserConfiguration): (r: Result<(ConfigType, UserConfiguration)>)
  {
    match u
    case PathString(text, _) =>
      if Lower(text) == NoNoiseName then Ok((NoNoise, NoUserConfiguration))
      else Err(UnboundLocalError("config_type"))
    case _ => Ok((Default, u))
  }

  /** The same, corrected: a str other than "no_noise" is a path and gets
      the default configuration type. */
  function SelectConfigType(u: UserConfiguration): (r: (ConfigType, UserConfiguration))
  {
    match u
    case PathString(text, _) =>
      if Lower(text) == NoNoiseName then (NoNoise, NoUserConfiguration) else (Default, u)
    case _ => (Default, u)
  }

  /** `if user_configuration:` and the contents it then stands for. */
  function UserContents(u: UserConfiguration): (r: Option<Tree>)
  {
    match u
    case NoUserConfiguration => None
    case PathString(text, contents) => if text == "" then None else Some(contents)
    case PathObject(contents) => Some(contents)
    case Dictionary(d) => if Truthy(d) then Some(d) else None
  }

  /** A dict parsed or given keeps each key once. */
  predicate WellFormedUser(u: UserConfiguration)
  {
    match u
    case NoUserConfiguration => true
    case PathString(_, contents) => contents.Ordered()
    case PathObject(contents) => contents.Ordered()
    case Dictionary(d) => d.Ordered()
  }

  /** _generate_configuration: the baseline layer, and the default values
      only in the default configuration type. */
  function GenerateLayers(configType: ConfigType, datasets: seq<DatasetDescriptor>, defaultValues: Tree): (l: Layers)
  {
    Layers(Overlay(EmptyTree, Baseline(configType, datasets)),
      if configType == Default then Overlay(EmptyTree, defaultValues) else EmptyTree,
      EmptyTree)
  }

  /** add_user_configuration: the user's dict, its age perturbations
      formatted against the configuration so far, merged into the user
      layer. */
  function AddUserLayer(l: Layers, contents: Tree): (r: Result<Layers>)
    requires contents.Ordered()
  {
    var formatted :- FormatMisreport(ViewOf(l), contents);
    Ok(l.(user := Overlay(l.user, formatted)))
  }

  function ConfigurationFrom(configType: ConfigType, u: UserConfiguration, datasets: seq<DatasetDescriptor>, defaultValues: Tree): (r: Result<Layers>)
    requires WellFormedUser(u)
  {
    var l := GenerateLayers(configType, datasets, defaultValues);
    match UserContents(u)
    case None => Ok(l)
    case Some(contents) => AddUserLayer(l, contents)
  }

  /** get_configuration as written. */
  function ConfigurationAsWritten(u: UserConfiguration, datasets: seq<DatasetDescriptor>, defaultValues: Tree): (r: Result<Layers>)
    requires WellFormedUser(u)
    ensures u.PathString? && Lower(u.text) != NoNoiseName ==> r == Err(UnboundLocalError("config_type"))
    ensures !(u.PathString? && Lower(u.text) != NoNoiseName) ==> r == Configuration(u, datasets, defaultValues)
  {
    var selected :- SelectConfigTypeAsWritten(u);
    ConfigurationFrom(selected.0, selected.1, datasets, defaultValues)
  }

  /** get_configuration, corrected. */
  function Configuration(u: UserConfiguration, datasets: seq<DatasetDescriptor>, defaultValues: Tree): (r: Result<Layers>)
    requires WellFormedUser(u)
  {
    var selected := SelectConfigType(u);
    ConfigurationFrom(selected.0, selected.1, datasets, defaultValues)
  }

  /** "no_noise" in any case selects NO_NOISE and drops the user
      configuration, as written and corrected; any other str raises
      UnboundLocalError as written and is a path once corrected. */
  lemma ConfigTypeOfString(text: string, contents: Tree)
    ensures Lower(text) == NoNoiseName ==>
      && SelectConfigTypeAsWritten(PathString(text, contents)) == Ok((NoNoise, NoUserConfiguration))
      && SelectConfigType(PathString(text, contents)) == (NoNoise, NoUserConfiguration)
    ensures Lower(text) != NoNoiseName ==>
      && SelectConfigTypeAsWritten(PathString(text, contents)) == Err(UnboundLocalError("config_type"))
      && SelectConfigType(PathString(text, contents)) == (Default, PathString(text, contents))
  {
  }

  /** A YAML path given as a str: as written the call raises, corrected it
      reads the file. */
  lemma StringPathAsWrittenFails(contents: Tree, datasets: seq<DatasetDescriptor>, defaultValues: Tree)
    requires contents.Ordered()
    ensures ConfigurationAsWritten(PathString("config.yaml", contents), datasets, defaultValues) == Err(UnboundLocalError("config_type"))
    ensures Configuration(PathString("config.yaml", contents), datasets, defaultValues)
      == ConfigurationFrom(Default, PathString("config.yaml", contents), datasets, defaultValues)
  {
    assert Lower("config.yaml") != NoNoiseName by {
      assert Lower("config.yaml")[0] == 'c';
    }
  }

  lemma NoNoiseUpperCase()
    ensures Lower("NO_NOISE") == NoNoiseName
  {
  }

  /** Under "no_noise" the configuration is the baseline alone, so every
      declared row and cell probability reads 0.0. */
  lemma NoNoiseConfiguration(text: string, contents: Tree, datasets: seq<DatasetDescriptor>, defaultValues: Tree)
    requires Lower(text) == NoNoiseName && contents.Ordered()
    ensures var r := Configuration(PathString(text, contents), datasets, defaultValues);
      && r == Ok(Layers(Baseline(NoNoise, datasets), EmptyTree, EmptyTree))
      && ViewOf(r.value) == Baseline(NoNoise, datasets)
  {
    OverlayEmpty(Baseline(NoNoise, datasets));
  }

  /** Without a user configuration the user layer is empty, and the
      default values are a layer only in the default configuration type. */
  lemma LayersWithoutUser(configType: ConfigType, datasets: seq<DatasetDescriptor>, defaultValues: Tree)
    requires defaultValues.Node?
    ensures var r := ConfigurationFrom(configType, NoUserConfiguration, datasets, defaultValues);
      && r.Ok?
      && r.value.baseline == Baseline(configType, datasets)
      && r.value.defaults == (if configType == Default then defaultValues else EmptyTree)
      && r.value.user == EmptyTree
  {
    OverlayEmpty(Baseline(configType, datasets));
    OverlayEmpty(defaultValues);
  }

  /** Under "no_noise" every declared row probability reads 0.0. */
  lemma NoNoiseRowProbability(text: string, contents: Tree, datasets: seq<DatasetDescriptor>, defaultValues: Tree, i: nat, r: nat)
    requires Lower(text) == NoNoiseName && contents.Ordered()
    requires DistinctDatasets(datasets) && i < |datasets|
    requires DistinctRowTypes(datasets[i].rowNoiseTypes) && r < |datasets[i].rowNoiseTypes|
    requires datasets[i].rowNoiseTypes[r].rowProbability.Some?
    ensures var c := Configuration(PathString(text, contents), datasets, defaultValues);
      && c.Ok?
      && Lookup(ViewOf(c.value), [datasets[i].name, RowNoiseKey, datasets[i].rowNoiseTypes[r].name, RowProbability])
        == Some(Leaf(RealV(0.0)))
  {
    NoNoiseConfiguration(text, contents, datasets, defaultValues);
    BaselineRowProbability(NoNoise, datasets, i, r);
  }

  /** _generate_configuration. */
  method GenerateConfiguration(configType: ConfigType, datasets: seq<DatasetDescriptor>, defaultValues: Tree) returns (c: ConfigTree)
    ensures fresh(c) && c.Layered() == GenerateLayers(configType, datasets, defaultValues)
  {
    c := new ConfigTree();
    var baseline := GenerateBaseline(configType, datasets);
    c.Update(baseline, BaselineLayer);
    if configType == Default {
      c.Update(defaultValues, DefaultLayer);
    }
  }

  /** add_user_configuration, after the file is read and the dict is
      validated. */
  method AddUserConfiguration(c: ConfigTree, contents: Tree) returns (r: Outcome)
    requires contents.Ordered()
    modifies c
    ensures var s := AddUserLayer(old(c.Layered()), contents);
      && (r.Pass? <==> s.Ok?)
      && (s.Ok? ==> c.Layered() == s.value)
      && (s.Err? ==> r.error == s.error && c.Layered() == old(c.Layered()))
  {
    var formatted := FormatMisreportAgePerturbations(c.View(), contents);
    if formatted.Err? {
      return Fail(formatted.error);
    }
    c.Update(formatted.value, UserLayer);
    r := Pass;
  }

  /** get_configuration, with the configuration type chosen as corrected. */
  method GetConfiguration(u: UserConfiguration, datasets: seq<DatasetDescriptor>, defaultValues: Tree) returns (r: Result<ConfigTree>)
    requires WellFormedUser(u)
    ensures var s := Configuration(u, datasets, defaultValues);
      && (r.Ok? <==> s.Ok?)
      && (r.Ok? ==> fresh(r.value) && r.value.Layered() == s.value)
      && (r.Err? ==> r.error == s.error)
  {
    var selected := SelectConfigType(u);
    var c := GenerateConfiguration(selected.0, datasets, defaultValues);
    var contents := UserContents(selected.1);
    if contents.Some? {
      var o := AddUserConfiguration(c, contents.value);
      if o.Fail? {
        return Err(o.error);
      }
    }
    r := Ok(c);
  }
}
