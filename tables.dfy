/** The shared data model of the noising engine: table cells, columns
    (pandas Series), tables (pandas DataFrame), the errors the engine raises,
    and ordered configuration trees (ConfigTree / nested dicts). */
module Tables {

  /** A row label of a table's index. */
  type Label = int

  /** One cell: a missing value (NaN / None), a string, an integer or a
      calendar date (a datetime cell before it is formatted as a string). */
  datatype Cell = NA | Str(s: string) | Num(n: int) | Date(year: int, month: int, day: int)

  /** The engine's notion of missingness: NA or the empty string. */
  predicate IsMissing(c: Cell)
  {
    c == NA || c == Str("")
  }

  /** The exceptions the engine raises. */
  datatype Error =
    | ValueError(message: string)
    | KeyError(key: string)
    | TypeError(message: string)
    | ConfigurationError(message: string)
    | RuntimeError(message: string)
    | AttributeError(message: string)
    | UnboundLocalError(name: string)
    | IndexError
    | IndexingError(message: string)
    | ZeroDivisionError

  /** A value or the exception raised while computing it. */
  datatype Result<+T> = Ok(value: T) | Err(error: Error) {
    predicate IsFailure() { Err? }
    function PropagateFailure<U>(): Result<U> requires Err? { Err(error) }
    function Extract(): T requires Ok? { value }
  }

  datatype Option<+T> = None | Some(value: T)

  /** The outcome of a procedure that returns nothing but may raise. */
  datatype Outcome = Pass | Fail(error: Error) {
    predicate IsFailure() { Fail? }
    function PropagateFailure(): Outcome requires Fail? { this }
  }

  predicate Increasing(s: seq<Label>)
  {
    forall i, j :: 0 <= i < j < |s| ==> s[i] < s[j]
  }

  predicate Distinct<T(==)>(s: seq<T>)
  {
    forall i, j :: 0 <= i < j < |s| ==> s[i] != s[j]
  }

  /** Position of the first occurrence of x in s. */
  function IndexOf<T(==)>(s: seq<T>, x: T): (k: nat)
    requires x in s
    ensures k < |s| && s[k] == x && x !in s[..k]
  {
    if s[0] == x then 0 else 1 + IndexOf(s[1..], x)
  }

  /** A column (pandas Series): a name, an index of labels, one cell per
      label, and whether its dtype is categorical. */
  datatype Series = Series(name: string, index: seq<Label>, values: seq<Cell>, categorical: bool) {
    predicate Valid()
    {
      |index| == |values| && Increasing(index)
    }

    /** The value pandas aligns to label l when this series is assigned to
        a column or to a .loc selection: the cell at l, or NaN when l is not
        in this series' index. */
    function Aligned(l: Label): (c: Cell)
      ensures Valid() ==> forall i :: 0 <= i < |index| && index[i] == l ==> c == values[i]
      ensures l !in index ==> c == NA
    {
      if l in index && IndexOf(index, l) < |values| then values[IndexOf(index, l)] else NA
    }

    /** series.loc[labels] for labels drawn from the index, in the order given. */
    function Restrict(labels: seq<Label>): (s: Series)
      requires Valid() && forall l :: l in labels ==> l in index
      ensures s.name == name && s.index == labels && |s.values| == |labels| && s.categorical == categorical
      ensures forall k :: 0 <= k < |labels| ==> s.values[k] == Aligned(labels[k])
    {
      Series(name, labels, seq(|labels|, k requires 0 <= k < |labels| => Aligned(labels[k])), categorical)
    }

    /** series.astype(str): every cell becomes a string, NaN becoming "nan";
        the result is no longer categorical. */
    function AsStrings(): (s: Series)
      ensures s.name == name && s.index == index && |s.values| == |values| && !s.categorical
      ensures forall i :: 0 <= i < |values| ==> s.values[i] == Str(AsStr(values[i]))
    {
      Series(name, index, seq(|values|, i requires 0 <= i < |values| => Str(AsStr(values[i]))), false)
    }
  }

  /** One row of a table: its label and its cells by column name. */
  datatype Row = Row(key: Label, cells: map<string, Cell>)

  /** A table (pandas DataFrame): ordered column names, the names whose dtype
      is categorical, and the rows in index order. */
  datatype Frame = Frame(columns: seq<string>, categorical: set<string>, rows: seq<Row>) {
    function Index(): (ix: seq<Label>)
      ensures |ix| == |rows|
      ensures forall i :: 0 <= i < |rows| ==> ix[i] == rows[i].key
    {
      Labels(rows)
    }

    function ColumnSet(): set<string>
    {
      set c | c in columns
    }

    predicate Valid()
    {
      && Distinct(columns)
      && IncreasingRows(rows)
      && forall i :: 0 <= i < |rows| ==> rows[i].cells.Keys == ColumnSet()
    }

    /** data[c] for a column c of the table. */
    function Column(c: string): (s: Series)
      requires Valid() && c in columns
      ensures s.Valid() && s.name == c && s.index == Index() && |s.values| == |rows|
      ensures forall i :: 0 <= i < |rows| ==> s.values[i] == rows[i].cells[c]
    {
      Series(c, Index(), seq(|rows|, i requires 0 <= i < |rows| => rows[i].cells[c]), c in categorical)
    }

    /** data[c], which raises KeyError when c is not a column. */
    function GetColumn(c: string): (r: Result<Series>)
      requires Valid()
      ensures r.Ok? <==> c in columns
      ensures r.Ok? ==> r.value == Column(c)
      ensures r.Err? ==> r.error == KeyError(c)
    {
      if c in columns then Ok(Column(c)) else Err(KeyError(c))
    }

    /** data[c] = s: the series is aligned to the table's index by label
        (labels it lacks become NaN) and the column takes the series' dtype. */
    function WithColumn(c: string, s: Series): (f: Frame)
      requires Valid()
      ensures f.Valid()
      ensures f.columns == if c in columns then columns else columns + [c]
      ensures f.Index() == Index()
      ensures forall i, d :: 0 <= i < |rows| && d in rows[i].cells && d != c ==>
        f.rows[i].cells[d] == rows[i].cells[d]
      ensures forall i :: 0 <= i < |rows| ==> f.rows[i].cells[c] == s.Aligned(rows[i].key)
    {
      var cols := if c in columns then columns else columns + [c];
      var rs := seq(|rows|, i requires 0 <= i < |rows| =>
        Row(rows[i].key, rows[i].cells[c := s.Aligned(rows[i].key)]));
      var f := Frame(cols, if s.categorical then categorical + {c} else categorical - {c}, rs);
      assert f.Index() == Index();
      assert f.ColumnSet() == ColumnSet() + {c};
      f
    }

    /** data.loc[data.index.difference(drop)]: the rows whose label is not
        in drop. The index is increasing, so the sorted difference keeps the
        rows in their original order. */
    function DropRows(drop: set<Label>): (f: Frame)
      requires Valid()
      ensures f.Valid() && f.columns == columns && f.categorical == categorical
      ensures forall x :: x in f.rows <==> x in rows && x.key !in drop
      ensures |f.rows| <= |rows|
    {
      var rs := KeepRows(rows, drop);
      KeepRowsIncreasing(rows, drop);
      Frame(columns, categorical, rs)
    }
  }

  /** b has a's rows, labels and column names, and every cell outside the
      columns in changed is as it was in a. */
  predicate KeptExcept(a: Frame, b: Frame, changed: set<string>)
  {
    && |b.rows| == |a.rows| && b.columns == a.columns
    && (forall i :: 0 <= i < |a.rows| ==> b.rows[i].key == a.rows[i].key && b.rows[i].cells.Keys == a.rows[i].cells.Keys)
    && forall i, d :: 0 <= i < |a.rows| && d in a.rows[i].cells && d !in changed ==> b.rows[i].cells[d] == a.rows[i].cells[d]
  }

  lemma KeptExceptTransitive(a: Frame, b: Frame, c: Frame, s: set<string>, t: set<string>)
    requires KeptExcept(a, b, s) && KeptExcept(b, c, t)
    ensures KeptExcept(a, c, s + t)
  {
  }

  lemma KeptExceptWithColumn(a: Frame, c: string, s: Series)
    requires a.Valid() && c in a.columns
    ensures KeptExcept(a, a.WithColumn(c, s), {c})
  {
    var b := a.WithColumn(c, s);
    forall i | 0 <= i < |a.rows| ensures b.rows[i].key == a.rows[i].key && b.rows[i].cells.Keys == a.rows[i].cells.Keys {
      assert b.Index()[i] == a.Index()[i];
    }
  }

  /** The rows of rs whose label is not in drop, in order. */
  function KeepRows(rs: seq<Row>, drop: set<Label>): (r: seq<Row>)
    ensures |r| <= |rs|
    ensures forall x :: x in r <==> x in rs && x.key !in drop
    decreases |rs|
  {
    if rs == [] then []
    else (if rs[0].key in drop then [] else [rs[0]]) + KeepRows(rs[1..], drop)
  }

  function Labels(rs: seq<Row>): (ix: seq<Label>)
    ensures |ix| == |rs| && forall i :: 0 <= i < |rs| ==> ix[i] == rs[i].key
  {
    seq(|rs|, i requires 0 <= i < |rs| => rs[i].key)
  }

  /** Row keys strictly increase along the sequence. */
  predicate IncreasingRows(rs: seq<Row>)
  {
    forall i, j :: 0 <= i < j < |rs| ==> rs[i].key < rs[j].key
  }

  lemma {:induction false} KeepRowsIncreasing(rs: seq<Row>, drop: set<Label>)
    requires IncreasingRows(rs)
    ensures IncreasingRows(KeepRows(rs, drop))
    decreases |rs|
  {
    if rs != [] {
      var tail := rs[1..];
      assert IncreasingRows(tail);
      KeepRowsIncreasing(tail, drop);
      var k := KeepRows(tail, drop);
      if rs[0].key !in drop {
        forall x | x in k ensures x.key > rs[0].key {
          var j :| 0 <= j < |tail| && tail[j] == x;
          assert rs[j + 1] == x;
        }
        PrependRowIncreasing(rs[0], k);
      }
    }
  }

  lemma PrependRowIncreasing(x: Row, rs: seq<Row>)
    requires IncreasingRows(rs) && forall y :: y in rs ==> y.key > x.key
    ensures IncreasingRows([x] + rs)
  {
    var r := [x] + rs;
    forall i, j | 0 <= i < j < |r| ensures r[i].key < r[j].key {
      assert r[j] == rs[j - 1] && rs[j - 1] in rs;
      if i > 0 { assert r[i] == rs[i - 1]; }
    }
  }

  // ---------------------------------------------------------------------
  // Strings

  const Digits: string := "0123456789"

  predicate IsDigit(ch: char)
  {
    '0' <= ch <= '9'
  }

  /** The decimal spelling of a natural number. */
  function NatToString(n: nat): (s: string)
    ensures |s| >= 1 && forall i :: 0 <= i < |s| ==> IsDigit(s[i])
    decreases n
  {
    var d := [Digits[n % 10]];
    if n < 10 then d else NatToString(n / 10) + d
  }

  /** str(n) for a Python int. */
  function IntToString(n: int): string
  {
    if n < 0 then "-" + NatToString(-n) else NatToString(n)
  }

  /** Python's slice s[a:b] for non-negative bounds: bounds past the end
      are clamped to the length. */
  function Slice(s: string, a: nat, b: nat): (r: string)
    ensures |r| == if a >= b || a >= |s| then 0 else (if b <= |s| then b else |s|) - a
  {
    var hi := if b <= |s| then b else |s|;
    if a >= hi then "" else s[a..hi]
  }

  /** series.astype(str) for one cell: NaN is spelled "nan". */
  function AsStr(c: Cell): string
  {
    match c
    case NA => "nan"
    case Str(s) => s
    case Num(n) => IntToString(n)
    case Date(y, m, d) => IntToString(y) + "-" + IntToString(m) + "-" + IntToString(d)
  }

  // ---------------------------------------------------------------------
  // Ordered configuration trees (ConfigTree and the nested dicts it is built from)

  /** A leaf of a configuration tree. IntMapV is a dict with int keys in
      insertion order (an age-perturbation distribution). */
  datatype Value =
    | RealV(r: real)
    | IntV(i: int)
    | StrV(s: string)
    | RealsV(xs: seq<real>)
    | IntsV(ks: seq<int>)
    | IntMapV(order: seq<int>, probs: map<int, real>)

  /** A dict whose keys keep their insertion order, or a leaf value. */
  datatype Tree = Leaf(v: Value) | Node(keys: seq<string>, kids: map<string, Tree>) {
    /** Keys are distinct and are exactly the children's keys. */
    predicate Ordered()
    {
      Node? ==> Distinct(keys) && (set k | k in keys) == kids.Keys
    }

    /** key in tree (False for a leaf). */
    predicate Has(k: string)
    {
      Node? && k in kids
    }

    /** tree[key], which raises KeyError when the key is absent. */
    function Get(k: string): (r: Result<Tree>)
      ensures r.Ok? <==> Has(k)
      ensures r.Ok? ==> r.value == kids[k]
    {
      if Has(k) then Ok(kids[k]) else Err(KeyError(k))
    }

    /** tree.get(key, default). */
    function GetOr(k: string, d: Tree): Tree
    {
      if Has(k) then kids[k] else d
    }
  }

  const EmptyTree: Tree := Node([], map[])

  /** A numeric configuration value tree[key]: KeyError when absent,
      TypeError when the value is not a number. */
  function GetReal(t: Tree, k: string): (r: Result<real>)
    ensures r.Ok? ==> t.Has(k) && t.kids[k].Leaf? && (t.kids[k].v.RealV? || t.kids[k].v.IntV?)
    ensures r.Ok? && t.kids[k].v.RealV? ==> r.value == t.kids[k].v.r
    ensures r.Ok? && t.kids[k].v.IntV? ==> r.value == t.kids[k].v.i as real
    ensures !t.Has(k) ==> r == Err(KeyError(k))
    ensures r.Err? && t.Has(k) ==> r.error.TypeError?
  {
    var node :- t.Get(k);
    match node
    case Leaf(RealV(x)) => Ok(x)
    case Leaf(IntV(i)) => Ok(i as real)
    case _ => Err(TypeError("expected a number at " + k))
  }

  /** d[k] = v on a dict: an existing key keeps its position, a new key goes last. */
  function Put(t: Tree, k: string, v: Tree): (r: Tree)
    requires t.Node? && t.Ordered()
    ensures r.Node? && r.Ordered() && r.kids == t.kids[k := v]
    ensures r.keys == if k in t.kids then t.keys else t.keys + [k]
  {
    var ks := if k in t.kids then t.keys else t.keys + [k];
    var r := Node(ks, t.kids[k := v]);
    assert (set x | x in ks) == (set x | x in t.keys) + {k};
    r
  }
}
