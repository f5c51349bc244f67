/** The column-noise operations of the noise library that work on whole
    columns: wrong choices from an option list, month/day swaps, zipcode and
    digit corruption, age misreporting, nicknames, fake names and blanks.
    Each takes the table and the name of the column to noise and returns
    the noised column. */
module ColumnNoise {
  import opened Tables
  import opened Randomness
  import opened Utilities

  const TokenProbability: string := "token_probability"
  const ZipcodeDigitProbabilities: string := "zipcode_digit_probabilities"
  const PossibleAgeDifferences: string := "possible_age_differences"

  /** The draws get_draw hands out for positions 0, 1, ... under a key. */
  function PositionDraws(stream: Stream, key: string): nat -> real
  {
    i => stream.draw(key, i)
  }

  /** Cells of the given strings. */
  function StrCells(xs: seq<string>): (cs: seq<Cell>)
    ensures |cs| == |xs| && forall i :: 0 <= i < |xs| ==> cs[i] == Str(xs[i])
  {
    seq(|xs|, i requires 0 <= i < |xs| => Str(xs[i]))
  }

  // ---------------------------------------------------------------------
  // choose_wrong_options

  /** The option-list column a column draws from: both state columns share
      the "state" list. */
  function SelectionType(columnName: string): (t: string)
    ensures columnName == "employer_state" || columnName == "mailing_address_state" ==> t == "state"
    ensures columnName != "employer_state" && columnName != "mailing_address_state" ==> t == columnName
  {
    if columnName == "employer_state" || columnName == "mailing_address_state" then "state" else columnName
  }

  /** The non-missing entries of one column of the option table. */
  function NonNaOptions(xs: seq<Cell>): (r: seq<Cell>)
    ensures forall c :: c in r <==> c in xs && c != NA
  {
    if xs == [] then [] else (if xs[0] == NA then [] else [xs[0]]) + NonNaOptions(xs[1..])
  }

  /** The options and the draws of choose_wrong_options, before the result
      series is built: KeyError when the option table has no column for
      the selection type; otherwise one draw per row of the table. */
  function WrongOptionValues(data: Frame, stream: Stream, columnName: string,
                             optionTable: map<string, seq<Cell>>): (r: Result<seq<Cell>>)
    ensures SelectionType(columnName) !in optionTable ==> r == Err(KeyError(SelectionType(columnName)))
    ensures SelectionType(columnName) in optionTable ==>
      r == VectorizedChoice(NonNaOptions(optionTable[SelectionType(columnName)]), |data.rows|, true, None,
                            Some(columnName + "_incorrect_select_choice"), None,
                            PositionDraws(stream, columnName + "_incorrect_select_choice"))
  {
    var selection := SelectionType(columnName);
    if selection !in optionTable then Err(KeyError(selection))
    else
      var options := NonNaOptions(optionTable[selection]);
      var key := columnName + "_incorrect_select_choice";
      VectorizedChoice(options, |data.rows|, true, None, Some(key), None, PositionDraws(stream, key))
  }

  /** choose_wrong_options as written: after drawing, it builds the result
      as pd.Series(..., name=data.name) where data is the table. A table has
      no attribute `name` unless it has a column called "name", and then
      data.name is that column, which is not a valid series name. */
  function ChooseWrongOptionsAsWritten(data: Frame, stream: Stream, columnName: string,
                                       optionTable: map<string, seq<Cell>>): (r: Result<Series>)
    ensures r.Err?
  {
    var values :- WrongOptionValues(data, stream, columnName, optionTable);
    if "name" !in data.columns then Err(AttributeError("'DataFrame' object has no attribute 'name'"))
    else Err(TypeError("Series.name must be a hashable type"))
  }

  /** choose_wrong_options as intended: the result carries the column's
      name and the table's index, and every value is one of the non-missing
      options (possibly the original value). */
  function ChooseWrongOptions(data: Frame, stream: Stream, columnName: string,
                              optionTable: map<string, seq<Cell>>): (r: Result<Series>)
    requires data.Valid()
    ensures r.Ok? <==> WrongOptionValues(data, stream, columnName, optionTable).Ok?
    ensures r.Ok? ==> r.value.Valid() && r.value.name == columnName && r.value.index == data.Index()
    ensures r.Ok? ==> forall j :: 0 <= j < |data.rows| ==>
      r.value.values[j] in optionTable[SelectionType(columnName)] && r.value.values[j] != NA
  {
    var values :- WrongOptionValues(data, stream, columnName, optionTable);
    var options := NonNaOptions(optionTable[SelectionType(columnName)]);
    assert forall j :: 0 <= j < |values| ==> values[j] in options;
    Ok(Series(columnName, data.Index(), values, false))
  }

  /** Every input makes the as-written version raise, while the intended
      version succeeds on a valid table whose option column has a
      non-missing entry, when the draws lie in [0, 1). */
  lemma ChooseWrongOptionsDiscrepancy(data: Frame, stream: Stream, columnName: string,
                                      optionTable: map<string, seq<Cell>>)
    requires data.Valid() && stream.Valid()
    requires SelectionType(columnName) in optionTable
    requires exists c :: c in optionTable[SelectionType(columnName)] && c != NA
    ensures ChooseWrongOptionsAsWritten(data, stream, columnName, optionTable).Err?
    ensures ChooseWrongOptions(data, stream, columnName, optionTable).Ok?
  {
    var key := columnName + "_incorrect_select_choice";
    var options := NonNaOptions(optionTable[SelectionType(columnName)]);
    var c :| c in optionTable[SelectionType(columnName)] && c != NA;
    assert c in options;
    forall i: nat | i < |data.rows| ensures 0.0 <= PositionDraws(stream, key)(i) < 1.0 {
      assert PositionDraws(stream, key)(i) == stream.draw(key, i);
    }
    VectorizedChoiceSucceeds(options, |data.rows|, true, None, Some(key), None, PositionDraws(stream, key));
  }

  // ---------------------------------------------------------------------
  // swap_months_and_days

  /** The date formats of the schema (metadata DATEFORMATS). */
  datatype DateFormat = YYYYMMDD | MM_DD_YYYY | MMDDYYYY | OtherFormat(spec: string)

  /** The schema entry of a column: its name and its date-format attribute,
      if it has one. */
  datatype ColumnSchema = ColumnSchema(name: string, dateFormat: Option<DateFormat>)

  /** COLUMNS.get_column: the first schema column of that name; IndexError
      when there is none. */
  function GetSchemaColumn(schema: seq<ColumnSchema>, name: string): (r: Result<ColumnSchema>)
    ensures r.Ok? <==> exists c :: c in schema && c.name == name
    ensures r.Ok? ==> r.value in schema && r.value.name == name
    ensures r.Err? ==> r.error == IndexError
  {
    if schema == [] then Err(IndexError)
    else if schema[0].name == name then Ok(schema[0])
    else
      var rest := GetSchemaColumn(schema[1..], name);
      assert forall c :: c in schema[1..] ==> c in schema;
      assert forall c :: c in schema && c.name == name ==> c in schema[1..];
      rest
  }

  /** The month/day swap of one date string. YYYYMMDD: year s[:4], then the
      day s[6:], then the month s[4:6]. MM/DD/YYYY: the day s[3:6], then the
      month s[:3], then the year s[6:]. */
  function SwapString(format: DateFormat, s: string): string
    requires format == YYYYMMDD || format == MM_DD_YYYY
  {
    if format == YYYYMMDD then Slice(s, 0, 4) + Slice(s, 6, |s|) + Slice(s, 4, 6)
    else Slice(s, 3, 6) + Slice(s, 0, 3) + Slice(s, 6, |s|)
  }

  /** A swap never changes the length of a string. */
  lemma SwapPreservesLength(format: DateFormat, s: string)
    requires format == YYYYMMDD || format == MM_DD_YYYY
    ensures |SwapString(format, s)| == |s|
  {
  }

  /** Swapping twice restores every 8-character YYYYMMDD string and every
      MM/DD/YYYY string of at least 6 characters (all 10-character ones). */
  lemma SwapInvolution(format: DateFormat, s: string)
    requires format == YYYYMMDD ==> |s| == 8
    requires format == MM_DD_YYYY ==> |s| >= 6
    requires format == YYYYMMDD || format == MM_DD_YYYY
    ensures SwapString(format, SwapString(format, s)) == s
  {
    var t := SwapString(format, s);
    if format == YYYYMMDD {
      assert t == s[..4] + s[6..] + s[4..6];
      assert Slice(t, 0, 4) == s[..4] && Slice(t, 6, 8) == s[4..6] && Slice(t, 4, 6) == s[6..];
      assert s == s[..4] + s[4..6] + s[6..];
    } else {
      assert t == s[3..6] + s[..3] + s[6..];
      assert Slice(t, 3, 6) == s[..3] && Slice(t, 0, 3) == s[3..6] && Slice(t, 6, |t|) == s[6..];
      assert s == s[..3] + s[3..6] + s[6..];
    }
  }

  /** One cell of the swapped column: the .str accessor yields NaN for a
      cell that is not a string, and NaN survives the concatenation. */
  function SwapCell(format: DateFormat, c: Cell): (d: Cell)
    requires format == YYYYMMDD || format == MM_DD_YYYY
    ensures c.Str? ==> d == Str(SwapString(format, c.s))
    ensures !c.Str? ==> d == NA
  {
    if c.Str? then Str(SwapString(format, c.s)) else NA
  }

  /** swap_months_and_days: IndexError for a column the schema does not
      know, ConfigurationError for one without a date format, KeyError for
      a column the table lacks, ValueError for a format other than YYYYMMDD
      and MM/DD/YYYY; otherwise every string cell has its month and day
      swapped, in place in the string. */
  function SwapMonthsAndDays(data: Frame, schema: seq<ColumnSchema>, columnName: string): (r: Result<Series>)
    requires data.Valid()
    ensures GetSchemaColumn(schema, columnName).Err? ==> r == Err(IndexError)
    ensures GetSchemaColumn(schema, columnName).Ok? && GetSchemaColumn(schema, columnName).value.dateFormat.None? ==>
      r.Err? && r.error.ConfigurationError?
    ensures (&& GetSchemaColumn(schema, columnName).Ok?
             && GetSchemaColumn(schema, columnName).value.dateFormat.Some?
             && columnName !in data.columns) ==>
      r == Err(KeyError(columnName))
    ensures (&& GetSchemaColumn(schema, columnName).Ok?
             && GetSchemaColumn(schema, columnName).value.dateFormat.Some?
             && GetSchemaColumn(schema, columnName).value.dateFormat !in {Some(YYYYMMDD), Some(MM_DD_YYYY)}
             && columnName in data.columns) ==>
      r.Err? && r.error.ValueError?
    ensures r.Ok? <==>
      (&& GetSchemaColumn(schema, columnName).Ok?
       && GetSchemaColumn(schema, columnName).value.dateFormat in {Some(YYYYMMDD), Some(MM_DD_YYYY)}
       && columnName in data.columns)
    ensures r.Ok? ==> r.value.Valid() && r.value.index == data.Index() && r.value.name == columnName
    ensures r.Ok? ==> forall j :: 0 <= j < |data.rows| ==>
      r.value.values[j] == SwapCell(GetSchemaColumn(schema, columnName).value.dateFormat.value,
                                    data.rows[j].cells[columnName])
  {
    var column :- GetSchemaColumn(schema, columnName);
    if column.dateFormat.None? then
      Err(ConfigurationError("Error while running noise function `swap_months_and_days' on column '" + columnName +
                             "'. '" + columnName + "' does not have attribute date format. "))
    else
      var format := column.dateFormat.value;
      var series :- data.GetColumn(columnName);
      if format != YYYYMMDD && format != MM_DD_YYYY then
        Err(ValueError("Invalid datetime format in " + columnName + ".  Please check input data."))
      else
        Ok(Series(series.name, series.index, seq(|series.values|, j requires 0 <= j < |series.values| =>
          SwapCell(format, series.values[j])), series.categorical))
  }

  /** Swapped date strings keep their length, and the swap undoes itself on
      well-formed dates. */
  lemma SwapMonthsAndDaysRoundTrip(data: Frame, schema: seq<ColumnSchema>, columnName: string, j: nat)
    requires data.Valid() && SwapMonthsAndDays(data, schema, columnName).Ok? && j < |data.rows|
    requires data.rows[j].cells[columnName].Str?
    ensures var format := GetSchemaColumn(schema, columnName).value.dateFormat.value;
      var s := data.rows[j].cells[columnName].s;
      var out := SwapMonthsAndDays(data, schema, columnName).value.values[j];
      out.Str? && |out.s| == |s| &&
      ((format == YYYYMMDD && |s| == 8) || (format == MM_DD_YYYY && |s| == 10) ==> SwapString(format, out.s) == s)
  {
    var format := GetSchemaColumn(schema, columnName).value.dateFormat.value;
    var s := data.rows[j].cells[columnName].s;
    SwapPreservesLength(format, s);
    if (format == YYYYMMDD && |s| == 8) || (format == MM_DD_YYYY && |s| == 10) {
      SwapInvolution(format, s);
    }
  }

  // ---------------------------------------------------------------------
  // write_wrong_zipcode_digits

  /** p / (1 - 1/10): the scale-up for redraws that land on the same digit. */
  function ZipThreshold(p: real): real
  {
    p * 10.0 / 9.0
  }

  /** A list of probabilities held in the configuration (ints allowed). */
  function GetReals(t: Tree, k: string): (r: Result<seq<real>>)
    ensures !t.Has(k) ==> r == Err(KeyError(k))
    ensures r.Ok? ==> t.Has(k) && t.kids[k].Leaf? && (t.kids[k].v.RealsV? || t.kids[k].v.IntsV?)
    ensures r.Ok? && t.kids[k].v.RealsV? ==> r.value == t.kids[k].v.xs
    ensures r.Ok? && t.kids[k].v.IntsV? ==>
      (|r.value| == |t.kids[k].v.ks| && forall i :: 0 <= i < |r.value| ==> r.value[i] == t.kids[k].v.ks[i] as real)
  {
    var node :- t.Get(k);
    match node
    case Leaf(RealsV(xs)) => Ok(xs)
    case Leaf(IntsV(ks)) => Ok(seq(|ks|, i requires 0 <= i < |ks| => ks[i] as real))
    case _ => Err(TypeError("expected a list of numbers at " + k))
  }

  /** numpy broadcasting of the configured list against the five digit
      positions: five values, or one value for every position. */
  function DigitProbabilities(xs: seq<real>): (r: Result<seq<real>>)
    ensures r.Ok? <==> |xs| == 5 || |xs| == 1
    ensures r.Ok? ==> |r.value| == 5 && forall i :: 0 <= i < 5 ==> r.value[i] == xs[if |xs| == 1 then 0 else i]
  {
    if |xs| == 5 then Ok(xs)
    else if |xs| == 1 then Ok([xs[0], xs[0], xs[0], xs[0], xs[0]])
    else Err(ValueError("operands could not be broadcast together"))
  }

  predicate IsZipString(c: Cell)
  {
    c.Str? && |c.s| == 5
  }

  predicate AllZipStrings(cs: seq<Cell>)
  {
    forall j :: 0 <= j < |cs| ==> IsZipString(cs[j])
  }

  /** The per-position probabilities of the configuration. */
  function ZipProbabilities(configuration: Tree): (r: Result<seq<real>>)
    ensures r.Ok? ==> |r.value| == 5
    ensures !configuration.Has(ZipcodeDigitProbabilities) ==> r == Err(KeyError(ZipcodeDigitProbabilities))
  {
    var listed :- GetReals(configuration, ZipcodeDigitProbabilities);
    DigitProbabilities(listed)
  }

  /** Position i of row j of the noised zipcodes: generator call 5j+i of
      random decides, against the scaled position probability, whether call
      5n+5j+i of choice over the ten digits replaces the original digit. */
  function ZipDigit(rng: Rng, n: nat, j: nat, i: nat, p: real, original: char): char
    requires rng.Valid()
  {
    if rng.uniform(5 * j + i) < ZipThreshold(p) then Digits[rng.pick(5 * n + 5 * j + i, 10)] else original
  }

  /** The noised zipcode of row j out of n. */
  function NoisedZipcode(rng: Rng, n: nat, j: nat, p: seq<real>, s: string): (t: string)
    requires rng.Valid() && |p| == 5 && |s| == 5
    ensures |t| == 5 && forall i :: 0 <= i < 5 ==> t[i] == ZipDigit(rng, n, j, i, p[i], s[i])
  {
    seq(5, i requires 0 <= i < 5 => ZipDigit(rng, n, j, i, p[i], s[i]))
  }

  /** The noised column of zipcodes. */
  function NoisedZipcodes(rng: Rng, zips: seq<Cell>, p: seq<real>): (cs: seq<Cell>)
    requires rng.Valid() && |p| == 5 && AllZipStrings(zips)
    ensures |cs| == |zips|
  {
    seq(|zips|, j requires 0 <= j < |zips| => assert IsZipString(zips[j]); Str(NoisedZipcode(rng, |zips|, j, p, zips[j].s)))
  }

  /** write_wrong_zipcode_digits: KeyError for a missing column, ValueError
      when some value is not a 5-character string, then the configured
      per-position probabilities (KeyError, TypeError or a broadcasting
      ValueError); otherwise each position of each zipcode is kept or
      replaced by a random digit as ZipDigit says. */
  method WriteWrongZipcodeDigits(data: Frame, configuration: Tree, rng: Rng, columnName: string)
    returns (r: Result<Series>)
    requires data.Valid() && rng.Valid()
    ensures columnName !in data.columns ==> r == Err(KeyError(columnName))
    ensures columnName in data.columns && !AllZipStrings(data.Column(columnName).values) ==>
      r.Err? && r.error.ValueError?
    ensures columnName in data.columns && AllZipStrings(data.Column(columnName).values) ==>
      (r.Ok? <==> ZipProbabilities(configuration).Ok?)
    ensures r.Ok? ==>
      && columnName in data.columns
      && AllZipStrings(data.Column(columnName).values)
      && ZipProbabilities(configuration).Ok?
      && r.value == Series(columnName, data.Index(),
                           NoisedZipcodes(rng, data.Column(columnName).values, ZipProbabilities(configuration).value), false)
  {
    if columnName !in data.columns { return Err(KeyError(columnName)); }
    var column := data.Column(columnName);
    var n := |column.values|;
    if !AllZipStrings(column.values) {
      return Err(ValueError("Zipcode data contains zipcodes that are not 5 digits long. Please check input data."));
    }
    var p :- ZipProbabilities(configuration);
    var digits := DigitColumns(rng, column.values, p);
    AssembledZipcodes(rng, column.values, p, digits);
    r := Ok(Series(columnName, column.index, StrCells(ConcatenateDigits(digits, n)), false));
  }

  /** The five columns of new characters: digits[i][j] is position i of
      row j. */
  method DigitColumns(rng: Rng, zips: seq<Cell>, p: seq<real>) returns (digits: seq<seq<char>>)
    requires rng.Valid() && |p| == 5 && AllZipStrings(zips)
    ensures |digits| == 5 && forall i :: 0 <= i < 5 ==> |digits[i]| == |zips|
    ensures forall i, j :: 0 <= i < 5 && 0 <= j < |zips| ==> digits[i][j] == ZipDigit(rng, |zips|, j, i, p[i], zips[j].s[i])
  {
    var n := |zips|;
    digits := [];
    for i := 0 to 5
      invariant |digits| == i
      invariant forall i' :: 0 <= i' < i ==> |digits[i']| == n
      invariant forall i', j :: 0 <= i' < i && 0 <= j < n ==> digits[i'][j] == ZipDigit(rng, n, j, i', p[i'], zips[j].s[i'])
    {
      var digit := seq(n, j requires 0 <= j < n => assert IsZipString(zips[j]); ZipDigit(rng, n, j, i, p[i], zips[j].s[i]));
      digits := digits + [digit];
    }
  }

  /** digits[0] + ... + digits[4], row by row. */
  function ConcatenateDigits(digits: seq<seq<char>>, n: nat): (zs: seq<string>)
    requires |digits| == 5 && forall i :: 0 <= i < 5 ==> |digits[i]| == n
    ensures |zs| == n
  {
    seq(n, j requires 0 <= j < n => [digits[0][j], digits[1][j], digits[2][j], digits[3][j], digits[4][j]])
  }

  lemma AssembledZipcodes(rng: Rng, zips: seq<Cell>, p: seq<real>, digits: seq<seq<char>>)
    requires rng.Valid() && |p| == 5 && AllZipStrings(zips)
    requires |digits| == 5 && forall i :: 0 <= i < 5 ==> |digits[i]| == |zips|
    requires forall i, j :: 0 <= i < 5 && 0 <= j < |zips| ==> digits[i][j] == ZipDigit(rng, |zips|, j, i, p[i], zips[j].s[i])
    ensures StrCells(ConcatenateDigits(digits, |zips|)) == NoisedZipcodes(rng, zips, p)
  {
    var zs := ConcatenateDigits(digits, |zips|);
    forall j | 0 <= j < |zips| ensures zs[j] == NoisedZipcode(rng, |zips|, j, p, zips[j].s) {
      assert IsZipString(zips[j]);
    }
  }

  /** Every configured probability is a property of one position: cell j of
      the noised column is a 5-digit string whose i-th character is
      ZipDigit of the original's i-th character. */
  lemma NoisedZipcodesAt(rng: Rng, zips: seq<Cell>, p: seq<real>, j: nat, i: nat)
    requires rng.Valid() && |p| == 5 && AllZipStrings(zips)
    requires j < |zips| && i < 5
    ensures NoisedZipcodes(rng, zips, p)[j].Str? && |NoisedZipcodes(rng, zips, p)[j].s| == 5
    ensures NoisedZipcodes(rng, zips, p)[j].s[i] == ZipDigit(rng, |zips|, j, i, p[i], zips[j].s[i])
  {
  }

  /** Zero probabilities never change a digit; probabilities of 0.9 or more
      (scaled to at least 1) replace every digit by a random one. */
  lemma ZipDigitExtremes(rng: Rng, n: nat, j: nat, i: nat, p: real, original: char)
    requires rng.Valid()
    ensures p <= 0.0 ==> ZipDigit(rng, n, j, i, p, original) == original
    ensures p >= 0.9 ==> ZipDigit(rng, n, j, i, p, original) == Digits[rng.pick(5 * n + 5 * j + i, 10)]
  {
    var u := rng.uniform(5 * j + i);
    assert 0.0 <= u < 1.0;
  }

  // ---------------------------------------------------------------------
  // misreport_ages

  /** series.astype(int) for one cell: a number, or a string int() accepts;
      NaN and other strings raise ValueError, a date TypeError. */
  function AsInt(c: Cell): (r: Result<int>)
    ensures c.Num? ==> r == Ok(c.n)
    ensures c.Str? && ParseInt(c.s).Some? ==> r == Ok(ParseInt(c.s).value)
    ensures c.Str? && ParseInt(c.s).None? ==> r.Err? && r.error.ValueError?
    ensures c == NA ==> r.Err? && r.error.ValueError?
    ensures c.Date? ==> r.Err? && r.error.TypeError?
  {
    match c
    case Num(n) => Ok(n)
    case Str(s) => if ParseInt(s).Some? then Ok(ParseInt(s).value) else Err(ValueError("invalid literal for int() with base 10: '" + s + "'"))
    case NA => Err(ValueError("cannot convert float NaN to integer"))
    case Date(_, _, _) => Err(TypeError("cannot convert a date to integer"))
  }

  function DigitValue(ch: char): nat
    requires IsDigit(ch)
  {
    (ch as int - '0' as int) as nat
  }

  function ParseNat(s: string): (n: nat)
    requires forall i :: 0 <= i < |s| ==> IsDigit(s[i])
  {
    if s == [] then 0 else 10 * ParseNat(s[..|s| - 1]) + DigitValue(s[|s| - 1])
  }

  predicate AllDigits(s: string)
  {
    forall i :: 0 <= i < |s| ==> IsDigit(s[i])
  }

  /** Digits with single underscores between them, as int() reads a literal. */
  predicate DigitGroups(s: string)
    decreases |s|
  {
    && |s| > 0 && IsDigit(s[0])
    && (|| |s| == 1
        || (IsDigit(s[1]) && DigitGroups(s[1..]))
        || (s[1] == '_' && DigitGroups(s[2..])))
  }

  /** The digits of a literal, its underscores dropped. */
  function DigitsOf(s: string): (t: string)
    ensures AllDigits(t)
    ensures AllDigits(s) ==> t == s
  {
    if s == [] then []
    else (if IsDigit(s[0]) then [s[0]] else []) + DigitsOf(s[1..])
  }

  /** int(s) for a str: surrounding whitespace is ignored. */
  function ParseInt(s: string): (r: Option<int>)
    ensures r == ParseLiteral(Strip(s))
  {
    ParseLiteral(Strip(s))
  }

  /** An optional sign and decimal digits, possibly grouped by single
      underscores; anything else is not an int literal. */
  function ParseLiteral(t: string): (r: Option<int>)
    ensures r.Some? <==>
      (|| DigitGroups(t)
       || (|t| > 0 && (t[0] == '-' || t[0] == '+') && DigitGroups(t[1..])))
  {
    if |t| > 0 && (t[0] == '-' || t[0] == '+') then
      if DigitGroups(t[1..]) then
        var m := ParseNat(DigitsOf(t[1..]));
        Some(if t[0] == '-' then -(m as int) else m)
      else None
    else if DigitGroups(t) then Some(ParseNat(DigitsOf(t)))
    else None
  }

  /** The digits of a natural number parse back to it. */
  lemma {:induction false} ParseNatToString(n: nat)
    ensures AllDigits(NatToString(n)) && ParseNat(NatToString(n)) == n
    decreases n
  {
    var d := [Digits[n % 10]];
    if n >= 10 {
      ParseNatToString(n / 10);
      var s := NatToString(n / 10) + d;
      assert s[..|s| - 1] == NatToString(n / 10);
    }
  }

  /** int(str(n)) == n. */
  lemma ParseIntToString(n: int)
    ensures ParseInt(IntToString(n)) == Some(n)
  {
    var m: nat := if n < 0 then -n else n;
    var digits := NatToString(m);
    ParseNatToString(m);
    if n < 0 {
      ParseSigned(digits, m);
      assert IntToString(n) == "-" + digits;
    } else {
      ParseUnsigned(digits, m);
      assert IntToString(n) == digits;
    }
  }

  /** int("-" + digits) is the negated number the digits spell. */
  lemma ParseSigned(digits: string, v: nat)
    requires |digits| > 0 && AllDigits(digits) && v == ParseNat(digits)
    ensures ParseInt("-" + digits) == Some(-(v as int))
  {
    StripSigned(digits);
    NegatedLiteral(digits, v);
  }

  /** A minus sign before a run of digits leaves nothing to strip. */
  lemma StripSigned(digits: string)
    requires |digits| > 0 && AllDigits(digits)
    ensures Strip("-" + digits) == "-" + digits
  {
    var s := "-" + digits;
    assert IsDigit(digits[|digits| - 1]) && s[|s| - 1] == digits[|digits| - 1];
    assert !IsSpace(s[0]) && !IsSpace(s[|s| - 1]);
  }

  /** A minus sign before a run of digits negates it. */
  lemma NegatedLiteral(digits: string, v: nat)
    requires |digits| > 0 && AllDigits(digits) && v == ParseNat(digits)
    ensures ParseLiteral("-" + digits) == Some(-(v as int))
  {
    var s := "-" + digits;
    PlainLiteral(digits);
    assert s[1..] == digits;
  }

  /** int(digits) is the number the digits spell. */
  lemma ParseUnsigned(digits: string, v: nat)
    requires |digits| > 0 && AllDigits(digits) && v == ParseNat(digits)
    ensures ParseInt(digits) == Some(v)
  {
    StripDigits(digits);
    UnsignedLiteral(digits, v);
  }

  /** A run of digits reads as the number it spells. */
  lemma UnsignedLiteral(digits: string, v: nat)
    requires |digits| > 0 && AllDigits(digits) && v == ParseNat(digits)
    ensures ParseLiteral(digits) == Some(v)
  {
    PlainLiteral(digits);
  }

  /** A non-empty run of digits is its own stripped form. */
  lemma StripDigits(s: string)
    requires |s| > 0 && AllDigits(s)
    ensures Strip(s) == s
  {
    assert IsDigit(s[0]) && IsDigit(s[|s| - 1]);
  }

  /** A non-empty run of digits is an ungrouped literal. */
  lemma {:induction false} PlainLiteral(s: string)
    requires |s| > 0 && AllDigits(s)
    ensures DigitGroups(s) && DigitsOf(s) == s
    decreases |s|
  {
    if |s| > 1 {
      PlainLiteral(s[1..]);
    }
  }

  /** The age of one row after perturbation d: reflected when negative, one
      less when it would equal the original. */
  function MisreportAge(age: int, d: int): int
  {
    var reflected := if age + d < 0 then -(age + d) else age + d;
    if reflected == age then reflected - 1 else reflected
  }

  /** A non-zero perturbation of a non-negative age gives a non-negative age
      different from the original. */
  lemma MisreportAgeProperties(age: int, d: int)
    requires d != 0 && age >= 0
    ensures MisreportAge(age, d) >= 0 && MisreportAge(age, d) != age
  {
  }

  /** The perturbation distribution of the configuration, as options and
      weights in the dict's order: KeyError when absent, AttributeError when
      it is not a dict. */
  function AgeDifferences(configuration: Tree): (r: Result<(seq<int>, seq<real>)>)
    ensures r.Ok? ==> |r.value.0| == |r.value.1|
    ensures !configuration.Has(PossibleAgeDifferences) ==> r == Err(KeyError(PossibleAgeDifferences))
  {
    var node :- configuration.Get(PossibleAgeDifferences);
    if node.Leaf? && node.v.IntMapV? && forall k :: k in node.v.order ==> k in node.v.probs then
      var order := node.v.order;
      Ok((order, seq(|order|, i requires 0 <= i < |order| => node.v.probs[order[i]])))
    else Err(AttributeError("'" + PossibleAgeDifferences + "' has no attribute 'to_dict'"))
  }

  /** The perturbations of misreport_ages: one draw per row from the
      configured distribution under "<column>_<column>_miswrite_ages". */
  function AgePerturbations(configuration: Tree, stream: Stream, columnName: string, n: nat): (r: Result<seq<int>>)
    requires AgeWeightsAdmissible(configuration)
    ensures AgeDifferences(configuration).Err? ==> r == Err(AgeDifferences(configuration).error)
    ensures r.Ok? ==> |r.value| == n && forall j :: 0 <= j < n ==> r.value[j] in AgeDifferences(configuration).value.0
  {
    var dist :- AgeDifferences(configuration);
    var (options, weights) := dist;
    var key := columnName + "_" + columnName + "_miswrite_ages";
    VectorizedChoice(options, n, true, Some(weights), Some(key), None, PositionDraws(stream, key))
  }

  /** The configured perturbation weights, when present, are non-negative
      with a positive sum, as validated configurations are. */
  predicate AgeWeightsAdmissible(configuration: Tree)
  {
    AgeDifferences(configuration).Ok? ==> Admissible(AgeDifferences(configuration).value.1)
  }

  /** series.astype(int): the first cell that does not convert raises. */
  function AgeValues(cs: seq<Cell>): (r: Result<seq<int>>)
    ensures r.Ok? <==> forall j :: 0 <= j < |cs| ==> AsInt(cs[j]).Ok?
    ensures r.Ok? ==> |r.value| == |cs| && forall j :: 0 <= j < |cs| ==> r.value[j] == AsInt(cs[j]).value
  {
    if cs == [] then Ok([])
    else
      var head :- AsInt(cs[0]);
      var rest :- AgeValues(cs[1..]);
      assert forall j :: 1 <= j < |cs| ==> cs[j] == cs[1..][j - 1];
      Ok([head] + rest)
  }

  /** The vectorised arithmetic of misreport_ages on an array: add, reflect
      the negative entries, then lower the entries equal to the original. */
  method PerturbAges(original: seq<int>, d: seq<int>) returns (misreported: seq<int>)
    requires |original| == |d|
    ensures |misreported| == |original|
    ensures forall j :: 0 <= j < |original| ==> misreported[j] == MisreportAge(original[j], d[j])
  {
    var n := |original|;
    var ages := new int[n](j requires 0 <= j < n => original[j] + d[j]);
    forall j | 0 <= j < n && ages[j] < 0 {
      ages[j] := -ages[j];
    }
    forall j | 0 <= j < n && ages[j] == original[j] {
      ages[j] := ages[j] - 1;
    }
    misreported := ages[..];
  }

  /** misreport_ages: KeyError for a missing column, the configuration's
      errors, then the conversion errors of astype(int); otherwise every age
      becomes MisreportAge of its integer value and its perturbation. */
  method MisreportAges(data: Frame, configuration: Tree, stream: Stream, columnName: string)
    returns (r: Result<Series>)
    requires data.Valid() && AgeWeightsAdmissible(configuration)
    ensures columnName !in data.columns ==> r == Err(KeyError(columnName))
    ensures r.Ok? <==>
      (&& columnName in data.columns
       && AgePerturbations(configuration, stream, columnName, |data.rows|).Ok?
       && AgeValues(data.Column(columnName).values).Ok?)
    ensures r.Ok? ==> r.value.Valid() && r.value.index == data.Index() && r.value.name == columnName
    ensures r.Ok? ==> |r.value.values| == |data.rows| && forall j :: 0 <= j < |data.rows| ==>
      r.value.values[j] == Num(MisreportAge(AgeValues(data.Column(columnName).values).value[j],
                                            AgePerturbations(configuration, stream, columnName, |data.rows|).value[j]))
  {
    if columnName !in data.columns { return Err(KeyError(columnName)); }
    var column := data.Column(columnName);
    var perturbations :- AgePerturbations(configuration, stream, columnName, |column.values|);
    var original :- AgeValues(column.values);
    var misreported := PerturbAges(original, perturbations);
    r := Ok(Series(columnName, column.index, NumCells(misreported), false));
  }

  function NumCells(xs: seq<int>): (cs: seq<Cell>)
    ensures |cs| == |xs| && forall i :: 0 <= i < |xs| ==> cs[i] == Num(xs[i])
  {
    seq(|xs|, i requires 0 <= i < |xs| => Num(xs[i]))
  }

  /** With a distribution that excludes 0 (the configuration validator
      rejects 0) and non-negative ages, every misreported age is a
      non-negative age different from the true one. */
  lemma MisreportAgesChangeEveryAge(configuration: Tree, stream: Stream, columnName: string, ages: seq<int>, j: nat)
    requires AgeWeightsAdmissible(configuration)
    requires AgePerturbations(configuration, stream, columnName, |ages|).Ok?
    requires 0 !in AgeDifferences(configuration).value.0
    requires j < |ages| && ages[j] >= 0
    ensures var d := AgePerturbations(configuration, stream, columnName, |ages|).value[j];
      MisreportAge(ages[j], d) >= 0 && MisreportAge(ages[j], d) != ages[j]
  {
    MisreportAgeProperties(ages[j], AgePerturbations(configuration, stream, columnName, |ages|).value[j]);
  }

  // ---------------------------------------------------------------------
  // write_wrong_digits

  predicate IsSpace(ch: char)
  {
    ch == ' ' || ch == '\t' || ch == '\n' || ch == '\r' || ch == 11 as char || ch == 12 as char
  }

  /** str.strip(): drop whitespace at both ends. */
  function Strip(s: string): (t: string)
    ensures |t| <= |s|
    ensures |s| > 0 && !IsSpace(s[0]) && !IsSpace(s[|s| - 1]) ==> t == s
  {
    StripRight(StripLeft(s))
  }

  function StripLeft(s: string): (t: string)
    ensures |t| <= |s| && (|s| > 0 && !IsSpace(s[0]) ==> t == s)
    ensures t == [] || !IsSpace(t[0])
    ensures t == s[|s| - |t|..]
  {
    if s != [] && IsSpace(s[0]) then StripLeft(s[1..]) else s
  }

  function StripRight(s: string): (t: string)
    ensures |t| <= |s| && (|s| > 0 && !IsSpace(s[|s| - 1]) ==> t == s)
    ensures t == s[..|t|]
  {
    if s != [] && IsSpace(s[|s| - 1]) then StripRight(s[..|s| - 1]) else s
  }

  /** Trailing blanks after a string that neither starts nor ends with
      whitespace are all that strip removes. */
  lemma {:induction false} StripPadded(s: string, pad: nat)
    requires s == [] || (!IsSpace(s[0]) && !IsSpace(s[|s| - 1]))
    ensures Strip(s + Spaces(pad)) == s
    decreases pad
  {
    if pad == 0 {
      assert s + Spaces(0) == s;
      if s == [] { assert StripLeft(s) == s; }
    } else {
      var t := s + Spaces(pad);
      assert t == (s + Spaces(pad - 1)) + [' '];
      StripPadded(s, pad - 1);
      if s == [] {
        StripLeftSpaces(pad);
      } else {
        assert StripLeft(t) == t;
        assert t[..|t| - 1] == s + Spaces(pad - 1);
        assert StripLeft(s + Spaces(pad - 1)) == s + Spaces(pad - 1);
      }
    }
  }

  lemma {:induction false} StripLeftSpaces(pad: nat)
    ensures StripLeft(Spaces(pad)) == []
    decreases pad
  {
    if pad > 0 {
      assert Spaces(pad)[1..] == Spaces(pad - 1);
      StripLeftSpaces(pad - 1);
    }
  }

  function Spaces(k: nat): (s: string)
    ensures |s| == k && forall i :: 0 <= i < k ==> s[i] == ' '
  {
    seq(k, i requires 0 <= i < k => ' ')
  }

  /** series.str.pad(width, side="right"). */
  function PadRight(s: string, width: nat): (t: string)
    ensures |t| == if |s| >= width then |s| else width
    ensures t[..|s|] == s && forall i :: |s| <= i < |t| ==> t[i] == ' '
  {
    if |s| >= width then s else s + Spaces(width - |s|)
  }

  /** The length of the longest string. */
  function MaxLength(xs: seq<string>): (m: nat)
    ensures forall i :: 0 <= i < |xs| ==> |xs[i]| <= m
    ensures xs == [] ==> m == 0
    ensures xs != [] ==> exists i :: 0 <= i < |xs| && |xs[i]| == m
  {
    if xs == [] then 0
    else
      var rest := MaxLength(xs[1..]);
      assert forall i :: 1 <= i < |xs| ==> xs[i] == xs[1..][i - 1];
      if |xs[0]| >= rest then |xs[0]| else
        var i :| 0 <= i < |xs[1..]| && |xs[1..][i]| == rest;
        assert xs[i + 1] == xs[1..][i];
        rest
  }

  /** Position i of padded row j after corruption: generator call jL+i of
      random below the threshold replaces a digit by call nL+jL+i of choice
      over the ten digits. */
  function DigitAt(rng: Rng, n: nat, width: nat, j: nat, i: nat, threshold: real, padded: string): char
    requires rng.Valid() && i < |padded|
  {
    if rng.uniform(j * width + i) < threshold && IsDigit(padded[i]) then Digits[rng.pick(n * width + j * width + i, 10)]
    else padded[i]
  }

  /** The noised string of row j before stripping. */
  function NoisedDigits(rng: Rng, n: nat, width: nat, j: nat, threshold: real, padded: string): (t: string)
    requires rng.Valid() && |padded| == width
    ensures |t| == width
    ensures forall i :: 0 <= i < width ==> t[i] == DigitAt(rng, n, width, j, i, threshold, padded)
  {
    seq(width, i requires 0 <= i < width => DigitAt(rng, n, width, j, i, threshold, padded))
  }

  /** series.astype(str) of the cells. */
  function CellStrings(cs: seq<Cell>): (xs: seq<string>)
    ensures |xs| == |cs| && forall j :: 0 <= j < |cs| ==> xs[j] == AsStr(cs[j])
  {
    seq(|cs|, j requires 0 <= j < |cs| => AsStr(cs[j]))
  }

  /** token_probability / 0.9: the scale-up for redraws that land on the
      same digit. */
  function TokenThreshold(token: real): real
  {
    token / 0.9
  }

  /** The column write_wrong_digits computes from the string values: pad
      to the longest, corrupt digits, strip. */
  function WrongDigitValues(rng: Rng, cells: seq<Cell>, token: real): (cs: seq<Cell>)
    requires rng.Valid()
    ensures |cs| == |cells|
  {
    var strs := CellStrings(cells);
    var threshold := TokenThreshold(token);
    var width := MaxLength(strs);
    seq(|strs|, j requires 0 <= j < |strs| =>
      Str(Strip(NoisedDigits(rng, |strs|, width, j, threshold, PadRight(strs[j], width)))))
  }

  /** The loop over positions: noised[j] collects the first i characters
      of the corrupted row j. */
  method CorruptPadded(rng: Rng, padded: seq<string>, width: nat, threshold: real) returns (noised: seq<string>)
    requires rng.Valid() && forall j :: 0 <= j < |padded| ==> |padded[j]| == width
    ensures |noised| == |padded|
    ensures forall j :: 0 <= j < |padded| ==> noised[j] == NoisedDigits(rng, |padded|, width, j, threshold, padded[j])
  {
    var n := |padded|;
    noised := seq(n, j => "");
    for i := 0 to width
      invariant |noised| == n
      invariant forall j :: 0 <= j < n ==> noised[j] == NoisedDigits(rng, n, width, j, threshold, padded[j])[..i]
    {
      var digit := seq(n, j requires 0 <= j < n => DigitAt(rng, n, width, j, i, threshold, padded[j]));
      noised := seq(n, j requires 0 <= j < n => noised[j] + [digit[j]]);
      assert forall j :: 0 <= j < n ==>
        NoisedDigits(rng, n, width, j, threshold, padded[j])[..i + 1] ==
        NoisedDigits(rng, n, width, j, threshold, padded[j])[..i] + [digit[j]];
    }
    assert forall j :: 0 <= j < n ==> noised[j] == NoisedDigits(rng, n, width, j, threshold, padded[j])[..width];
  }

  /** write_wrong_digits: an empty column is returned as it is; otherwise
      the values become strings padded on the right to the longest length,
      each digit position is replaced by a random digit when its draw is
      below token_probability / 0.9, and the results are stripped. When
      every value is empty there is nothing to concatenate and pandas raises
      ValueError. */
  method WriteWrongDigits(data: Frame, configuration: Tree, rng: Rng, columnName: string)
    returns (r: Result<Series>)
    requires data.Valid() && rng.Valid()
    ensures columnName !in data.columns ==> r == Err(KeyError(columnName))
    ensures columnName in data.columns && data.rows == [] ==> r == Ok(data.Column(columnName))
    ensures columnName in data.columns && data.rows != [] ==>
      (r.Ok? <==> GetReal(configuration, TokenProbability).Ok? && MaxLength(CellStrings(data.Column(columnName).values)) > 0)
    ensures r.Ok? && data.rows != [] ==> columnName in data.columns && GetReal(configuration, TokenProbability).Ok?
    ensures r.Ok? && data.rows != [] ==> r.value.name == columnName && r.value.index == data.Index() && !r.value.categorical
    ensures r.Ok? && data.rows != [] ==>
      r.value.values == WrongDigitValues(rng, data.Column(columnName).values, GetReal(configuration, TokenProbability).value)
  {
    if columnName !in data.columns { return Err(KeyError(columnName)); }
    var column := data.Column(columnName);
    var n := |column.values|;
    if n == 0 {
      assert data.rows == [];
      return Ok(column);
    }
    var token :- GetReal(configuration, TokenProbability);
    assert token == GetReal(configuration, TokenProbability).value;
    var threshold := TokenThreshold(token);
    var strs := CellStrings(column.values);
    var width := MaxLength(strs);
    if width == 0 { return Err(ValueError("No objects to concatenate")); }
    var padded := seq(n, j requires 0 <= j < n => PadRight(strs[j], width));
    var noised := CorruptPadded(rng, padded, width, threshold);
    StrippedValues(rng, column.values, token, noised);
    var values := StripAll(noised);
    r := Ok(Series(columnName, column.index, values, false));
  }

  /** str.strip() of every string, as cells. */
  function StripAll(xs: seq<string>): (cs: seq<Cell>)
    ensures |cs| == |xs| && forall j :: 0 <= j < |xs| ==> cs[j] == Str(Strip(xs[j]))
  {
    seq(|xs|, j requires 0 <= j < |xs| => Str(Strip(xs[j])))
  }

  lemma StrippedValues(rng: Rng, cells: seq<Cell>, token: real, noised: seq<string>)
    requires rng.Valid() && |noised| == |cells|
    requires var strs := CellStrings(cells); var width := MaxLength(strs);
      forall j :: 0 <= j < |strs| ==> noised[j] == NoisedDigits(rng, |strs|, width, j, TokenThreshold(token), PadRight(strs[j], width))
    ensures StripAll(noised) == WrongDigitValues(rng, cells, token)
  {
  }

  lemma RandomDigitIsDigit(k: nat)
    requires k < 10
    ensures IsDigit(Digits[k]) && !IsSpace(Digits[k])
  {
  }

  /** Corruption of a padded value: each of its own positions keeps a
      non-digit and turns a digit into a digit; the padding stays blank. */
  lemma NoisedPadded(rng: Rng, n: nat, width: nat, j: nat, threshold: real, s: string)
    requires rng.Valid() && |s| <= width
    ensures var t := NoisedDigits(rng, n, width, j, threshold, PadRight(s, width));
      && t == t[..|s|] + Spaces(width - |s|)
      && forall i :: 0 <= i < |s| ==> (if IsDigit(s[i]) then IsDigit(t[i]) else t[i] == s[i])
  {
    var padded := PadRight(s, width);
    var t := NoisedDigits(rng, n, width, j, threshold, padded);
    forall i | |s| <= i < width ensures t[i] == ' ' {
      assert padded[i] == ' ';
    }
    forall i | 0 <= i < |s| ensures if IsDigit(s[i]) then IsDigit(t[i]) else t[i] == s[i] {
      assert padded[i] == s[i];
      if IsDigit(s[i]) && rng.uniform(j * width + i) < threshold {
        RandomDigitIsDigit(rng.pick(n * width + j * width + i, 10));
      }
    }
    assert t == t[..|s|] + Spaces(width - |s|);
  }

  /** For a value with no whitespace at either end, corruption keeps its
      length, leaves every non-digit as it was and turns every digit into a
      digit. */
  lemma WrongDigitsShape(rng: Rng, n: nat, width: nat, j: nat, threshold: real, s: string)
    requires rng.Valid() && |s| <= width
    requires s == [] || (!IsSpace(s[0]) && !IsSpace(s[|s| - 1]))
    ensures var out := Strip(NoisedDigits(rng, n, width, j, threshold, PadRight(s, width)));
      |out| == |s| &&
      forall i :: 0 <= i < |s| ==> (if IsDigit(s[i]) then IsDigit(out[i]) else out[i] == s[i])
  {
    var t := NoisedDigits(rng, n, width, j, threshold, PadRight(s, width));
    NoisedPadded(rng, n, width, j, threshold, s);
    var head := t[..|s|];
    if head != [] {
      assert !IsSpace(head[0]) && !IsSpace(head[|head| - 1]);
    }
    StripPadded(head, width - |s|);
  }

  /** A non-positive token probability leaves every padded position as it is. */
  lemma WrongDigitsZeroProbability(rng: Rng, n: nat, width: nat, j: nat, threshold: real, padded: string)
    requires rng.Valid() && |padded| == width && threshold <= 0.0
    ensures NoisedDigits(rng, n, width, j, threshold, padded) == padded
  {
    forall i | 0 <= i < width ensures DigitAt(rng, n, width, j, i, threshold, padded) == padded[i] {
      assert 0.0 <= rng.uniform(j * width + i);
    }
  }

  // ---------------------------------------------------------------------
  // use_nicknames

  predicate HasNickname(c: Cell, nicknames: set<string>)
  {
    c.Str? && c.s in nicknames
  }

  /** The labels of the names found in the nickname table. */
  function NicknameLabels(column: Series, nicknames: set<string>): (have: seq<Label>)
    requires column.Valid()
    ensures forall l :: l in have ==> l in column.index
    ensures forall j :: 0 <= j < |column.index| ==> (column.index[j] in have <==> HasNickname(column.values[j], nicknames))
  {
    var mask := seq(|column.values|, j requires 0 <= j < |column.values| => HasNickname(column.values[j], nicknames));
    SelectWhereSpec(column.index, mask);
    SelectWhere(column.index, mask)
  }

  /** The column after the chooser's result is written back by label. */
  function WithNicknames(column: Series, nicknames: set<string>, noised: Series): (cs: seq<Cell>)
    requires column.Valid()
    ensures |cs| == |column.values|
    ensures forall j :: 0 <= j < |cs| && !HasNickname(column.values[j], nicknames) ==> cs[j] == column.values[j]
    ensures forall j :: 0 <= j < |cs| && HasNickname(column.values[j], nicknames) ==> cs[j] == noised.Aligned(column.index[j])
  {
    seq(|column.values|, j requires 0 <= j < |column.values| =>
      if HasNickname(column.values[j], nicknames) then noised.Aligned(column.index[j]) else column.values[j])
  }

  /** use_nicknames: the names found in the nickname table are handed, as
      data.loc[have_nickname_idx], to the nickname chooser (two_d_array_choice,
      which is not part of this model and is a parameter here), and its
      result is written back into those cells by label; every other cell is
      left as it was. */
  method UseNicknames(data: Frame, columnName: string, nicknames: set<string>,
                      chooser: Series -> Series) returns (r: Result<Series>)
    requires data.Valid()
    ensures r.Ok? <==> columnName in data.columns
    ensures r.Err? ==> r.error == KeyError(columnName)
    ensures r.Ok? ==>
      var column := data.Column(columnName);
      r.value == Series(columnName, data.Index(),
                        WithNicknames(column, nicknames, chooser(column.Restrict(NicknameLabels(column, nicknames)))),
                        column.categorical)
  {
    if columnName !in data.columns { return Err(KeyError(columnName)); }
    var column := data.Column(columnName);
    var n := |column.values|;
    var have := NicknameLabels(column, nicknames);
    var noised := chooser(column.Restrict(have));
    var values := new Cell[n](j requires 0 <= j < n => column.values[j]);
    forall j | 0 <= j < n && column.index[j] in have {
      values[j] := noised.Aligned(column.index[j]);
    }
    r := Ok(Series(columnName, column.index, values[..], column.categorical));
    assert values[..] == WithNicknames(column, nicknames, noised);
  }

  // ---------------------------------------------------------------------
  // use_fake_names

  /** use_fake_names: the column must be first_name or last_name (KeyError
      otherwise); every row draws a fake name of that kind under
      "<column>_fake_names". */
  function UseFakeNames(data: Frame, stream: Stream, columnName: string,
                        fakeFirst: seq<string>, fakeLast: seq<string>): (r: Result<Series>)
    requires data.Valid()
    ensures columnName !in data.columns ==> r == Err(KeyError(columnName))
    ensures columnName in data.columns && columnName != "first_name" && columnName != "last_name" ==>
      r == Err(KeyError(columnName))
    ensures r.Ok? ==> r.value.Valid() && r.value.index == data.Index() && r.value.name == columnName
    ensures r.Ok? ==> forall j :: 0 <= j < |data.rows| ==>
      r.value.values[j].Str? && r.value.values[j].s in (if columnName == "first_name" then fakeFirst else fakeLast)
  {
    var column :- data.GetColumn(columnName);
    if columnName != "first_name" && columnName != "last_name" then Err(KeyError(columnName))
    else
      var options := if columnName == "first_name" then fakeFirst else fakeLast;
      var key := columnName + "_fake_names";
      var values :- VectorizedChoice(options, |column.values|, true, None, Some(key), None, PositionDraws(stream, key));
      Ok(Series(columnName, column.index, StrCells(values), false))
  }

  /** With draws in [0, 1) and a non-empty list, use_fake_names succeeds on
      the name columns. */
  lemma UseFakeNamesSucceeds(data: Frame, stream: Stream, columnName: string,
                             fakeFirst: seq<string>, fakeLast: seq<string>)
    requires data.Valid() && stream.Valid() && columnName in data.columns
    requires (columnName == "first_name" && fakeFirst != []) || (columnName == "last_name" && fakeLast != [])
    ensures UseFakeNames(data, stream, columnName, fakeFirst, fakeLast).Ok?
  {
    var options := if columnName == "first_name" then fakeFirst else fakeLast;
    var key := columnName + "_fake_names";
    forall i: nat | i < |data.rows| ensures 0.0 <= PositionDraws(stream, key)(i) < 1.0 {
      assert PositionDraws(stream, key)(i) == stream.draw(key, i);
    }
    VectorizedChoiceSucceeds(options, |data.rows|, true, None, Some(key), None, PositionDraws(stream, key));
  }

  // ---------------------------------------------------------------------
  // leave_blanks

  /** leave_blanks: a nameless series of NaN over the column's index. */
  function LeaveBlanks(data: Frame, columnName: string): (r: Result<Series>)
    requires data.Valid()
    ensures r.Ok? <==> columnName in data.columns
    ensures r.Err? ==> r.error == KeyError(columnName)
    ensures r.Ok? ==> r.value.Valid() && r.value.index == data.Index() && r.value.name == ""
    ensures r.Ok? ==> forall j :: 0 <= j < |r.value.values| ==> r.value.values[j] == NA && IsMissing(r.value.values[j])
  {
    var column :- data.GetColumn(columnName);
    Ok(Series("", column.index, seq(|column.index|, j requires 0 <= j < |column.index| => NA), false))
  }
}
