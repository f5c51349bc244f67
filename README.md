# pseudopeople noising engine, modelled in Dafny

pseudopeople adds realistic noise to simulated census and survey tables. A
table (a pandas DataFrame of string cells) is noised by a fixed, ordered
catalog of noise types:

- **Row noise types** work on the whole table: random omission, and the
  demographic "do not respond" omission.
- **Column noise types** work on single columns. They swap month and day,
  write wrong zipcode digits or wrong digits, misreport ages, use nicknames
  or fake names, choose a wrong option, make phonetic, OCR and keyboard
  errors, or leave cells blank.

A configuration tree gives the probabilities. It has three layers
(baseline < default < user).

This project models the core of that engine:

- the noise library (`noise_functions.py`);
- the selection and choice helpers (`utilities.py`);
- the column-noise wrapper (`entity_types.py`);
- the catalog walks of `noise.py`, of `DatasetData.noise_dataset` and of the
  earlier `pseudo_people/noise.py`;
- the missingness, date-formatting and column-selection members of
  `DatasetData` (`dataset.py`);
- the construction of the configuration tree and the formatting of user age
  perturbations (`configuration/generator.py`).

It proves properties of each.

Modules, one per source file, in files of the same role:

| file | module | source |
|---|---|---|
| tables.dfy | Tables | cells, Series, DataFrame, errors, ordered config trees |
| randomness.dfy | Randomness | the randomness stream and the numpy generator, as inputs |
| utilities.dfy | Utilities | `vectorized_choice`, `get_index_to_noise` |
| row_noise.dfy | RowNoise | `omit_rows`, `_get_census_omission_noise_levels`, `apply_do_not_respond` |
| column_noise.dfy | ColumnNoise | the cell-wise column noise functions |
| scans.dfy | Scans | `phonetic_corrupt`, `ocr_corrupt`, `keyboard_corrupt` and their column loops |
| entity_types.dfy | EntityTypes | `RowNoiseType`, `ColumnNoiseType.__call__` |
| noise.dfy | Noise | `noise_form` |
| legacy_noise.dfy | LegacyNoise | `noise_form` of `pseudo_people` |
| dataset.dfy | Datasets | `DatasetData` |
| generator.dfy | Generator | `get_configuration` and what it calls |

Every random draw is an explicit input, and every property holds for all
draws:

- A `Stream` stands for a common-random-numbers stream. It maps
  (additional key, row label) to a number in [0, 1).
- An `Rng` stands for a numpy generator. It is read by a call counter: call
  k of `random`/`uniform` returns `uniform(k)`, and call k of `choice` over m
  options returns position `pick(k, m)`.

Operations that loop in the source are methods with loop invariants. Each
method is proved equal to a specification function, and the properties are
proved as lemmas about those functions. Examples are the greedy scans,
`_generate_configuration`'s nested loops, the age-perturbation formatting,
the catalog walks, the census omission levels, the zipcode, wrong-digit and
age arithmetic, and the date reformatting. `DatasetData` and the layered
`ConfigTree` are classes whose methods update their fields.

## Model

| member | source | states |
|---|---|---|
| Tables.Frame.GetColumn | src/pseudopeople/noise_functions.py:262 | `data[column]` succeeds exactly for a column of the table, giving that column; otherwise it raises KeyError(column) |
| Tables.Frame.DropRows | src/pseudopeople/noise_functions.py:48 | `data.loc[index.difference(drop)]` keeps exactly the rows whose label is not dropped; it keeps the columns and adds no row |
| Tables.Frame.WithColumn | src/pseudopeople/noise.py:50-55 | `data[c] = s` aligns s by label (missing labels give NaN), keeps the index and every other column, and appends c if it is new |
| Tables.KeptExceptWithColumn | src/pseudopeople/noise.py:50-55 | assigning a column changes no cell outside that column |
| Tables.Series.AsStrings | src/pseudopeople/entity_types.py:69-70 | `astype(str)` keeps name and index, turns every cell into its string (NaN becomes "nan"), and drops the categorical dtype |
| Tables.Tree.Get | src/pseudopeople/noise.py:35 | `configuration[key]` succeeds iff the key is present, giving its value; otherwise KeyError(key) |
| Tables.GetReal | src/pseudopeople/noise_functions.py:40 | reading a probability gives the number at the key (an int converted to real), KeyError when the key is absent and TypeError when it holds no number |
| Utilities.UniformWeights | src/pseudopeople/utilities.py:65-67 | the default weights are n copies of 1/n |
| Utilities.SumUniform | src/pseudopeople/utilities.py:65-67 | the first m uniform weights sum to m/n |
| Utilities.UniformAdmissible | src/pseudopeople/utilities.py:65-67 | the uniform weights are non-negative and sum to 1 |
| Utilities.EffectiveWeights | src/pseudopeople/utilities.py:65-69 | the given weights are used when present, the uniform ones otherwise; both are admissible |
| Utilities.PmfSumsToOne | src/pseudopeople/utilities.py:80 | `weights / sum(weights)` sums to 1 for admissible, non-empty weights |
| Utilities.PmfNonNegative | src/pseudopeople/utilities.py:80 | the pmf of admissible weights has no negative mass |
| Utilities.Cumsum | src/pseudopeople/utilities.py:81 | entry i of `np.cumsum` is the sum of the first i+1 masses |
| Utilities.CumsumProperties | src/pseudopeople/utilities.py:81 | the cdf never decreases, and its last entry is the total mass |
| Utilities.SearchSortedRightSlot | src/pseudopeople/utilities.py:84 | on a sorted cdf, `searchsorted(side="right")` returns k exactly when cdf[k-1] <= u < cdf[k] (with the ends open) |
| Utilities.ChosenOption | src/pseudopeople/utilities.py:79-85 | for a draw in [0,1), option k is chosen iff cdf[k-1] <= u < cdf[k], and the chosen position is always below n |
| Utilities.VectorizedChoice | src/pseudopeople/utilities.py:38-85 | RuntimeError exactly when there is no stream, no additional key and no seed; IndexError only when some draw falls past the last option; otherwise exactly n_to_choose values, each the option at searchsorted of its draw |
| Utilities.VectorizedChoiceSucceeds | src/pseudopeople/utilities.py:60-85 | with a stream, key or seed, admissible weights, non-empty options and draws in [0,1), the choice raises nothing |
| Utilities.SelectWhereSpec | src/pseudopeople/utilities.py:99 | `index[mask]` on an increasing index is increasing and holds label j exactly when mask[j] |
| Utilities.NotEmptyIndex | src/pseudopeople/utilities.py:99 | a label is kept exactly when its cell is neither "" nor NA |
| Utilities.FilterForProbability | src/pseudopeople/utilities.py:100-104 | a label is kept exactly when its draw is below its level |
| Utilities.GetIndexToNoise | src/pseudopeople/utilities.py:88-106 | a label is selected iff its cell is not missing and its draw is below the level; the result is increasing and drawn from the index |
| Utilities.IndexToNoiseNeverMissing | src/pseudopeople/utilities.py:99 | a "" or NA cell is never selected |
| Utilities.IndexToNoiseNone | src/pseudopeople/utilities.py:100-104 | a level of 0 selects nothing |
| Utilities.IndexToNoiseAll | src/pseudopeople/utilities.py:100-104 | a level of 1 selects every cell that is not missing |
| RowNoise.DropSelected | src/pseudopeople/noise_functions.py:48 | row j survives iff its mask entry is false; the result is well-formed, keeps the columns and adds no row |
| RowNoise.DropNothing | src/pseudopeople/noise_functions.py:48 | an all-false selection returns the table unchanged |
| RowNoise.DropEverything | src/pseudopeople/noise_functions.py:48 | an all-true selection leaves no row |
| RowNoise.OmitRows | src/pseudopeople/noise_functions.py:24-50 | KeyError/TypeError exactly when row_probability cannot be read; otherwise row j is kept iff its draw under "<dataset>_omit_choice" is not below row_probability, and no row is added |
| RowNoise.OmitRowsExtremes | src/pseudopeople/noise_functions.py:40-48 | row_probability 0 returns the table; row_probability 1 returns no row |
| RowNoise.BinAddition | src/pseudopeople/noise_functions.py:72-78 | `pd.cut(...).map(...)` gives the addition of a bin holding the age, or NaN when no bin holds it or the age is not a number |
| RowNoise.AddOpt | src/pseudopeople/noise_functions.py:76 | an addition is NaN iff an operand is NaN |
| RowNoise.Clip | src/pseudopeople/noise_functions.py:79-80 | clipped levels lie in [0,1], are unchanged inside it, and NaN stays NaN |
| RowNoise.CensusLevel | src/pseudopeople/noise_functions.py:64-81 | a row's level is NaN iff its race is not in the table or, for Female or Male, its age is in no bin of that sex; a level lies in [0,1], and for any other sex it is the clipped base plus race addition |
| RowNoise.CensusOmissionLevels | src/pseudopeople/noise_functions.py:53-81 | succeeds iff the race_ethnicity, sex and age columns are present and both sex tables exist with non-overlapping bins, giving one level per row, each NaN or in [0,1] |
| RowNoise.CensusOmissionNoiseLevels | src/pseudopeople/noise_functions.py:64-81 | the base/race/sex-age/clip statements, run on an array, compute CensusOmissionLevels |
| RowNoise.MissingColumns | src/pseudopeople/noise_functions.py:99-100 | the required columns absent from the table, and no others |
| RowNoise.LevelScale | src/pseudopeople/noise_functions.py:114-116 | configured / default, with KeyError for a missing value and ZeroDivisionError for a zero default |
| RowNoise.ApplyDoNotRespond | src/pseudopeople/noise_functions.py:84-127 | ValueError naming the missing columns when age, race_ethnicity or sex is absent; it succeeds iff the levels and the scale can be computed, and then row j is kept iff its adjusted level is NaN or not above its draw under "do_not_respond_<dataset>"; no row is added |
| RowNoise.AdjustedLevelBounds | src/pseudopeople/noise_functions.py:106-120 | at scale 1 a dataset other than ACS and CPS keeps its census level; at a non-negative scale ACS and CPS levels are at least 1/2; CPS at scale 1 is at least 0.5 + 0.276/2 |
| ColumnNoise.SelectionType | src/pseudopeople/noise_functions.py:163-166 | the two state columns draw from the "state" list, every other column from its own |
| ColumnNoise.NonNaOptions | src/pseudopeople/noise_functions.py:172 | the options are exactly the non-NaN entries of the option column |
| ColumnNoise.WrongOptionValues | src/pseudopeople/noise_functions.py:163-178 | KeyError when the option table lacks the selection type; otherwise a vectorized choice of one value per row under "<column>_incorrect_select_choice" |
| ColumnNoise.ChooseWrongOptionsAsWritten | src/pseudopeople/noise_functions.py:180 | the result as written always raises (a DataFrame has no usable `name`) |
| ColumnNoise.ChooseWrongOptions | src/pseudopeople/noise_functions.py:146-180 | the intended result succeeds iff the choice does, keeps the table's index and the column's name, and every value is a non-missing entry of the option list |
| ColumnNoise.ChooseWrongOptionsDiscrepancy | src/pseudopeople/noise_functions.py:173-180 | on every well-formed input with a non-missing option, the as-written version raises while the intended one succeeds |
| ColumnNoise.GetSchemaColumn | src/pseudopeople/noise_functions.py:218 | `COLUMNS.get_column` finds a schema column of that name, or raises |
| ColumnNoise.SwapPreservesLength | src/pseudopeople/noise_functions.py:228-237 | the month/day swap never changes a string's length |
| ColumnNoise.SwapInvolution | src/pseudopeople/noise_functions.py:228-237 | swapping twice restores every 8-character YYYYMMDD string and every MM/DD/YYYY string of at least 6 characters |
| ColumnNoise.SwapCell | src/pseudopeople/noise_functions.py:227-237 | a string cell becomes its swap, and anything else becomes NaN |
| ColumnNoise.SwapMonthsAndDays | src/pseudopeople/noise_functions.py:201-243 | IndexError for a column the schema does not know; ConfigurationError for one without a date format; KeyError for a column the table lacks; ValueError for any other format. It succeeds exactly for the YYYYMMDD and MM/DD/YYYY formats on a column of the table, and returns the column by index and name with every cell swapped as the format says |
| ColumnNoise.SwapMonthsAndDaysRoundTrip | src/pseudopeople/noise_functions.py:228-237 | a swapped string cell keeps its length, and swapping an 8-character YYYYMMDD or 10-character MM/DD/YYYY date again gives back the original |
| ColumnNoise.GetReals | src/pseudopeople/noise_functions.py:277-279 | a list of numbers from the configuration; otherwise KeyError or TypeError |
| ColumnNoise.DigitProbabilities | src/pseudopeople/noise_functions.py:277-280 | broadcasting succeeds iff the list has 5 entries or 1, giving one probability per digit position |
| ColumnNoise.ZipProbabilities | src/pseudopeople/noise_functions.py:277-279 | five per-position probabilities, or KeyError when zipcode_digit_probabilities is absent |
| ColumnNoise.NoisedZipcode | src/pseudopeople/noise_functions.py:280-288 | a noised zipcode has five characters, position i being the digit rule for that position |
| ColumnNoise.WriteWrongZipcodeDigits | src/pseudopeople/noise_functions.py:246-289 | KeyError for a missing column; ValueError when some value is not a 5-character string; otherwise it succeeds iff the per-position probabilities can be read, returning the column on the table's index with every value noised position by position |
| ColumnNoise.DigitColumns | src/pseudopeople/noise_functions.py:282-286 | the loop builds digit column i of every row by the position rule |
| ColumnNoise.AssembledZipcodes | src/pseudopeople/noise_functions.py:288 | `digits[0] + ... + digits[4]` is the noised zipcode of every row |
| ColumnNoise.NoisedZipcodesAt | src/pseudopeople/noise_functions.py:280-288 | cell j of the result is a 5-character string whose position i follows p_i |
| ColumnNoise.ZipDigitExtremes | src/pseudopeople/noise_functions.py:275-284 | a zero probability never changes a digit; a probability of 0.9 or more always takes the drawn digit |
| ColumnNoise.AsInt | src/pseudopeople/noise_functions.py:317 | `astype(int)` returns a number unchanged and gives int() of a string. It raises ValueError for NaN and for a string int() rejects, and TypeError for a date |
| ColumnNoise.ParseLiteral | src/pseudopeople/noise_functions.py:317 | once whitespace is stripped, int() accepts exactly an optional sign followed by digits in groups joined by single underscores |
| ColumnNoise.ParseIntToString | src/pseudopeople/noise_functions.py:317 | int(str(n)) == n for every integer |
| ColumnNoise.MisreportAgeProperties | src/pseudopeople/noise_functions.py:317-321 | with d != 0 and age >= 0, the misreported age is non-negative and differs from the true age |
| ColumnNoise.AgeDifferences | src/pseudopeople/noise_functions.py:309 | the configured distribution as options and weights of equal length, or KeyError when it is absent |
| ColumnNoise.AgePerturbations | src/pseudopeople/noise_functions.py:309-316 | given admissible configured weights: one perturbation per row, each one of the configured differences; configuration errors propagate |
| ColumnNoise.AgeValues | src/pseudopeople/noise_functions.py:317 | the column converts iff every cell converts, giving the integer of each |
| ColumnNoise.PerturbAges | src/pseudopeople/noise_functions.py:317-321 | the add, reflect and lower-if-equal statements, run on an array, give MisreportAge at every row |
| ColumnNoise.MisreportAges | src/pseudopeople/noise_functions.py:292-323 | given admissible configured weights: KeyError for a missing column; it succeeds iff the perturbations and the conversion do; every age becomes MisreportAge of its value and its perturbation |
| ColumnNoise.MisreportAgesChangeEveryAge | src/pseudopeople/noise_functions.py:310-321 | with a distribution without 0, every non-negative age is misreported as a different non-negative age |
| ColumnNoise.Strip | src/pseudopeople/noise_functions.py:366 | strip never lengthens a string and leaves one without outer whitespace unchanged |
| ColumnNoise.StripPadded | src/pseudopeople/noise_functions.py:350-366 | the right-padding is all that strip removes from a value without outer whitespace |
| ColumnNoise.PadRight | src/pseudopeople/noise_functions.py:350 | `str.pad(width, side="right")` keeps the string as a prefix and fills with blanks up to the width |
| ColumnNoise.MaxLength | src/pseudopeople/noise_functions.py:349 | the length of the longest value, reached by some value; 0 for no values |
| ColumnNoise.NoisedDigits | src/pseudopeople/noise_functions.py:355-365 | the corrupted padded row has the padded width and follows the position rule at each position |
| ColumnNoise.WrongDigitValues | src/pseudopeople/noise_functions.py:348-366 | one output cell per input cell |
| ColumnNoise.CorruptPadded | src/pseudopeople/noise_functions.py:359-365 | the loop over positions builds every row's corrupted padded string |
| ColumnNoise.WriteWrongDigits | src/pseudopeople/noise_functions.py:326-368 | KeyError for a missing column; an empty column is returned unchanged; otherwise it succeeds iff token_probability reads and some value is non-empty, giving the pad-corrupt-strip values on the table's index as strings |
| ColumnNoise.StrippedValues | src/pseudopeople/noise_functions.py:359-366 | stripping the loop's strings gives WrongDigitValues |
| ColumnNoise.NoisedPadded | src/pseudopeople/noise_functions.py:351-362 | a non-digit is kept, a digit stays a digit, and the padding stays blank |
| ColumnNoise.WrongDigitsShape | src/pseudopeople/noise_functions.py:343-366 | for a value without outer whitespace, the output has the value's length, keeps every non-digit and turns digits into digits |
| ColumnNoise.WrongDigitsZeroProbability | src/pseudopeople/noise_functions.py:346-362 | a non-positive token probability changes no position |
| ColumnNoise.NicknameLabels | src/pseudopeople/noise_functions.py:388 | a label is selected exactly when its name is in the nickname table |
| ColumnNoise.WithNicknames | src/pseudopeople/noise_functions.py:392 | cells without a nickname are unchanged; the others take the chooser's value for their label |
| ColumnNoise.UseNicknames | src/pseudopeople/noise_functions.py:371-393 | KeyError exactly for a missing column; otherwise only the names in the nickname table change, by label, and the index is kept |
| ColumnNoise.UseFakeNames | src/pseudopeople/noise_functions.py:396-423 | KeyError for a missing column or one that is neither first_name nor last_name; otherwise every value is a fake name of the right kind, on the table's index |
| ColumnNoise.UseFakeNamesSucceeds | src/pseudopeople/noise_functions.py:410-423 | with draws in [0,1) and a non-empty name list, use_fake_names raises nothing on a name column |
| ColumnNoise.LeaveBlanks | src/pseudopeople/noise_functions.py:474-483 | KeyError exactly for a missing column; otherwise an unnamed series of NaN on the column's index. Its source signature is `(data, column_name, *_)`, so the configuration and stream its siblings take are not parameters here |
| Scans.FirstHit | src/pseudopeople/noise_functions.py:448-454 | the lengths are tried in order, each token found in the table costing a draw and a hit also a choice; a hit has one of the tried lengths and advances the generator counter by at least two, a miss never moves it back |
| Scans.FirstHitFromTable | src/pseudopeople/noise_functions.py:450-452 | a replacement is one of the options listed for its token, and the token has the replaced length |
| Scans.PhoneticAt | src/pseudopeople/noise_functions.py:447-454 | the inner loop of phonetic_corrupt, which goes on past a hit but draws no more, computes FirstHit |
| Scans.OcrAt | src/pseudopeople/noise_functions.py:571-579 | the inner loop of ocr_corrupt, which breaks at the first successful length (3, 2, 1), computes FirstHit |
| Scans.Corrupt | src/pseudopeople/noise_functions.py:443-458 | the scan of the remainder from position i; the generator counter never goes back |
| Scans.CorruptByLengths | src/pseudopeople/noise_functions.py:443-458 | the while loop of phonetic_corrupt and ocr_corrupt, which advances at least one position per iteration, computes Corrupt |
| Scans.CorruptAt | src/pseudopeople/noise_functions.py:455-457 | a position without a hit copies truth[i] and moves on by one; a hit emits the substitute and skips the token |
| Scans.KeyStep | src/pseudopeople/noise_functions.py:515-528 | one position of keyboard_corrupt; the counter only advances |
| Scans.KeyCorrupt | src/pseudopeople/noise_functions.py:505-529 | the typo scan of the remainder; the counter only advances |
| Scans.KeyAt | src/pseudopeople/noise_functions.py:515-528 | the loop body of keyboard_corrupt computes KeyStep |
| Scans.KeyboardCorrupt | src/pseudopeople/noise_functions.py:505-529 | the while loop of keyboard_corrupt computes KeyCorrupt |
| Scans.FirstHitNeverBelowZero | src/pseudopeople/noise_functions.py:451 | a non-positive probability never replaces a token |
| Scans.CorruptZeroProbability | src/pseudopeople/noise_functions.py:446-457 | with probability 0 the phonetic and OCR scans return the input |
| Scans.FirstHitNoToken | src/pseudopeople/noise_functions.py:448-450 | with no token in the table, nothing is drawn and nothing replaced |
| Scans.CorruptNoTokens | src/pseudopeople/noise_functions.py:446-457 | a string none of whose tokens is in the table is copied verbatim without draws |
| Scans.LastCharacterDrawsPerLength | src/pseudopeople/noise_functions.py:448-451 | at the last character every one of the seven phonetic lengths slices the same one-character token, so a token in the table that is never replaced costs seven draws |
| Scans.KeyStepShape | src/pseudopeople/noise_functions.py:517-528 | a position emits the character, a mistyping from its list, or that mistyping followed by the character |
| Scans.KeyCorruptZeroProbability | src/pseudopeople/noise_functions.py:514-528 | with probability 0 the typo scan returns the input |
| Scans.CorruptValues | src/pseudopeople/noise_functions.py:464-470 | one output per value, the generator counter shared by the values in index order |
| Scans.CorruptOne | src/pseudopeople/noise_functions.py:465-469 | the scheme's scanning method, run on one value, computes CorruptValue |
| Scans.CorruptValue | src/pseudopeople/noise_functions.py:465-469 | one value is scanned by its scheme; the generator counter never goes back |
| Scans.CorruptColumn | src/pseudopeople/noise_functions.py:464-471 | the `for idx in data.index` loop, writing back each value, computes CorruptValues |
| Scans.CorruptStrings | src/pseudopeople/noise_functions.py:460-471 | KeyError for a missing token_probability, then for a missing column; otherwise the column's string values scanned in order, on the same index and name |
| Scans.CorruptValueZeroProbability | src/pseudopeople/noise_functions.py:460-470 | with probability 0 each scheme returns the value unchanged |
| Scans.CorruptValuesZeroProbability | src/pseudopeople/noise_functions.py:464-470 | with probability 0 the column comes back as its string values |
| EntityTypes.RowNoiseType.Call | src/pseudopeople/entity_types.py:30-36 | `__call__` returns the noise function's own result on the table, configuration node and stream, with nothing added or caught |
| EntityTypes.RowNoiseCallIgnoresMetadata | src/pseudopeople/entity_types.py:26-36 | the name and probability fields are not passed on: two row noise types with the same function give the same result |
| EntityTypes.Prepared | src/pseudopeople/entity_types.py:69-72 | the wrapper's copy keeps name and index; a categorical column is converted to strings, any other is copied cell for cell |
| EntityTypes.NoiseLevel | src/pseudopeople/entity_types.py:73-75 | the level can be computed exactly when row_noise_level can be read, and otherwise raises that read's error |
| EntityTypes.ToNoise | src/pseudopeople/entity_types.py:76-78 | the labels get_index_to_noise selects under the type's selection key, increasing and drawn from the index |
| EntityTypes.Overwritten | src/pseudopeople/entity_types.py:89 | `column.loc[idx] = noised`: the selected cells take noised's value by label, and every other cell is kept |
| EntityTypes.CallColumnNoise | src/pseudopeople/entity_types.py:60-90 | the copy, level, selection, early return and overwrite statements of `__call__` compute ColumnNoised |
| EntityTypes.ColumnNoiseKeepsUnselected | src/pseudopeople/entity_types.py:79-90 | the result keeps name and index, and every unselected cell (missing, or draw not below the level) is its input value |
| EntityTypes.ColumnNoiseOverwritesSelected | src/pseudopeople/entity_types.py:85-89 | a selected cell is the noise function's value for its label, the function being given only the selected rows |
| EntityTypes.ColumnNoiseZeroLevel | src/pseudopeople/entity_types.py:79-84 | with nothing selected, the prepared column is returned and the noise function has no say |
| EntityTypes.DefaultScalingKeepsLevel | src/pseudopeople/entity_types.py:57 | with the default scaling, the level is row_noise_level |
| EntityTypes.SelectionKeyInjective | src/pseudopeople/entity_types.py:77 | for one noise type, two additional keys give distinct selection keys, and so do two noise types on one key |
| EntityTypes.SelectionKeyAmbiguous | src/pseudopeople/entity_types.py:77 | type "a_b" on column "c" and type "a" on column "b_c" share a selection key |
| Noise.SelectedKeys | src/pseudopeople/noise.py:42-47 | the configured keys that are columns of the table and list the noise type, in configuration order |
| Noise.ColumnsToNoise | src/pseudopeople/noise.py:42-47 | a column is noised iff it is configured, is in the table and its node lists the type |
| Noise.ApplyColumnType | src/pseudopeople/noise.py:49-55 | the column loop keeps the table well-formed |
| Noise.ApplyNoiseTypes | src/pseudopeople/noise.py:36-60 | the catalog walk keeps the table well-formed |
| Noise.NoiseStep | src/pseudopeople/noise.py:37-60 | one entry keeps the table well-formed |
| Noise.InvalidNoiseType | src/pseudopeople/noise.py:56-60 | the error for an unknown kind is a TypeError |
| Noise.NoiseColumns | src/pseudopeople/noise.py:49-55 | the loop `form_data[column] = noise_type(...)` computes ApplyColumnType |
| Noise.NoiseForm | src/pseudopeople/noise.py:9-62 | the form's node is looked up (KeyError when absent), and the loop over NOISE_TYPES computes ApplyNoiseTypes |
| Noise.ApplyNoiseTypesCompose | src/pseudopeople/noise.py:36 | catalog a + b is a, then b on the table a left: each type sees the table as the earlier ones made it |
| Noise.ApplyColumnTypeKeepsOthers | src/pseudopeople/noise.py:49-55 | a column type keeps the labels, the column list and every cell of the columns it is not applied to |
| Noise.ColumnStepKeepsUnconfigured | src/pseudopeople/noise.py:41-55 | a column type touches only columns of the table whose node lists it |
| Noise.UnsupportedNoiseTypeFails | src/pseudopeople/noise.py:56-60 | a catalog holding an entry of neither kind never completes |
| Noise.UnsupportedFirstRaisesTypeError | src/pseudopeople/noise.py:56-60 | an unsupported first entry raises its TypeError |
| Noise.RowStepReplacesTable | src/pseudopeople/noise.py:37-39 | a row type's result replaces the table for the rest of the catalog |
| LegacyNoise.InvalidNoiseType | src/pseudo_people/noise.py:44-48 | the error for an unknown kind is a TypeError |
| LegacyNoise.ApplyToColumns | src/pseudo_people/noise.py:38-43 | the column loop keeps the table well-formed |
| LegacyNoise.LegacyStep | src/pseudo_people/noise.py:31-48 | one entry keeps the table well-formed |
| LegacyNoise.LegacyApply | src/pseudo_people/noise.py:30-48 | the catalog walk keeps the table well-formed |
| LegacyNoise.NoiseColumns | src/pseudo_people/noise.py:38-43 | the loop over the table's columns, skipping unconfigured ones, computes ApplyToColumns |
| LegacyNoise.LegacyNoiseForm | src/pseudo_people/noise.py:8-50 | the loop over NOISE_TYPES computes LegacyApply |
| LegacyNoise.Configured | src/pseudo_people/noise.py:39 | the columns that have an entry in the node |
| LegacyNoise.ApplyToColumnsKeepsOthers | src/pseudo_people/noise.py:36-43 | a column type keeps the index and the column list, and every column without an entry keeps its cells |
| LegacyNoise.LookupBeforeTypeCheck | src/pseudo_people/noise.py:31-48 | `configuration[form][noise_type]` is read first: its KeyError comes before the TypeError of an unknown kind |
| LegacyNoise.LegacyApplyCompose | src/pseudo_people/noise.py:30 | catalog a + b is a, then b on the table a left |
| Datasets.IsMissingFrame | src/pseudopeople/dataset.py:150-152 | a flag is set exactly for a cell that is "" or NA; the columns and rows are those of the table |
| Datasets.ColumnAllFlagged | src/pseudopeople/dataset.py:32 | `missingness[c].all()` raises KeyError exactly when c is not a mask column |
| Datasets.KeepUnmasked | src/pseudopeople/dataset.py:37-40 | `data.loc[~mask]` returns only labels of the table's rows |
| Datasets.FirstAbsent | src/pseudopeople/dataset.py:39 | the first required name that is not a column, or none iff all are columns |
| Datasets.KeepUnmaskedFresh | src/pseudopeople/dataset.py:37-40 | on freshly computed flags, the rows kept are exactly those not dropped by the all/any test |
| Datasets.NonEmptyIndex | src/pseudopeople/dataset.py:34-41 | get_non_empty_index on given flags: every returned label is a row of the table; KeyError when a required column has no flags; on success every required column is both flagged and in the table |
| Datasets.NonEmptyIndexAnyColumn | src/pseudopeople/dataset.py:36-37 | without required columns, a row is kept iff some cell is not missing |
| Datasets.NonEmptyIndexRequired | src/pseudopeople/dataset.py:38-41 | with required columns: KeyError iff one is absent; otherwise a row is kept iff no required cell is missing |
| Datasets.IsEmptyFresh | src/pseudopeople/dataset.py:30-32 | is_empty(c) is KeyError for an absent column, and true iff every cell of c is missing |
| Datasets.ZfillFast | src/pseudopeople/dataset.py:155-160 | `("0"*n + s).str[-n:]`: width 0 returns the value whole (`[-0:]` is the whole string), any other width gives exactly n characters |
| Datasets.ZfillFastWidth | src/pseudopeople/dataset.py:155-160 | for n > 0 the result has length n: the last n characters of a long value, zeros then the value for a short one |
| Datasets.ZfillFastAgreesWithZfill | src/pseudopeople/dataset.py:155-160 | _zfill_fast agrees with str.zfill exactly when the width is 0, the value has exactly that many characters, or it is shorter and does not start with a sign; a longer value is cut and a signed one gets its zeros before the sign |
| Datasets.FormatDate | src/pseudopeople/dataset.py:127-137 | a date formats under YYYYMMDD, MM_DD_YYYY and MMDDYYYY, and any other format raises |
| Datasets.InvalidDateFormat | src/pseudopeople/dataset.py:137 | the error for an unknown format is a ValueError |
| Datasets.FourDigitYear | src/pseudopeople/dataset.py:124-127 | a four-digit year is spelled with four characters |
| Datasets.FormatDateLength | src/pseudopeople/dataset.py:127-135 | the formatted date has the year's length plus 4 (plus 2 separators for MM_DD_YYYY) |
| Datasets.FormatDateSwap | src/pseudopeople/dataset.py:130-133 | swapping month and day of a formatted date is formatting the date with day and month exchanged |
| Datasets.FormatDateColumn | src/pseudopeople/dataset.py:125-140 | fails exactly when a non-NA cell is not a date or the format is unknown; otherwise it keeps name and index, NA stays NA and no other cell becomes NA |
| Datasets.FormattedCellSwaps | src/pseudopeople/dataset.py:125-140 | each formatted date cell is FormatDate of its date, so the month/day swap applies to it |
| Datasets.ReformattedDates | src/pseudopeople/dataset.py:114-142 | the loop over the date columns and their copies keeps the table well-formed and changes only those columns |
| Datasets.SelectColumns | src/pseudopeople/dataset.py:147 | `data[names]` raises KeyError iff some name is absent; otherwise exactly the listed columns in the listed order, rows and cells kept |
| Datasets.SelectColumnsIdempotent | src/pseudopeople/dataset.py:147 | selecting the schema columns twice changes nothing |
| Datasets.NoiseDatasetTypesCompose | src/pseudopeople/dataset.py:69 | catalog a + b is a, then b on the table a left; a failure in a stops the walk |
| Datasets.UnlistedRowTypeSkipped | src/pseudopeople/dataset.py:70-76 | a row type that row_noise does not list leaves the table as it is |
| Datasets.UnlistedColumnTypeSkipped | src/pseudopeople/dataset.py:86-100 | a column type that no column of the table lists is never called |
| Datasets.UnsupportedEntryRaises | src/pseudopeople/dataset.py:106-110 | an entry of neither kind raises TypeError with the table the earlier entries reached |
| Datasets.MissingDatasetRaises | src/pseudopeople/dataset.py:67 | a dataset missing from the configuration raises KeyError before any noise |
| Datasets.DataAttribute | src/pseudopeople/dataset.py:23 | reading `self.data` raises AttributeError until it is set |
| Datasets.InitStatements | src/pseudopeople/dataset.py:21-25 | the `__init__` statements, in their order, fail iff `data` is not yet set |
| Datasets.InitAsWritten | src/pseudopeople/dataset.py:21-25 | `__init__` in source order, starting with no attributes set: reading `self.data.index` before line 24 assigns it raises AttributeError on every call |
| Datasets.InitAsWrittenAlwaysFails | src/pseudopeople/dataset.py:21-25 | the constructor as written always raises AttributeError |
| Datasets.TruthAsWritten | src/pseudopeople/dataset.py:27-28 | `__bool__` as written is true iff the table is empty |
| Datasets.Truth | src/pseudopeople/dataset.py:27-28 | the intended truth value: the table is not empty |
| Datasets.TruthAsWrittenInverted | src/pseudopeople/dataset.py:27-28 | the written truth value is the negation of the intended one, on an empty and on a one-cell table |
| Datasets.DatasetData.constructor | src/pseudopeople/dataset.py:21-25 | the object holds the dataset, the loaded table, the stream for its index and the table's missingness |
| Datasets.DatasetData.Bool | src/pseudopeople/dataset.py:27-28 | the object is true iff its table has rows and columns |
| Datasets.DatasetData.GetNonEmptyIndex | src/pseudopeople/dataset.py:34-41 | on the object's own table and flags: every returned label is a row of the table; KeyError when a required column has no flags; on success every required column is flagged and in the table |
| Datasets.DatasetData.IsEmpty | src/pseudopeople/dataset.py:30-32 | `missingness[c]` raises KeyError exactly for a column without flags |
| Datasets.DatasetData.NoiseColumns | src/pseudopeople/dataset.py:95-100 | the loop over the columns to noise computes NoiseDatasetColumns and changes only the table |
| Datasets.DatasetData.NoiseDataset | src/pseudopeople/dataset.py:55-110 | the catalog loop computes NoiseDatasetRun on the table; the other fields stay as they were |
| Datasets.DatasetData.ReformatDatesForNoising | src/pseudopeople/dataset.py:112-142 | the table becomes ReformattedDates of it, or stays as it was when that raises |
| Datasets.DatasetData.DropExtraColumns | src/pseudopeople/dataset.py:145-147 | the table becomes the schema's columns in schema order, or stays as it was on KeyError |
| Generator.NonEmptyEntries | src/pseudopeople/configuration/generator.py:133-136 | the entries kept are exactly those that are not empty dicts |
| Generator.FoldPutFind | src/pseudopeople/configuration/generator.py:133-146 | in a dict built by `if entry: d[name] = entry` from distinct names, a name is a key iff its entry is non-empty, and it then holds that entry |
| Generator.FoldPutPruned | src/pseudopeople/configuration/generator.py:133-146 | such a dict holds no empty dict one level deeper than its entries |
| Generator.PutAllFind | src/pseudopeople/configuration/generator.py:131-132 | after the puts, a key with one value among the items holds that value |
| Generator.PutAllOrigin | src/pseudopeople/configuration/generator.py:131-132 | every key holds the value of one of the items or its original value |
| Generator.PutAllUntouched | src/pseudopeople/configuration/generator.py:131-132 | a key no item names keeps its value |
| Generator.BaselineLevel | src/pseudopeople/configuration/generator.py:110-115 | the baseline probability is 0.0 under no_noise and the declared value otherwise |
| Generator.BuildRowNoiseDict | src/pseudopeople/configuration/generator.py:108-117 | the row-noise loop computes RowNoiseDict |
| Generator.BuildColumnNoiseTypeDict | src/pseudopeople/configuration/generator.py:123-132 | the loop over one noise type's probability and parameters computes its node |
| Generator.BuildColumnNoiseDict | src/pseudopeople/configuration/generator.py:121-134 | the loop over a column's noise types computes ColumnNoiseDict |
| Generator.BuildColumnDict | src/pseudopeople/configuration/generator.py:120-136 | the loop over the columns computes ColumnDict |
| Generator.BuildDatasetDict | src/pseudopeople/configuration/generator.py:103-142 | one dataset's loops compute DatasetDict |
| Generator.GenerateBaseline | src/pseudopeople/configuration/generator.py:100-146 | the loop over DATASETS computes Baseline |
| Generator.BaselineDataset | src/pseudopeople/configuration/generator.py:145-146 | a dataset with a non-empty dict is in the baseline with that dict |
| Generator.BaselineRowProbability | src/pseudopeople/configuration/generator.py:110-117 | every declared row probability is at [dataset, row_noise, type, row_probability], 0.0 under no_noise and the declared value otherwise |
| Generator.BaselineCellProbability | src/pseudopeople/configuration/generator.py:124-129 | every declared cell probability is at [dataset, column_noise, column, type, cell_probability], 0.0 under no_noise and the declared value otherwise |
| Generator.BaselineAdditionalParameter | src/pseudopeople/configuration/generator.py:130-132 | additional parameters are copied verbatim into their column/noise node |
| Generator.BaselineOmitsUndeclared | src/pseudopeople/configuration/generator.py:109-134 | a noise type's node is empty iff it declares no probability (and, for column types, no parameters) |
| Generator.BaselinePruned | src/pseudopeople/configuration/generator.py:133-146 | no empty noise-type, column, row-noise or dataset dict is left in the baseline |
| Generator.Overlay | src/pseudopeople/configuration/generator.py:148 | an update's leaf replaces; an update's dict merges key by key |
| Generator.OverlayUpperLeaf | src/pseudopeople/configuration/generator.py:148-152 | a value the update sets is what the merged tree holds |
| Generator.OverlayMisses | src/pseudopeople/configuration/generator.py:148-152 | where the update sets nothing, the merged tree holds what it held before |
| Generator.OverlayEmpty | src/pseudopeople/configuration/generator.py:148 | merging an empty dict changes nothing, and merging into an empty dict gives the update |
| Generator.ViewPrecedence | src/pseudopeople/configuration/generator.py:93-97 | a value is read from the highest layer (user, then default, then baseline) that sets it |
| Generator.ConfigTree.constructor | src/pseudopeople/configuration/generator.py:93-98 | a new configuration has three empty layers |
| Generator.ConfigTree.Update | src/pseudopeople/configuration/generator.py:148-152 | `update(d, layer)` merges d into that layer and leaves the other two |
| Generator.GetChain | src/pseudopeople/configuration/generator.py:180-186 | a value at the path is returned; a missing key gives None only when nothing is at the path; the only error is AttributeError, from a non-dict on the way |
| Generator.Subscript | src/pseudopeople/configuration/generator.py:190-192 | `t[p0][p1]…` succeeds iff the path exists, else KeyError |
| Generator.AssignAllContents | src/pseudopeople/configuration/generator.py:194-200 | after `formatted[k] = p` for each key, every key is listed once and holds p, and earlier keys keep their place |
| Generator.AssignFromContents | src/pseudopeople/configuration/generator.py:201-203 | after copying a dict's items, each of its keys holds its value, and the other keys keep theirs |
| Generator.FormattedList | src/pseudopeople/configuration/generator.py:194-200 | a user list gives every listed key 1/len and every other default key 0 |
| Generator.FormattedDict | src/pseudopeople/configuration/generator.py:201-203 | a user dict gives every user key its value and every other default key 0 |
| Generator.FormattedListExample | tests/unit/test_configuration.py:153 | [-2, -1, 2] over the defaults -2, -1, 1, 2 gives {-2: 1/3, -1: 1/3, 1: 0, 2: 1/3} |
| Generator.ZeroedExample | src/pseudopeople/configuration/generator.py:194-195 | the default keys -2, -1, 1, 2 are first set to 0 |
| Generator.FormattedDictExample | tests/unit/test_configuration.py:154 | {-2: 0.3, 1: 0.5, 2: 0.2} gives {-2: 0.3, -1: 0, 1: 0.5, 2: 0.2} |
| Generator.FormatPerturbations | src/pseudopeople/configuration/generator.py:189-203 | the zeroing and assigning loops compute Formatted |
| Generator.SetPath | src/pseudopeople/configuration/generator.py:205-207 | the nested assignment puts the value at the path and keeps every dict's keys |
| Generator.SetPathKeepsOthers | src/pseudopeople/configuration/generator.py:205-207 | the nested assignment changes nothing at a path that leaves the assigned one |
| Generator.FormatFrom | src/pseudopeople/configuration/generator.py:179-207 | the walk over the user's datasets keeps the dict's keys |
| Generator.FormatFromEntries | src/pseudopeople/configuration/generator.py:179-207 | each dataset is formatted on its own: the walk succeeds iff every entry does, and entry k becomes FormatEntry of it |
| Generator.FormatMisreportEntries | src/pseudopeople/configuration/generator.py:177-209 | on a user dict, each dataset's entry is replaced by its formatted entry |
| Generator.FormatEntryCases | src/pseudopeople/configuration/generator.py:180-207 | an entry without truthy age perturbations is untouched. When the entry holds truthy perturbations and formatting succeeds, they are replaced by Formatted of the defaults' keys and the user's value. Every path that leaves AgePath keeps its value |
| Generator.FormatDatasetEntry | src/pseudopeople/configuration/generator.py:180-207 | the loop body for one dataset computes FormatEntry |
| Generator.FormatMisreportAgePerturbations | src/pseudopeople/configuration/generator.py:177-209 | the walk over the user's dict computes FormatMisreport |
| Generator.Lower | src/pseudopeople/configuration/generator.py:80 | lower-casing keeps the length, lowering character by character |
| Generator.ConfigurationAsWritten | src/pseudopeople/configuration/generator.py:71-89 | get_configuration as written: a str other than "no_noise" in any case raises UnboundLocalError for config_type; every other input gives exactly the corrected Configuration |
| Generator.ConfigTypeOfString | src/pseudopeople/configuration/generator.py:79-84 | a str equal to "no_noise" in any case selects NO_NOISE without a user configuration, as written and corrected; any other str leaves config_type unbound as written, and corrected it is a DEFAULT configuration with that str's contents |
| Generator.StringPathAsWrittenFails | src/pseudopeople/configuration/generator.py:79-85 | as written a str path leaves config_type unbound and raises; corrected it is a DEFAULT configuration with the user layer |
| Generator.NoNoiseUpperCase | src/pseudopeople/configuration/generator.py:80 | "NO_NOISE" lower-cases to "no_noise" |
| Generator.NoNoiseConfiguration | src/pseudopeople/configuration/generator.py:79-85 | under no_noise the configuration is the baseline alone, with empty default and user layers |
| Generator.LayersWithoutUser | src/pseudopeople/configuration/generator.py:85-88 | without a user configuration the user layer is empty, and the default layer is set only under DEFAULT |
| Generator.NoNoiseRowProbability | src/pseudopeople/configuration/generator.py:110-115 | under no_noise every declared row probability reads 0.0 from the configuration |
| Generator.GenerateConfiguration | src/pseudopeople/configuration/generator.py:92-153 | a new configuration whose layers are the baseline, and the default values only under DEFAULT |
| Generator.AddUserConfiguration | src/pseudopeople/configuration/generator.py:156-166 | the user dict, its age perturbations formatted, is merged into the user layer; on error the configuration is unchanged |
| Generator.GetConfiguration | src/pseudopeople/configuration/generator.py:71-89 | a new configuration with the layers Configuration gives, or its error |

## Left out

- Randomness: vivarium's RandomnessStream (`get_draw`, `filter_for_probability`) and numpy's `default_rng` are inputs (`Stream`, `Rng`). "Valid" draws lie in [0, 1). Hashing and bit-for-bit values are not modelled.
- Floating point: all probabilities are exact reals. Rounding in `1/(1 - 1/10)`, `/0.9`, `sum` and `cumsum` is not modelled.
- I/O: file and YAML reading (`open`, `yaml.full_load`, `pd.read_csv`, `load_standard_dataset_file`) is not modelled. The data it gives is a parameter: the option table, the nickname table, the fake-name lists, the phonetic/OCR/qwerty tables and the loaded table.
- `two_d_array_choice` (nickname choice) is not part of this model. UseNicknames takes the chooser as a function parameter.
- Constant tables are parameters: `NOISE_TYPES`, `DATASETS`, `DEFAULT_NOISE_VALUES`, `COLUMNS`/`DATEFORMATS`, `COPY_HOUSEHOLD_MEMBER_COLS`, and the do-not-respond tables (base, race and sex/age additions, default row probabilities). Their values are not modelled.
- `get_noised_data`, `format_data` and `coerce_dtypes` (dataset.py:43-53): these compose the modelled members with a dtype coercion whose source is not shown.
- `validate_user_configuration` is not part of this model. The user dict is assumed well-formed (its keys distinct).
- ConfigTree internals: the layered vivarium ConfigTree is modelled as three trees merged by `Overlay`. Attribute access (`configuration.row_noise`), freezing and the errors of `update` are not modelled.
- The `Dataset.date_format` field is not in the shown dataclass. The `Dataset` datatype carries it, since dataset.py reads it.
- Generator.Lower: str.lower is modelled on ASCII letters only.
- Generator.FormatEntry: a user perturbation dict with string keys (a tree node rather than an int-keyed map) gives TypeError in the model. Python would copy such keys.
- Generator.FormatMisreport / Generator.FormatMisreportAgePerturbations: a user configuration that is not a dict gives TypeError. The `for dataset in user_dict` iteration of other values is not modelled. The source also writes the formatted perturbations into the caller's dict in place and returns that same dict, so `get_configuration(d)` changes `d`. The model returns a new tree, and the caller's dict is not modelled.
- Datasets.ReformattedDates: `data[column] = pd.Series(np.nan, dtype=str)` then `.loc[~is_na] = result` is modelled as one assignment of the formatted column. The intermediate all-NaN column is not.
- Datasets.DatasetData.NoiseDataset: noise types are called with the object and may change its table in any way. The missingness flags are not recomputed after noising (the source leaves that as to-do comments).
- RowNoise.OmitRows / RowNoise.ApplyDoNotRespond: `omit_rows` (and `apply_do_not_respond` in the same way) passes the whole DataFrame to `get_index_to_noise`, whose `column.index[(column != "") & column.notna()]` then indexes with a two-dimensional mask. The model does not follow that pandas behaviour: every row is eligible, and a row is omitted when its draw is below its level.
- Snapshot mismatch: `ColumnNoiseType.__call__` passes a Series to its function, while the noise functions take `(data, config, stream, column_name)`. Each file's own contract is modelled and they are not joined. The catalog walks take the noise functions as parameters.
- `tqdm` progress bars and `logger.debug` are not modelled.
- Termination of the scans is proved by the `decreases` clauses of `Corrupt`, `KeyCorrupt` and their loops, not by a separate lemma.
- Tables.Frame.Valid / Tables.Series.Valid: the index is assumed strictly increasing and unique, as for a freshly loaded RangeIndex. Tables with other indexes (repeated or unordered labels) are not modelled.
- ColumnNoise.AgePerturbations / Utilities.VectorizedChoice: the configured weights are assumed non-negative with a positive sum, as configuration validation guarantees. The source's behaviour on other weights is not modelled.
- ColumnNoise.AsInt / ColumnNoise.ParseInt / ColumnNoise.ParseLiteral / ColumnNoise.Strip / ColumnNoise.IsSpace / Tables.IsDigit: the character classes are ASCII. Python's `str.isdigit`, `str.strip` and `int()` also accept Unicode digits and Unicode whitespace; those are not modelled. Surrounding ASCII whitespace, a sign and single underscores between digits are accepted as int() accepts them.
- Noise.SelectedKeys / Noise.ColumnsToNoise: a column whose configuration node is a leaf is treated as listing no noise type. Python's `noise_type.name in noise_configuration[col]` would do a substring test on a string or raise TypeError on a number.
- RowNoise.BinAddition: an age that is not a number gives NaN (no bin). `pd.cut` raises TypeError on such a value instead.
- Scans.CorruptStrings: a token_probability that is not a number raises TypeError when it is read, before any scan. The source fails only at its first comparison of a draw with the level, so a column that never reaches a draw (no values, or no value holding a table token) returns normally there.
- Datasets.DatetimeLike / Datasets.FormatDateColumn: whether the `.dt` accessor works is decided from the cells (every non-NA cell a date). pandas decides from the column's dtype, so an object-dtype column that is all NaN raises AttributeError in the source and is accepted by the model.
- ColumnNoise.SwapInvolution: the MM/DD/YYYY round trip needs at least 6 characters, and YYYYMMDD exactly 8. Other lengths are outside the promise.

## Findings

| source | as written | input that shows it | evidently intended | confidence | as-written member | corrected member |
|---|---|---|---|---|---|---|
| src/pseudopeople/noise_functions.py:180 | `pd.Series(new_values, index=data.index, name=data.name)`, where `data` is the whole DataFrame | any table: without a column called "name" the attribute read raises AttributeError, and with one a Series is passed as the name and raises TypeError (lemma ColumnNoise.ChooseWrongOptionsDiscrepancy) | the result is named after the noised column | not executed | ColumnNoise.ChooseWrongOptionsAsWritten | ColumnNoise.ChooseWrongOptions |
| src/pseudopeople/dataset.py:23-24 | `get_randomness_stream(..., self.data.index)` runs before `self.data` is assigned | every call of `DatasetData(...)` raises AttributeError (lemma Datasets.InitAsWrittenAlwaysFails) | load the table first, then build the stream from its index | not executed | Datasets.InitAsWritten | Datasets.DatasetData.constructor |
| src/pseudopeople/dataset.py:27-28 | `__bool__` returns `self.data.empty` | an empty table is truthy and a one-cell table is falsy (lemma Datasets.TruthAsWrittenInverted) | an object is truthy when it holds data | not executed | Datasets.TruthAsWritten | Datasets.Truth |
| src/pseudopeople/configuration/generator.py:79-85 | a str that is not "no_noise" leaves `config_type` unbound | `get_configuration("config.yaml")` raises UnboundLocalError (lemma Generator.StringPathAsWrittenFails) | a str path uses the DEFAULT type and is read as the user configuration | not executed | Generator.ConfigurationAsWritten | Generator.Configuration |
