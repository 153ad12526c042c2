# Heroscape points estimator: the feature schema and the record derivation

The Heroscape points estimator has two programs.

- **The trainer** (`create_ml_model/train_and_save_heroscape.py`) reads a CSV file of army cards and prepares it:
  - it relabels the integer Type codes;
  - it joins the three special-power texts SP1, SP2 and SP3 into one Abilities text;
  - it adds `logHeight = log1p(Height)` and the target `CostPerFig = Pts / NumUnits`;
  - it cuts out the feature table X (13 columns in a fixed order) and the target y.

  It then fits a scikit-learn pipeline that selects its columns by name.
- **The desktop presenter** (`heroscape_points_gui.py`) does the following:
  - it relabels Type in the same CSV file;
  - it fills each category dropdown with the sorted distinct values of that column, except Type, whose list is forced to the five labels;
  - it takes the first option as the default;
  - on Predict, it builds a one-row table from the form in the trainer's column order and multiplies the fitted model's per-figure estimate by `max(1, NumUnits)`.

The model covers the part both programs own:

- the code-to-label map;
- the power joining;
- the column derivations, with the exceptions pandas raises;
- the 13-column schema;
- the presenter's dropdown, default, strip and total steps.

It also proves that the two programs agree. The presenter's table has the trainer's columns in the trainer's order. Both programs label codes the same way. For one record, the trainer's X row is the presenter's table.

Modules:

- `Frames`: the pandas values the programs touch.
  - A `Frame` is a data frame: column names in order, columns by name, and a row count.
  - A column is `Numeric` (float64: finite, NaN or ±inf) or `Text` (object: strings and missing values).
  - `KeyError`, `TypeError` and `ValueError` are error values.
  - `df[name] = col`, `df[list]`, `np.log1p` and `/` are modelled on columns.
  - `Table` is the data frame a script mutates in place.
- `TypeCodes`: the Type relabelling step that both programs run after reading the file.
- `Trainer`: the trainer's preparation.
  - It is stated as a function, `Derive`, then `TrainingSet`.
  - It is also written as the script's in-place steps, which are proved equal to that function: `DeriveInPlace` and `Prepare`.
- `Presenter`: `build_df`, the choices and defaults, the `Form` class holding the window's state, and `predict()`.
- `Strings`: `str.strip()`, Python's string order, and the decimal rendering of an int.
- `Ordering`: sorted, duplicate-free lists.
- `SchemaAgreement`: the lemmas that tie the trainer and the presenter together.

Floating-point functions are parameters (`FloatOps.log1p`, `FloatOps.show` for `str(float)`, and `round`). So is the fitted model's `predict`, passed as `estimate`. The model fixes only the IEEE and numpy edge cases that the code's control flow depends on: NaN in, NaN out; `log1p(-1) = -inf`; division by zero gives inf or NaN rather than raising.

Three points where the code does something other than a quick reading suggests, and which the model follows:

- SP1, SP2 and SP3 are not optional. `join_powers` (create_ml_model/train_and_save_heroscape.py:25-26) looks each one up by name.
  - A file with rows but without one of them raises a KeyError on its first row (`Trainer.RowPowers`, `Trainer.DeriveError`).
  - A file with a header but no rows takes pandas' empty-table path of `apply` at line 39. With the three columns there, Abilities becomes an empty float64 column. Without one of them, `apply` returns a copy of the whole table, and assigning that to one column raises a ValueError (`Trainer.AbilitiesColumn`, `Trainer.HeaderOnlyFileWithoutPowersFails`).
- A zero unit count does not make line 41 fail. pandas divides elementwise and yields inf (or NaN for 0/0) without raising (`Frames.DivFloat`, `Trainer.CostPerFigIsPtsPerUnit`).
- `if CSV_PATH:` (heroscape_points_gui.py:44) tests a non-empty path, which is always true, so the `else` branch at lines 48-49 cannot run. Reading the file is outside the model.

## Model

| member | source | states |
|---|---|---|
| TypeCodes.LabelOf | heroscape_points_gui.py:47 | `Series.map(TYPE_MAP)` on one float64 gives a label exactly when the value is finite and integral and a key of the map, and then the map's label for it |
| TypeCodes.Relabel | create_ml_model/train_and_save_heroscape.py:36-37 | the relabelled Type column is text with the same length; a text column stays as it is; entry i of a numeric column is the label of entry i |
| TypeCodes.RelabelIsIdempotent | heroscape_points_gui.py:46-47 | relabelling an already relabelled column changes nothing |
| TypeCodes.RelabelledValues | create_ml_model/train_and_save_heroscape.py:36-37 | every relabelled entry is missing or one of the map's labels, and a known code gets its own label |
| TypeCodes.RelabelType | heroscape_points_gui.py:46-47 | the in-place step: a KeyError that leaves the table unchanged when there is no Type column; a text Type column left alone; a numeric one replaced by its relabelling, every other column kept |
| Presenter.TypeLabelsInCodeOrder | heroscape_points_gui.py:21-22 | `list(TYPE_MAP.values())` is the five labels in code order 0..4, has no duplicates and holds exactly the map's values, and no label is given to two codes |
| Presenter.TypeLabels | heroscape_points_gui.py:22 | `list(TYPE_MAP.values())`: the map's labels in code order; its properties are stated by `Presenter.TypeLabelsInCodeOrder` |
| SchemaAgreement.TypeMapsAgree | create_ml_model/train_and_save_heroscape.py:19-23 | the trainer's and the presenter's code-to-label maps are the same map |
| Trainer.SchemaGroups | create_ml_model/train_and_save_heroscape.py:43-47 | X has 13 distinct columns: the numeric, categorical and text groups are pairwise disjoint and together cover X; CostPerFig, Pts and Height are not features |
| Trainer.FeatureColumns | create_ml_model/train_and_save_heroscape.py:43-47 | `numeric_cols + categorical_cols + [text_col]`; its properties are stated by `Trainer.SchemaGroups` |
| Trainer.FeatureColumnsAreDistinct | create_ml_model/train_and_save_heroscape.py:47 | `numeric_cols + categorical_cols + [text_col]` has no name twice |
| Trainer.RawFeaturesAreFeatures | create_ml_model/train_and_save_heroscape.py:43-47 | the features read straight from the file are the features other than logHeight and Abilities, and none is the target |
| Trainer.PowerText | create_ml_model/train_and_save_heroscape.py:26 | `str(row[c])` if `pd.notna(row[c])`: a text cell as it is; a numeric cell is missing exactly when it is NaN, otherwise it is its `str` |
| Trainer.JoinThreePowers | create_ml_model/train_and_save_heroscape.py:25-26 | `join_powers` is the present values of SP1, SP2 and SP3 in that order, with a single space between consecutive present ones and nothing for an absent one |
| Trainer.PowerStep | create_ml_model/train_and_save_heroscape.py:26 | one more power field: an absent one adds nothing; a present one is the whole text when none came before, else it follows a single space |
| Trainer.AbsentPowerAddsNothing | create_ml_model/train_and_save_heroscape.py:26 | a missing power field adds neither text nor a separator |
| Trainer.NoPowersJoinToEmpty | create_ml_model/train_and_save_heroscape.py:26 | a row with every power missing gets the empty Abilities text |
| Trainer.JoinLength | create_ml_model/train_and_save_heroscape.py:26 | joining k ≥ 1 texts gives the sum of their lengths plus k − 1 |
| Trainer.JoinEnds | create_ml_model/train_and_save_heroscape.py:26 | `" ".join` of no words is empty, and otherwise starts with the first word and ends with the last |
| Trainer.Join | create_ml_model/train_and_save_heroscape.py:26 | `" ".join(words)`, defined from the words; its properties are stated by `Trainer.JoinEnds`, `Trainer.JoinLength` and `Trainer.JoinAppend` |
| Trainer.JoinPowers | create_ml_model/train_and_save_heroscape.py:25-26 | `join_powers`: `Join` of the present power texts; its properties are stated by `Trainer.JoinThreePowers`, `Trainer.PowerStep` and `Trainer.NoPowersJoinToEmpty` |
| Trainer.RowPowers | create_ml_model/train_and_save_heroscape.py:25-26 | reading one row's SP1, SP2, SP3 succeeds exactly when the three columns exist, giving each cell's text, and otherwise raises a KeyError naming a missing power column |
| Trainer.HeaderOnlyFileWithoutPowersFails | create_ml_model/train_and_save_heroscape.py:39 | a file with a header but no rows, with Type and Height but without some power column, fails the derivation with the ValueError of the Abilities assignment |
| Trainer.AbilitiesColumn | create_ml_model/train_and_save_heroscape.py:39 | `df.apply(join_powers, axis=1).fillna("")` as assigned to Abilities: with rows, a text column holding each row's joined powers, or the KeyError of the first missing power column; with no rows, an empty numeric column when the power columns exist, else the table's only column when it has one, else a ValueError |
| Trainer.Derive | create_ml_model/train_and_save_heroscape.py:35-41 | the four derivation steps succeed exactly when the file provides what they read; the result then holds the relabelled Type, Abilities, logHeight and CostPerFig, keeps every other column and has the file's row count; otherwise the exception is that of the first failing step |
| Trainer.Derivable | create_ml_model/train_and_save_heroscape.py:35-41 | what the four steps read: Type, Height, Pts, NumUnits and the three power columns, a numeric Height unless there are no rows, and Pts and NumUnits usable in arithmetic; `Trainer.Derive` succeeds exactly when it holds |
| Trainer.DerivedIsValid | create_ml_model/train_and_save_heroscape.py:37-41 | the derived data frame is a well-formed table |
| Trainer.DeriveError | create_ml_model/train_and_save_heroscape.py:36-41 | the first failing step's exception: a KeyError names a column the file lacks; a ValueError means a file without rows that lacks a power column; a log1p TypeError means a text Height with rows; a `/` TypeError means Pts or NumUnits holds strings |
| Trainer.TrainingSetSucceeds | create_ml_model/train_and_save_heroscape.py:35-48 | the preparation reaches the fitting step exactly when the file can be derived and has every raw feature column |
| Trainer.TrainingSet | create_ml_model/train_and_save_heroscape.py:47-48 | a file the derivation rejects gives the derivation's exception; after the derivation only the selection can fail, with a KeyError naming raw features the file lacks |
| Trainer.FeaturesPresent | create_ml_model/train_and_save_heroscape.py:47 | the derived frame has every feature column exactly when the file has every raw feature |
| Trainer.TrainingSetShape | create_ml_model/train_and_save_heroscape.py:43-48 | X is a well-formed table with exactly the 13 schema columns in order and one row per record; y is numeric with one entry per record; CostPerFig, Pts and Height are not columns of X |
| Trainer.TrainingSetKeepsRawFeatures | create_ml_model/train_and_save_heroscape.py:47 | every raw feature reaches X as read from the file, Type apart |
| Trainer.TrainingSetDerivedFeatures | create_ml_model/train_and_save_heroscape.py:37-47 | X's Type, Abilities and logHeight columns are the relabelled Type, the joined powers and log1p of Height |
| Trainer.FeatureIsDerivedColumn | create_ml_model/train_and_save_heroscape.py:47 | each column of X is the derived frame's column of that name |
| Trainer.TrainingSetParts | create_ml_model/train_and_save_heroscape.py:47-48 | X is the selection of the feature columns from the derived frame, and y is its CostPerFig column |
| Trainer.TrainingTarget | create_ml_model/train_and_save_heroscape.py:41-48 | y is Pts divided elementwise by NumUnits |
| Trainer.CostPerFigIsPtsPerUnit | create_ml_model/train_and_save_heroscape.py:41 | for a record with finite Pts and NumUnits, CostPerFig is Pts / NumUnits when NumUnits ≠ 0, and not finite when NumUnits = 0 |
| Frames.QuotientTimesDivisor | create_ml_model/train_and_save_heroscape.py:41 | for finite values the quotient times a non-zero divisor gives back the dividend, and a zero divisor gives a non-finite quotient |
| Trainer.TrainedTypeIsLabelled | create_ml_model/train_and_save_heroscape.py:36-37 | X's Type column is text, and when the file's was numeric every present entry is one of the five labels |
| Trainer.DerivedTarget | create_ml_model/train_and_save_heroscape.py:41 | the derived CostPerFig column is the elementwise quotient |
| Trainer.DerivedLogHeight | create_ml_model/train_and_save_heroscape.py:40 | the derived logHeight column is log1p of Height |
| Trainer.DerivedAbilities | create_ml_model/train_and_save_heroscape.py:39 | the derived Abilities column is the Abilities value of the file: each row's joined powers |
| Trainer.DerivedType | create_ml_model/train_and_save_heroscape.py:36-37 | the derived Type column is the relabelled one |
| Trainer.AbilitiesUnaffectedByType | create_ml_model/train_and_save_heroscape.py:37-39 | relabelling Type first changes neither whether the Abilities step succeeds nor its exception, and changes its value only for a table whose one column is Type |
| Trainer.DeriveInPlace | create_ml_model/train_and_save_heroscape.py:36-41 | the script's in-place steps leave the table equal to the derived frame, or stop with the exception `Derive` reports |
| Trainer.AddColumns | create_ml_model/train_and_save_heroscape.py:39-41 | after the relabelling, the three assignments give the derived frame or its exception |
| Trainer.AddNumbers | create_ml_model/train_and_save_heroscape.py:40-41 | after Abilities, the logHeight and CostPerFig assignments give the derived frame or its exception |
| Trainer.AddAbilities | create_ml_model/train_and_save_heroscape.py:39 | `df["Abilities"] = …` assigns the Abilities value, or raises its KeyError or ValueError and leaves the table unchanged |
| Trainer.AddLogHeight | create_ml_model/train_and_save_heroscape.py:40 | `df["logHeight"] = np.log1p(df["Height"])`: a KeyError without Height, a TypeError for text, otherwise the column is assigned; on an exception the table is unchanged |
| Trainer.AddTarget | create_ml_model/train_and_save_heroscape.py:41 | `df["CostPerFig"] = df["Pts"] / df["NumUnits"]`: KeyErrors in lookup order, a TypeError for strings, otherwise the quotient is assigned; on an exception the table is unchanged |
| Trainer.DeriveFailsAtAbilities | create_ml_model/train_and_save_heroscape.py:39 | a failing Abilities step is the derivation's exception |
| Trainer.DeriveFailsAtLogHeight | create_ml_model/train_and_save_heroscape.py:40 | a failing logHeight step is the derivation's exception |
| Trainer.DeriveFailsAtTarget | create_ml_model/train_and_save_heroscape.py:41 | a failing CostPerFig step is the derivation's exception |
| Trainer.DeriveIsTheAssignments | create_ml_model/train_and_save_heroscape.py:37-41 | when every step succeeds, the derived frame is what the sequence of assignments builds |
| Trainer.Prepare | create_ml_model/train_and_save_heroscape.py:35-48 | the whole in-place preparation returns exactly `TrainingSet` of the file, and leaves the table as the derived frame |
| Frames.Get | create_ml_model/train_and_save_heroscape.py:40-41 | `df[name]` is the column when it exists, and otherwise a KeyError naming it |
| Frames.WithName | create_ml_model/train_and_save_heroscape.py:39-41 | a new column name is appended after the existing ones and an existing one keeps its place; names stay distinct |
| Frames.Assign | create_ml_model/train_and_save_heroscape.py:37-41 | `df[name] = col` keeps the table well formed, replaces or adds that column, keeps every other column and the row count |
| Frames.Table.SetColumn | create_ml_model/train_and_save_heroscape.py:39-41 | the in-place assignment leaves the table equal to `Assign` of the old one |
| Frames.Select | create_ml_model/train_and_save_heroscape.py:47 | `df[names]` succeeds exactly when every name is a column, giving those columns in that order; otherwise a KeyError listing the missing ones |
| Frames.MissingNames | create_ml_model/train_and_save_heroscape.py:47 | the requested names that are not columns, which the KeyError of `df[names]` lists: a name is in it exactly when it is requested and not a column |
| Frames.FirstMissing | heroscape_points_gui.py:57-65 | nothing is returned exactly when every name is a key; otherwise it returns the first name, in order, that is not a key |
| Frames.Log1pColumn | create_ml_model/train_and_save_heroscape.py:40 | `np.log1p` of a column succeeds exactly for a numeric (or empty) one, entry by entry |
| Frames.Log1pFloat | create_ml_model/train_and_save_heroscape.py:40 | numpy's log1p: NaN stays NaN, −1 gives −inf, below −1 gives NaN |
| Frames.DivideColumns | create_ml_model/train_and_save_heroscape.py:41 | elementwise division succeeds exactly when neither column holds a string, and raises a TypeError otherwise |
| Frames.DivFloat | create_ml_model/train_and_save_heroscape.py:41 | IEEE division: the quotient times a non-zero finite divisor is the dividend; a zero divisor gives a non-finite value; NaN stays NaN |
| Frames.AsFloats | create_ml_model/train_and_save_heroscape.py:41 | a column can take part in arithmetic exactly when it is numeric or holds only missing values |
| Frames.PresentMembers | heroscape_points_gui.py:51 | `dropna()` keeps exactly the values that are present |
| Presenter.ColumnsAreRecordKeys | heroscape_points_gui.py:57-66 | `order` has 13 distinct names; they are the record's keys with Height traded for logHeight |
| Presenter.ColumnOrder | heroscape_points_gui.py:66 | `order`, written as the literal list; its properties are stated by `Presenter.ColumnsAreRecordKeys` and `SchemaAgreement.ColumnOrdersAgree` |
| Presenter.Cell | heroscape_points_gui.py:67 | a one-record table has one cell per column: numeric for an int, text for a string |
| Presenter.Row | heroscape_points_gui.py:57-67 | the table is well formed, in `order`, and has one row |
| Presenter.BuildDf | heroscape_points_gui.py:56-67 | `build_df` succeeds exactly when the record has every key and an integer Height, giving a one-row table in `order` |
| Presenter.Buildable | heroscape_points_gui.py:56-65 | what `build_df` reads: every key of the row literal, and an int Height for `np.log1p`; `Presenter.BuildDf` succeeds exactly when it holds |
| Presenter.BuildDfRaisesTypeError | heroscape_points_gui.py:57-60 | `build_df` raises log1p's TypeError exactly when Life .. Height are all there and Height is a string |
| Presenter.BuildDfRaisesKeyError | heroscape_points_gui.py:57-65 | a KeyError names the first key the row literal reads that is missing; a key after Height is reached only with an integer Height |
| Presenter.BuildDfCopiesFields | heroscape_points_gui.py:57-65 | every field of the record but Height reaches the column of the same name unchanged; Height is not a column, and logHeight is log1p of it |
| Presenter.BuildDfAbilities | heroscape_points_gui.py:62 | the Abilities column is the record's Abilities field |
| Presenter.TextChoicesAreSortedValues | heroscape_points_gui.py:51 | a text category's options are exactly its distinct present strings, in ascending order, and the only strictly increasing list of them |
| Presenter.NumericChoicesAreSortedValues | heroscape_points_gui.py:51 | a numeric category's options are exactly its distinct non-NaN numbers, in ascending order |
| Presenter.ChoicesAreDistinctValues | heroscape_points_gui.py:51 | no option appears twice, and each is a present value of its column |
| Presenter.FloatLessIsStrictTotalOrder | heroscape_points_gui.py:51 | numpy's order on the non-NaN float64 values is a strict total order |
| Presenter.NonNaN | heroscape_points_gui.py:51 | `dropna()` on numbers keeps exactly the values that are not NaN |
| Presenter.Choices | heroscape_points_gui.py:51 | `sorted(column.dropna().unique())`: the present values' strictly sorted distinct list; its properties are stated by `Presenter.TextChoicesAreSortedValues`, `Presenter.NumericChoicesAreSortedValues` and `Presenter.ChoicesAreDistinctValues` |
| Presenter.TypeChoices | heroscape_points_gui.py:52 | the Type list after the override: the five labels as choices |
| Presenter.ObservedChoices | heroscape_points_gui.py:51 | `cat_opts` has one entry per category holding that column's choices, or is the KeyError of the first missing category |
| Presenter.Default | heroscape_points_gui.py:53 | the default is the first option, or "" when there are none |
| Presenter.DefaultIsLeastText | heroscape_points_gui.py:51-53 | a text category's default is its least present string, or "" when it has none |
| Presenter.TypeDefault | heroscape_points_gui.py:52-53 | the Type default is "Unique Hero" whatever the file held |
| Presenter.Defaults | heroscape_points_gui.py:53 | `cat_default` has the same keys as `cat_opts`, each the default of its list |
| Presenter.ShownDefaults | heroscape_points_gui.py:89-91 | each category box starts with its default, rendered as text |
| Presenter.Render | heroscape_points_gui.py:91-92 | the text a box shows for a choice: a string as it is, a number by `str` |
| Presenter.InitialNumbers | heroscape_points_gui.py:82-85 | the integer fields start at 0, except NumUnits at 1 |
| Presenter.TypeIsACategory | heroscape_points_gui.py:51-52 | forcing Type's list keeps the same set of dropdowns |
| Presenter.Form.ForceTypeChoices | heroscape_points_gui.py:52 | only Type's list is replaced, by the five labels |
| Presenter.Form.constructor | heroscape_points_gui.py:52-100 | the window opens with the observed lists and Type's forced to the labels, each default the first option, each box showing its default, the integer fields at their start values, empty Abilities and the prompt |
| Presenter.FormRecord | heroscape_points_gui.py:106-108 | the record holds the integer fields, the category strings, and the stripped Abilities text |
| Presenter.FormFieldsCoverRecord | heroscape_points_gui.py:106-107 | every key `build_df` reads is a field of the form; Height and NumUnits are integer fields |
| Presenter.FormRecordBuilds | heroscape_points_gui.py:106-109 | the form's record always builds a table, with the NumUnits field as its unit count |
| Presenter.FormAbilitiesAreStripped | heroscape_points_gui.py:108 | the Abilities text handed to `build_df` has no whitespace at either end, and stripping it again changes nothing |
| Presenter.Multiplier | heroscape_points_gui.py:111 | `max(1, n)` is at least 1 and at least n, is n when n ≥ 1, and is 1 when n ≤ 1 |
| Presenter.PredictedTotal | heroscape_points_gui.py:109-111 | the total exists exactly when the record builds and NumUnits is an int, and then it is the estimate times `max(1, NumUnits)` |
| Presenter.SingleFigureTotalIsEstimate | heroscape_points_gui.py:111 | a unit count of one or less leaves the estimate as it is |
| Presenter.Form.Predict | heroscape_points_gui.py:104-112 | `predict()` on a valid form always reaches the result label, showing the rounded total, and changes nothing else |
| Presenter.DisplayShowsPoints | heroscape_points_gui.py:112 | the label is the fixed prefix followed by a decimal numeral that reads back as the rounded total |
| Presenter.DisplayText | heroscape_points_gui.py:100-112 | the label's text: the start-up prompt, or the fixed prefix and the rounded total; its property is stated by `Presenter.DisplayShowsPoints` |
| Presenter.Startup | heroscape_points_gui.py:44-53 | start-up succeeds exactly when the file has Type and every category; without Type it raises that KeyError and changes nothing; otherwise it relabels a numeric Type in place and keeps a text one, then raises the KeyError of the first missing category or opens the form on the observed choices with Type's forced, the integer fields at their start values, each box showing its default, empty Abilities and the prompt |
| Strings.LStrip | heroscape_points_gui.py:108 | the left strip is a suffix of the text, with only whitespace before it and no whitespace at its start |
| Strings.RStrip | heroscape_points_gui.py:108 | the right strip is a prefix of the text, with only whitespace after it and no whitespace at its end |
| Strings.StripIsTrim | heroscape_points_gui.py:108 | `strip()` is a slice with only whitespace outside it and no whitespace at its ends |
| Strings.TrimIsUnique | heroscape_points_gui.py:108 | there is only one such slice, so `strip()` is fixed by that property |
| Strings.StripIsIdempotent | heroscape_points_gui.py:108 | stripping twice is stripping once |
| Strings.Strip | heroscape_points_gui.py:108 | `str.strip()` as the right strip of the left strip; its properties are stated by `Strings.StripIsTrim`, `Strings.TrimIsUnique` and `Strings.StripIsIdempotent` |
| Strings.LexLessIsStrictTotalOrder | heroscape_points_gui.py:51 | Python's string order is a strict total order |
| Strings.DecimalRoundTrip | heroscape_points_gui.py:112 | the decimal numeral of an int is well formed and reads back as that int |
| Strings.DecimalIsCanonical | heroscape_points_gui.py:112 | the numeral has a minus sign exactly for negatives and no leading zeros |
| Strings.Decimal | heroscape_points_gui.py:112 | `str(n)` of an int, a minus sign then the digits of a negative n; its properties are stated by `Strings.DecimalRoundTrip` and `Strings.DecimalIsCanonical` |
| Ordering.SortedDistinct | heroscape_points_gui.py:51 | `sorted(set(xs))` is strictly increasing and holds exactly the values of xs |
| Ordering.SortedIsUnique | heroscape_points_gui.py:51 | two strictly increasing lists with the same values are equal |
| SchemaAgreement.ColumnOrdersAgree | heroscape_points_gui.py:66 | the presenter's `order` is the trainer's `numeric_cols + categorical_cols + [text_col]` |
| SchemaAgreement.PresenterTableHasTheFeatures | heroscape_points_gui.py:66-67 | selecting the trainer's feature columns from the presenter's table gives back that table unchanged |
| SchemaAgreement.LogHeightCellsAgree | heroscape_points_gui.py:60 | the trainer's log1p of a one-cell Height column is the presenter's logHeight cell |
| SchemaAgreement.AbilitiesCellsAgree | create_ml_model/train_and_save_heroscape.py:39 | the trainer's joined powers of a one-row file are the presenter's one-cell Abilities column |
| SchemaAgreement.FeatureRowAgrees | create_ml_model/train_and_save_heroscape.py:47 | a table holding what the trainer puts in X for a one-record file is the presenter's table for a form with that record's values, the file's Type being a label or a code whose label the form shows |
| SchemaAgreement.OneRecordSameFeatures | create_ml_model/train_and_save_heroscape.py:35-47 | for a one-record file, its Type a label or a code, and a form holding its values, Type's label and its joined powers, the trainer succeeds and its X is exactly the presenter's table |
| SchemaAgreement.LabelledTypeAgrees | heroscape_points_gui.py:46-47 | a file whose Type cell already holds the form's label meets the Type condition of the agreement |
| SchemaAgreement.CodedTypeAgrees | create_ml_model/train_and_save_heroscape.py:36-37 | a file whose Type cell holds an integer code meets it when the form shows that code's label |

## Left out

- Widgets, layout, the background image, `mainloop`, and the button binding (heroscape_points_gui.py:70-119 apart from the steps above): these are user interface. The form's state is the `Presenter.Form` class.
- The `messagebox` path in `predict()`: for a form whose fields hold ints it is never reached, which `Presenter.Form.Predict` proves. What `IntVar.get()` makes of the typed text is not modelled, because the integer fields are modelled as the ints it returns. It reads the text as an int, and otherwise as a float cut to an int ("2.5" gives 2). Text that is not a number makes it raise, and `predict()` then shows the message box.
- `joblib.load`/`joblib.dump`, `pd.read_csv`, argparse and the PyInstaller path selection: these are input and output. The table read from the file is a parameter.
- The data file's dtypes: a column is numeric or text with missing values, and the model does not tell int64 from float64. The two agree on the arithmetic, the comparisons and the Type map's key lookup for every value short of overflow, which is not modelled.
- Trainer.PowerText: renders a numeric cell with the parameter `ops.show`, one rendering per value. `str()` gives `5` for an int64 cell and `5.0` for a float64 one, so the model does not fix whether a number in a power column is shown with a decimal point.
- Presenter.Render: the same holds for the numeric options of a category dropdown.
- The `else` branch after `if CSV_PATH:` (heroscape_points_gui.py:48-49): a `pathlib.Path` is always true, so the branch cannot run.
- Fitting, prediction and evaluation (create_ml_model/train_and_save_heroscape.py:51-88): these are scikit-learn numerics. `model.predict(df)[0]` is the parameter `estimate`.
- `np.log1p`, `np.expm1`, `str(float)` and `round()` on floats: these are floating-point numerics. They are parameters, with only the edge cases above fixed.
- Frames.Select: requires distinct names, because a frame keys its columns by name. Every call passes the fixed 13-name schema, which is proved distinct.
- Trainer.CostPerFigIsPtsPerUnit: states CostPerFig as the real quotient of finite values, not as the rounded float64 one. `Frames.QuotientTimesDivisor` states `CostPerFig × NumUnits = Pts` for those values.
