/**
 * The trainer's data preparation (create_ml_model/train_and_save_heroscape.py):
 * relabel Type, join the three special-power texts into Abilities, add
 * logHeight and the target CostPerFig, and cut out the feature table X and the
 * target column y in the fixed schema order the fitted pipeline depends on.
 */
module Trainer {
  import opened Frames
  import TypeCodes

  const TypeMap: map<int, string> :=
    map[0 := "Unique Hero", 1 := "Common Hero", 2 := "Unique Squad", 3 := "Common Squad", 4 := "Event Hero"]

  const PowerColumns: seq<string> := ["SP1", "SP2", "SP3"]

  const NumericCols: seq<string> := ["Life", "MVE", "RGE", "ATK", "DEF", "logHeight", "NumUnits"]
  const CategoricalCols: seq<string> := ["Army", "Race", "Class", "Size", "Type"]
  const TextCol: string := "Abilities"
  const Target: string := "CostPerFig"

  /** The columns of X, in order. */
  function FeatureColumns(): seq<string> {
    NumericCols + CategoricalCols + [TextCol]
  }

  lemma FeatureColumnsAreDistinct()
    ensures Distinct(FeatureColumns())
  {
    NumericColsAreDistinct();
    CategoricalColsAreDistinct();
    GroupsAreDisjoint();
    DistinctConcat(NumericCols, CategoricalCols);
    DistinctConcat(NumericCols + CategoricalCols, [TextCol]);
  }

  lemma NumericColsAreDistinct()
    ensures Distinct(NumericCols)
  {
  }

  lemma CategoricalColsAreDistinct()
    ensures Distinct(CategoricalCols)
  {
  }

  /** No column is in two of the numeric, categorical and text groups. */
  lemma GroupsAreDisjoint()
    ensures forall c :: c in NumericCols ==> c !in CategoricalCols && c != TextCol
    ensures TextCol !in CategoricalCols
  {
  }

  /**
   * The schema of X: 13 distinct columns, the numeric, categorical and text
   * groups pairwise disjoint and together covering it; the target and the raw
   * Pts and Height columns are not features.
   */
  lemma SchemaGroups()
    ensures |FeatureColumns()| == 13 && Distinct(FeatureColumns())
    ensures forall c :: c in FeatureColumns() <==> c in NumericCols || c in CategoricalCols || c == TextCol
    ensures forall c :: c in NumericCols ==> c !in CategoricalCols && c != TextCol
    ensures TextCol !in CategoricalCols
    ensures Target !in FeatureColumns() && "Pts" !in FeatureColumns() && "Height" !in FeatureColumns()
  {
    FeatureColumnsAreDistinct();
    GroupsAreDisjoint();
  }

  /** The feature columns read straight from the CSV file (all but the two derived ones). */
  const RawFeatures: seq<string> :=
    ["Life", "MVE", "RGE", "ATK", "DEF", "NumUnits", "Army", "Race", "Class", "Size", "Type"]

  /** The raw features are the features other than the two derived ones. */
  lemma RawFeaturesAreFeatures()
    ensures forall c :: c in RawFeatures <==> c in FeatureColumns() && c != "logHeight" && c != TextCol
    ensures forall c :: c in RawFeatures ==> c != Target
  {
  }

  // ---------- joining the special powers ----------

  /** `" ".join(words)` */
  function Join(ws: seq<string>): string {
    if |ws| == 0 then "" else if |ws| == 1 then ws[0] else Join(ws[..|ws| - 1]) + " " + ws[|ws| - 1]
  }

  /** The joined text is empty for no words, else starts with the first word and ends with the last. */
  lemma {:induction false} JoinEnds(ws: seq<string>)
    ensures ws == [] ==> Join(ws) == ""
    ensures |ws| >= 1 ==> |ws[0]| <= |Join(ws)| && Join(ws)[..|ws[0]|] == ws[0]
    ensures |ws| >= 1 ==> |ws[|ws| - 1]| <= |Join(ws)| && Join(ws)[|Join(ws)| - |ws[|ws| - 1]|..] == ws[|ws| - 1]
  {
    if |ws| > 1 {
      var init := ws[..|ws| - 1];
      JoinEnds(init);
      assert init[0] == ws[0];
      var j := Join(init);
      assert Join(ws) == j + " " + ws[|ws| - 1];
      assert (j + " " + ws[|ws| - 1])[..|ws[0]|] == j[..|ws[0]|];
    }
  }

  /** `join_powers`: the present power texts joined by single spaces. */
  function JoinPowers(powers: seq<Option<string>>): string {
    Join(Present(powers))
  }

  function TotalLength(ws: seq<string>): nat {
    if ws == [] then 0 else TotalLength(ws[..|ws| - 1]) + |ws[|ws| - 1]|
  }

  lemma {:induction false} PresentAppend(xs: seq<Option<string>>, x: Option<string>)
    ensures Present(xs + [x]) == Present(xs) + (if x.Some? then [x.value] else [])
  {
    if xs != [] {
      assert (xs + [x])[1..] == xs[1..] + [x];
      PresentAppend(xs[1..], x);
    }
  }

  lemma JoinAppend(ws: seq<string>, w: string)
    ensures Join(ws + [w]) == if ws == [] then w else Join(ws) + " " + w
  {
    assert (ws + [w])[..|ws|] == ws;
  }

  /** An absent power adds neither text nor a separator. */
  lemma AbsentPowerAddsNothing(powers: seq<Option<string>>)
    ensures JoinPowers(powers + [None]) == JoinPowers(powers)
  {
    PresentAppend(powers, None);
    assert Present(powers) + [] == Present(powers);
  }

  /** A present power is appended after one space, or stands alone when nothing precedes it. */
  lemma PresentPowerIsAppended(powers: seq<Option<string>>, s: string)
    ensures JoinPowers(powers + [Some(s)]) ==
            if Present(powers) == [] then s else JoinPowers(powers) + " " + s
  {
    PresentAppend(powers, Some(s));
    JoinAppend(Present(powers), s);
  }

  /** With no power present the text is empty. */
  lemma {:induction false} NoPowersJoinToEmpty(powers: seq<Option<string>>)
    requires forall i :: 0 <= i < |powers| ==> powers[i].None?
    ensures JoinPowers(powers) == ""
  {
    if powers != [] {
      NoPowersJoinToEmpty(powers[1..]);
    }
  }

  /** With k >= 1 words, the joined length is the sum of their lengths plus k - 1 separators. */
  lemma {:induction false} JoinLength(ws: seq<string>)
    requires |ws| >= 1
    ensures |Join(ws)| == TotalLength(ws) + |ws| - 1
  {
    if |ws| > 1 {
      JoinLength(ws[..|ws| - 1]);
    }
  }

  /** The three-field case written out: each present value is followed by a space exactly when a later one is present. */
  lemma JoinThreePowers(a: Option<string>, b: Option<string>, c: Option<string>)
    ensures JoinPowers([a, b, c]) ==
              (if a.Some? then a.value else "")
              + (if a.Some? && (b.Some? || c.Some?) then " " else "")
              + (if b.Some? then b.value else "")
              + (if b.Some? && c.Some? then " " else "")
              + (if c.Some? then c.value else "")
  {
    if c.None? {
      JoinThreeLastAbsent(a, b);
    } else {
      JoinThreeLastPresent(a, b, c.value);
    }
  }

  lemma JoinThreeLastAbsent(a: Option<string>, b: Option<string>)
    ensures JoinPowers([a, b, None]) ==
              (if a.Some? then a.value else "") + (if a.Some? && b.Some? then " " else "")
              + (if b.Some? then b.value else "") + "" + ""
  {
    JoinTwoPowers(a, b);
    assert [a, b, None] == [a, b] + [None];
    AbsentPowerAddsNothing([a, b]);
  }

  lemma JoinThreeLastPresent(a: Option<string>, b: Option<string>, z: string)
    ensures JoinPowers([a, b, Some(z)]) ==
              (if a.Some? then a.value else "") + (if a.Some? then " " else "")
              + (if b.Some? then b.value else "") + (if b.Some? then " " else "") + z
  {
    JoinTwoPowers(a, b);
    assert [a, b, Some(z)] == [a, b] + [Some(z)];
    PresentPowerIsAppended([a, b], z);
    match (a, b)
    case (None, None) =>
    case (Some(x), None) => assert JoinPowers([a, b]) == x;
    case (None, Some(y)) => assert JoinPowers([a, b]) == y;
    case (Some(x), Some(y)) =>
  }

  lemma JoinTwoPowers(a: Option<string>, b: Option<string>)
    ensures Present([a, b]) == [] <==> a.None? && b.None?
    ensures JoinPowers([a, b]) ==
              (if a.Some? then a.value else "")
              + (if a.Some? && b.Some? then " " else "")
              + (if b.Some? then b.value else "")
  {
    assert [a, b] == [a] + [b];
    assert [a] == [] + [a];
    PowerStep([], a);
    PowerStep([a], b);
    PresentAppend([], a);
    PresentAppend([a], b);
    if a.None? {
      assert "" + "" + (if b.Some? then b.value else "") == (if b.Some? then b.value else "");
    } else if b.None? {
      assert a.value + "" + "" == a.value;
    }
  }

  /** One more power: nothing when it is absent, its text after a space when something precedes it. */
  lemma PowerStep(powers: seq<Option<string>>, x: Option<string>)
    ensures JoinPowers(powers + [x]) ==
            if x.None? then JoinPowers(powers)
            else if Present(powers) == [] then x.value
            else JoinPowers(powers) + " " + x.value
  {
    if x.None? { AbsentPowerAddsNothing(powers); } else { PresentPowerIsAppended(powers, x.value); }
  }

  /** `str(row[c])` for a present cell, None for a missing one. */
  function PowerText(ops: FloatOps, c: Column, i: nat): (r: Option<string>)
    requires i < c.Length()
    ensures c.Text? ==> r == c.strs[i]
    ensures c.Numeric? ==> (r.None? <==> c.nums[i].NaN?)
    ensures c.Numeric? && r.Some? ==> r.value == ShowFloat(ops, c.nums[i])
  {
    match c
    case Text(v) => v[i]
    case Numeric(v) => if v[i].NaN? then None else Some(ShowFloat(ops, v[i]))
  }

  /** `row[c] for c in ("SP1", "SP2", "SP3")`: a KeyError names the first power column missing. */
  function RowPowers(f: Frame, i: nat, ops: FloatOps): (r: Result<seq<Option<string>>>)
    requires f.Valid() && i < f.rows
    ensures r.Ok? <==> forall c :: c in PowerColumns ==> c in f.cols
    ensures r.Ok? ==> |r.value| == 3 && forall k :: 0 <= k < 3 ==> r.value[k] == PowerText(ops, f.cols[PowerColumns[k]], i)
    ensures r.Err? ==> exists c :: c in PowerColumns && c !in f.cols && r.error == KeyError([c])
  {
    match FirstMissing(f.cols.Keys, PowerColumns)
    case Some(c) => Err(KeyError([c]))
    case None => Ok(seq(3, k requires 0 <= k < 3 => PowerText(ops, f.cols[PowerColumns[k]], i)))
  }

  /**
   * `df.apply(join_powers, axis=1).fillna("")`, as the value assigned to the
   * Abilities column. With rows it is one joined text per row: the join always
   * yields a string, so no entry is missing and the fill changes nothing, and
   * a missing power column raises a KeyError on the first row. With no rows
   * pandas calls `join_powers` once on an empty row indexed by the column
   * names. When the power columns are there that call returns a string and
   * the result is an empty float64 column. When one is missing the KeyError
   * is swallowed and the result is a copy of the whole table, which can be
   * assigned to one column only when it has a single column; otherwise the
   * assignment raises a ValueError.
   */
  function AbilitiesColumn(f: Frame, ops: FloatOps): (r: Result<Column>)
    requires f.Valid()
    ensures r.Ok? <==> (forall c :: c in PowerColumns ==> c in f.cols) || (f.rows == 0 && |f.names| == 1)
    ensures r.Ok? ==> r.value.Length() == f.rows
    ensures f.rows > 0 && r.Ok? ==>
              && r.value.Text?
              && forall i :: 0 <= i < f.rows ==>
                   RowPowers(f, i, ops).Ok? && r.value.strs[i] == Some(JoinPowers(RowPowers(f, i, ops).value))
    ensures f.rows > 0 && r.Err? ==> r.error == KeyError([FirstMissing(f.cols.Keys, PowerColumns).value])
    ensures f.rows == 0 && (forall c :: c in PowerColumns ==> c in f.cols) ==> r == Ok(Numeric([]))
    ensures f.rows == 0 && !(forall c :: c in PowerColumns ==> c in f.cols) ==>
              r == if |f.names| == 1 then Ok(f.cols[f.names[0]]) else Err(ValueError("Abilities"))
  {
    match FirstMissing(f.cols.Keys, PowerColumns)
    case Some(c) =>
      if f.rows > 0 then Err(KeyError([c]))
      else if |f.names| == 1 then Ok(f.cols[f.names[0]])
      else Err(ValueError("Abilities"))
    case None =>
      if f.rows == 0 then Ok(Numeric([]))
      else Ok(Text(seq(f.rows, i requires 0 <= i < f.rows => Some(JoinPowers(RowPowers(f, i, ops).value)))))
  }

  /** A table with both a Type and a Height column has at least two columns. */
  lemma TypeAndHeightAreTwoColumns(f: Frame)
    requires f.Valid() && "Type" in f.cols && "Height" in f.cols
    ensures |f.names| >= 2
  {
    assert "Type" in f.names && "Height" in f.names;
    var i :| 0 <= i < |f.names| && f.names[i] == "Type";
    var j :| 0 <= j < |f.names| && f.names[j] == "Height";
    assert i != j;
  }

  // ---------- the preprocessing script ----------

  /** What the four derivation steps need of the CSV file. */
  predicate Derivable(f: Frame) {
    && "Type" in f.cols && "Height" in f.cols && "Pts" in f.cols && "NumUnits" in f.cols
    && (forall c :: c in PowerColumns ==> c in f.cols)
    && (f.cols["Height"].Numeric? || f.rows == 0)
    && AsFloats(f.cols["Pts"]).Some? && AsFloats(f.cols["NumUnits"]).Some?
  }

  /**
   * The data frame after the four derivation steps of the script: Type
   * relabelled, then Abilities, logHeight and CostPerFig set from the columns
   * of the file; every other column is left as read. Relabelling a Type column
   * that is already text gives the same column back, so assigning it is the
   * same as the script's skipping it.
   */
  function Derive(f: Frame, ops: FloatOps): (r: Result<Frame>)
    requires f.Valid()
    ensures r.Ok? <==> Derivable(f)
    ensures r.Ok? ==> r.value.rows == f.rows
    ensures r.Ok? ==>
              r.value.cols ==
              f.cols["Type" := TypeCodes.Relabel(TypeMap, f.cols["Type"])]
                    ["Abilities" := AbilitiesColumn(f, ops).value]
                    ["logHeight" := Log1pColumn(ops, f.cols["Height"]).value]
                    [Target := DivideColumns(f.cols["Pts"], f.cols["NumUnits"]).value]
    ensures r.Ok? ==> forall c :: c in f.cols && c != "Type" && c != "Abilities" && c != "logHeight" && c != Target ==>
                        c in r.value.cols && r.value.cols[c] == f.cols[c]
    ensures r.Err? ==> r.error == DeriveError(f)
  {
    if Derivable(f) then
      var cols := f.cols["Type" := TypeCodes.Relabel(TypeMap, f.cols["Type"])]
                        ["Abilities" := AbilitiesColumn(f, ops).value]
                        ["logHeight" := Log1pColumn(ops, f.cols["Height"]).value]
                        [Target := DivideColumns(f.cols["Pts"], f.cols["NumUnits"]).value];
      Ok(Frame(WithName(WithName(WithName(f.names, "Abilities"), "logHeight"), Target), cols, f.rows))
    else Err(DeriveError(f))
  }

  /** The derived data frame is a well-formed table: it is what the four column assignments build. */
  lemma DerivedIsValid(f: Frame, ops: FloatOps)
    requires f.Valid() && Derivable(f)
    ensures Derive(f, ops).value.Valid()
  {
    var f1 := Assign(f, "Type", TypeCodes.Relabel(TypeMap, f.cols["Type"]));
    var f2 := Assign(f1, "Abilities", AbilitiesColumn(f, ops).value);
    var f3 := Assign(f2, "logHeight", Log1pColumn(ops, f.cols["Height"]).value);
    var f4 := Assign(f3, Target, DivideColumns(f.cols["Pts"], f.cols["NumUnits"]).value);
    assert "Type" in f.names;
    assert f4 == Derive(f, ops).value;
  }

  /**
   * The exception of the first step that fails: the Type lookup, a power
   * column looked up by `join_powers` on the first row, the assignment of a
   * whole table to Abilities when a file without rows lacks a power column,
   * the Height lookup, `np.log1p` on text, the Pts and NumUnits lookups, then
   * the division.
   */
  function DeriveError(f: Frame): (e: Error)
    requires f.Valid() && !Derivable(f)
    ensures e.KeyError? ==> |e.missing| == 1 && e.missing[0] !in f.cols
    ensures e.ValueError? ==> e.column == "Abilities" && f.rows == 0 && exists c :: c in PowerColumns && c !in f.cols
    ensures e.TypeError? && e.op == "log1p" ==> "Height" in f.cols && f.cols["Height"].Text? && f.rows > 0
    ensures e.TypeError? ==> e.op == "log1p" || e.op == "/"
    ensures e.TypeError? && e.op == "/" ==>
              "Pts" in f.cols && "NumUnits" in f.cols
              && (AsFloats(f.cols["Pts"]).None? || AsFloats(f.cols["NumUnits"]).None?)
  {
    if "Type" !in f.cols then KeyError(["Type"])
    else if f.rows > 0 && FirstMissing(f.cols.Keys, PowerColumns).Some? then
      KeyError([FirstMissing(f.cols.Keys, PowerColumns).value])
    else if FirstMissing(f.cols.Keys, PowerColumns).Some? && |f.names| != 1 then ValueError("Abilities")
    else if "Height" !in f.cols then KeyError(["Height"])
    else if f.rows > 0 && f.cols["Height"].Text? then TypeError("log1p")
    else if "Pts" !in f.cols then KeyError(["Pts"])
    else if "NumUnits" !in f.cols then KeyError(["NumUnits"])
    else TypeError("/")
  }

  /**
   * A file with a header but no rows that lacks a power column stops at the
   * Abilities assignment with a ValueError, after the Type lookup succeeded.
   */
  lemma HeaderOnlyFileWithoutPowersFails(f: Frame, ops: FloatOps)
    requires f.Valid() && f.rows == 0 && "Type" in f.cols && "Height" in f.cols
    requires !(forall c :: c in PowerColumns ==> c in f.cols)
    ensures Derive(f, ops) == Err(ValueError("Abilities"))
  {
    TypeAndHeightAreTwoColumns(f);
  }

  datatype TrainingData = TrainingData(x: Frame, y: Column)

  /**
   * `X = df[numeric_cols + categorical_cols + [text_col]]` and `y = df["CostPerFig"]`.
   * A derivation step raises, or else the selection raises a KeyError naming
   * raw features the file lacks.
   */
  function TrainingSet(f: Frame, ops: FloatOps): (r: Result<TrainingData>)
    requires f.Valid()
    ensures !Derivable(f) ==> r == Err(DeriveError(f))
    ensures Derivable(f) && r.Err? ==>
              && r.error.KeyError? && |r.error.missing| > 0
              && forall n :: n in r.error.missing ==> n in RawFeatures && n !in f.cols
  {
    var g :- Derive(f, ops);
    DerivedKeys(f, ops);
    FeatureColumnsAreDistinct();
    var sel := Select(g, FeatureColumns());
    if sel.Err? then
      MissingFeaturesAreRaw(f.cols.Keys, g.cols.Keys, sel.error.missing);
      Err(sel.error)
    else Ok(TrainingData(sel.value, g.cols[Target]))
  }

  /** A feature column missing after the derivation is a raw feature the file lacks. */
  lemma MissingFeaturesAreRaw(read: set<string>, derived: set<string>, missing: seq<string>)
    requires derived == read + {"Type", "Abilities", "logHeight", Target}
    requires forall n :: n in missing ==> n in FeatureColumns() && n !in derived
    ensures forall n :: n in missing ==> n in RawFeatures && n !in read
  {
    RawFeaturesAreFeatures();
  }

  /** What the CSV file must provide for the script to reach the fitting step. */
  ghost predicate Trainable(f: Frame) {
    Derivable(f) && forall c :: c in RawFeatures ==> c in f.cols
  }

  /** The script fails (with a KeyError or a TypeError) exactly when the file does not provide that. */
  lemma TrainingSetSucceeds(f: Frame, ops: FloatOps)
    requires f.Valid()
    ensures TrainingSet(f, ops).Ok? <==> Trainable(f)
  {
    if Derivable(f) {
      DerivedKeys(f, ops);
      FeaturesPresent(f.cols.Keys, Derive(f, ops).value.cols.Keys);
    }
  }

  /** The derived frame is valid and has the file's columns and the four it assigns. */
  lemma DerivedKeys(f: Frame, ops: FloatOps)
    requires f.Valid() && Derivable(f)
    ensures Derive(f, ops).Ok? && Derive(f, ops).value.Valid()
    ensures Derive(f, ops).value.cols.Keys == f.cols.Keys + {"Type", "Abilities", "logHeight", Target}
  {
    DerivedIsValid(f, ops);
  }

  /** The derived frame has every feature column exactly when the file has every raw feature. */
  lemma FeaturesPresent(read: set<string>, derived: set<string>)
    requires "Type" in read && derived == read + {"Type", "Abilities", "logHeight", Target}
    ensures (forall n :: n in FeatureColumns() ==> n in derived) <==> (forall c :: c in RawFeatures ==> c in read)
  {
    RawFeaturesAreFeatures();
    if forall n :: n in FeatureColumns() ==> n in derived {
      forall c | c in RawFeatures ensures c in read {
        if c != "Type" {
          RawFeatureIsKept(c);
        }
      }
    }
  }

  /** X has exactly the 13 schema columns in order and one row per record; neither the target nor Pts nor raw Height is a feature. */
  lemma TrainingSetShape(f: Frame, ops: FloatOps)
    requires f.Valid() && TrainingSet(f, ops).Ok?
    ensures var d := TrainingSet(f, ops).value;
            && d.x.Valid() && d.x.names == FeatureColumns() && |d.x.names| == 13
            && d.x.rows == f.rows && d.y.Length() == f.rows && d.y.Numeric?
            && Target !in d.x.cols && "Pts" !in d.x.cols && "Height" !in d.x.cols
  {
    TrainingSetParts(f, ops);
    DerivedTarget(f, ops);
    SchemaGroups();
    var x := TrainingSet(f, ops).value.x;
    assert x.cols.Keys == set n | n in FeatureColumns();
  }

  /** The raw features reach X as read from the file, Type apart. */
  lemma TrainingSetKeepsRawFeatures(f: Frame, ops: FloatOps)
    requires f.Valid() && TrainingSet(f, ops).Ok?
    ensures forall c :: c in RawFeatures ==> c in TrainingSet(f, ops).value.x.cols && c in f.cols
    ensures forall c :: c in RawFeatures && c != "Type" ==> TrainingSet(f, ops).value.x.cols[c] == f.cols[c]
  {
    TrainingSetParts(f, ops);
    TrainingSetSucceeds(f, ops);
    RawFeaturesAreFeatures();
    forall c | c in RawFeatures && c != "Type" ensures TrainingSet(f, ops).value.x.cols[c] == f.cols[c] {
      RawFeatureIsKept(c);
      FeatureIsDerivedColumn(f, ops, c);
    }
  }

  lemma RawFeatureIsKept(c: string)
    requires c in RawFeatures && c != "Type"
    ensures c in FeatureColumns() && c != "Abilities" && c != "logHeight" && c != Target
  {
  }

  /** Type is relabelled, Abilities joined from the powers and logHeight computed from Height. */
  lemma TrainingSetDerivedFeatures(f: Frame, ops: FloatOps)
    requires f.Valid() && TrainingSet(f, ops).Ok?
    ensures var x := TrainingSet(f, ops).value.x;
            && "Type" in x.cols && "Abilities" in x.cols && "logHeight" in x.cols
            && x.cols["Type"] == TypeCodes.Relabel(TypeMap, f.cols["Type"])
            && x.cols["Abilities"] == AbilitiesColumn(f, ops).value
            && x.cols["logHeight"] == Log1pColumn(ops, f.cols["Height"]).value
  {
    DerivedFeatureNames();
    FeatureIsDerivedColumn(f, ops, "Type");
    FeatureIsDerivedColumn(f, ops, "Abilities");
    FeatureIsDerivedColumn(f, ops, "logHeight");
    DerivedType(f, ops);
    DerivedAbilities(f, ops);
    DerivedLogHeight(f, ops);
  }

  lemma DerivedFeatureNames()
    ensures "Type" in FeatureColumns() && "Abilities" in FeatureColumns() && "logHeight" in FeatureColumns()
  {
    assert FeatureColumns()[11] == "Type" && FeatureColumns()[12] == "Abilities" && FeatureColumns()[5] == "logHeight";
  }

  /** A feature column of X is the derived frame's column of that name. */
  lemma FeatureIsDerivedColumn(f: Frame, ops: FloatOps, c: string)
    requires f.Valid() && TrainingSet(f, ops).Ok? && c in FeatureColumns()
    ensures Derive(f, ops).Ok? && c in Derive(f, ops).value.cols && c in TrainingSet(f, ops).value.x.cols
    ensures TrainingSet(f, ops).value.x.cols[c] == Derive(f, ops).value.cols[c]
  {
    TrainingSetParts(f, ops);
  }

  /** The target is Pts divided by NumUnits, row by row. */
  lemma TrainingTarget(f: Frame, ops: FloatOps)
    requires f.Valid() && TrainingSet(f, ops).Ok?
    ensures TrainingSet(f, ops).value.y == DivideColumns(f.cols["Pts"], f.cols["NumUnits"]).value
  {
    TrainingSetParts(f, ops);
    DerivedTarget(f, ops);
  }

  /** X and y are cut out of the derived frame. */
  lemma TrainingSetParts(f: Frame, ops: FloatOps)
    requires f.Valid() && TrainingSet(f, ops).Ok?
    ensures Derive(f, ops).Ok? && Derive(f, ops).value.Valid() && Distinct(FeatureColumns())
    ensures TrainingSet(f, ops).value.x == Select(Derive(f, ops).value, FeatureColumns()).value
    ensures TrainingSet(f, ops).value.y == Derive(f, ops).value.cols[Target]
  {
    DerivedIsValid(f, ops);
    FeatureColumnsAreDistinct();
  }

  // The derived frame's columns one at a time (together they are too costly for one proof).

  lemma DerivedTarget(f: Frame, ops: FloatOps)
    requires f.Valid() && Derive(f, ops).Ok?
    ensures Derive(f, ops).value.cols[Target] == DivideColumns(f.cols["Pts"], f.cols["NumUnits"]).value
  {
  }

  lemma DerivedLogHeight(f: Frame, ops: FloatOps)
    requires f.Valid() && Derive(f, ops).Ok?
    ensures Derive(f, ops).value.cols["logHeight"] == Log1pColumn(ops, f.cols["Height"]).value
  {
  }

  lemma DerivedAbilities(f: Frame, ops: FloatOps)
    requires f.Valid() && Derive(f, ops).Ok?
    ensures Derive(f, ops).value.cols["Abilities"] == AbilitiesColumn(f, ops).value
  {
  }

  lemma DerivedType(f: Frame, ops: FloatOps)
    requires f.Valid() && Derive(f, ops).Ok?
    ensures Derive(f, ops).value.cols["Type"] == TypeCodes.Relabel(TypeMap, f.cols["Type"])
  {
  }

  /** The Type feature is text whatever the file held: labels of the map, or missing. */
  lemma TrainedTypeIsLabelled(f: Frame, ops: FloatOps)
    requires f.Valid() && TrainingSet(f, ops).Ok?
    ensures var t := TrainingSet(f, ops).value.x.cols["Type"];
            && t.Text?
            && (f.cols["Type"].Numeric? ==>
                  forall i :: 0 <= i < |t.strs| && t.strs[i].Some? ==> t.strs[i].value in TypeMap.Values)
  {
    TrainingSetDerivedFeatures(f, ops);
    var t := TrainingSet(f, ops).value.x.cols["Type"];
    if f.cols["Type"].Numeric? {
      forall i | 0 <= i < |t.strs| && t.strs[i].Some? ensures t.strs[i].value in TypeMap.Values {
        TypeCodes.RelabelledValues(TypeMap, f.cols["Type"], i);
      }
    }
  }

  /** On a row with finite Pts and NumUnits the cost per figure is Pts / NumUnits; zero units give no finite cost. */
  lemma CostPerFigIsPtsPerUnit(f: Frame, ops: FloatOps, i: nat)
    requires f.Valid() && TrainingSet(f, ops).Ok? && i < f.rows
    requires f.cols["Pts"].Numeric? && f.cols["NumUnits"].Numeric?
    requires f.cols["Pts"].nums[i].Finite? && f.cols["NumUnits"].nums[i].Finite?
    ensures var y := TrainingSet(f, ops).value.y;
            var units := f.cols["NumUnits"].nums[i].x;
            && (units != 0.0 ==> y.nums[i] == Finite(f.cols["Pts"].nums[i].x / units))
            && (units == 0.0 ==> !y.nums[i].Finite?)
  {
    TrainingTarget(f, ops);
    QuotientTimesDivisor(f.cols["Pts"], f.cols["NumUnits"], i);
  }

  /**
   * Relabelling Type does not change whether the Abilities step succeeds nor
   * its error, and it changes its value only for a table whose one column
   * (Type) is copied.
   */
  lemma AbilitiesUnaffectedByType(f: Frame, f1: Frame, ops: FloatOps)
    requires f.Valid() && f1.Valid() && f1.rows == f.rows && f1.names == f.names && f1.cols.Keys == f.cols.Keys
    requires forall c :: c != "Type" && c in f.cols ==> f1.cols[c] == f.cols[c]
    ensures AbilitiesColumn(f1, ops).Ok? <==> AbilitiesColumn(f, ops).Ok?
    ensures AbilitiesColumn(f, ops).Err? ==> AbilitiesColumn(f1, ops) == AbilitiesColumn(f, ops)
    ensures |f.names| != 1 ==> AbilitiesColumn(f1, ops) == AbilitiesColumn(f, ops)
  {
    if f.rows > 0 && forall c :: c in PowerColumns ==> c in f.cols {
      forall i | 0 <= i < f.rows ensures RowPowers(f1, i, ops) == RowPowers(f, i, ops) {
        assert RowPowers(f1, i, ops).value == RowPowers(f, i, ops).value;
      }
      assert AbilitiesColumn(f1, ops).value.strs == AbilitiesColumn(f, ops).value.strs;
    }
  }

  /**
   * The derivation steps of the script run on the data frame variable `df`:
   * each step updates `df` in place, and the first failing step raises.
   */
  method DeriveInPlace(df: Table, ops: FloatOps) returns (err: Option<Error>)
    requires df.frame.Valid()
    modifies df
    ensures df.frame.Valid()
    ensures err.Some? ==> Derive(old(df.frame), ops) == Err(err.value)
    ensures err.None? ==> Derive(old(df.frame), ops) == Ok(df.frame)
  {
    ghost var f := df.frame;
    err := TypeCodes.RelabelType(df, TypeMap);
    if err.Some? {
      return;
    }
    assert df.frame.names == f.names && df.frame.cols == f.cols["Type" := TypeCodes.Relabel(TypeMap, f.cols["Type"])];
    err := AddColumns(df, ops, f);
  }

  /** The three column assignments that follow the relabelling, on the file `f` as read. */
  method AddColumns(df: Table, ops: FloatOps, ghost f: Frame) returns (err: Option<Error>)
    requires f.Valid() && "Type" in f.cols && df.frame.Valid() && df.frame.rows == f.rows
    requires df.frame.names == f.names && df.frame.cols == f.cols["Type" := TypeCodes.Relabel(TypeMap, f.cols["Type"])]
    modifies df
    ensures df.frame.Valid()
    ensures err.Some? ==> Derive(f, ops) == Err(err.value)
    ensures err.None? ==> Derive(f, ops) == Ok(df.frame)
  {
    ghost var f1 := df.frame;
    AbilitiesUnaffectedByType(f, f1, ops);
    InputsKeptByUpdate(f.cols, f.cols, "Type", TypeCodes.Relabel(TypeMap, f.cols["Type"]));
    err := AddAbilities(df, ops);
    if err.Some? {
      DeriveFailsAtAbilities(f, ops);
      return;
    }
    ghost var ab := AbilitiesColumn(f1, ops).value;
    InputsKeptByUpdate(f.cols, f1.cols, "Abilities", ab);
    err := AddNumbers(df, ops, f, f1, ab);
  }

  /**
   * The logHeight and CostPerFig assignments, once Type and Abilities (`ab`)
   * are in place; `ab` is the file's joined powers unless the table had one column.
   */
  method AddNumbers(df: Table, ops: FloatOps, ghost f: Frame, ghost f1: Frame, ghost ab: Column) returns (err: Option<Error>)
    requires f.Valid() && "Type" in f.cols && f1.Valid() && f1.rows == f.rows
    requires f1.names == f.names && f1.cols == f.cols["Type" := TypeCodes.Relabel(TypeMap, f.cols["Type"])]
    requires AbilitiesColumn(f, ops).Ok? && ab.Length() == f.rows
    requires |f.names| != 1 ==> ab == AbilitiesColumn(f, ops).value
    requires df.frame.Valid() && df.frame == Assign(f1, "Abilities", ab)
    requires KeepsInputs(f.cols, df.frame.cols)
    modifies df
    ensures df.frame.Valid()
    ensures err.Some? ==> Derive(f, ops) == Err(err.value)
    ensures err.None? ==> Derive(f, ops) == Ok(df.frame)
  {
    ghost var f2 := df.frame;
    err := AddLogHeight(df, ops);
    if err.Some? {
      DeriveFailsAtLogHeight(f, ops);
      return;
    }
    InputsKeptByUpdate(f.cols, f2.cols, "logHeight", Log1pColumn(ops, f.cols["Height"]).value);
    err := AddTarget(df);
    if err.Some? {
      DeriveFailsAtTarget(f, ops);
      return;
    }
    StepsSucceed(f, ops);
    TypeAndHeightAreTwoColumns(f);
    DeriveIsTheAssignments(f, f1, ops);
  }

  /** `b` holds the columns the derivation reads, Height, Pts and NumUnits, exactly as `a` does. */
  predicate KeepsInputs(a: map<string, Column>, b: map<string, Column>) {
    && ("Height" in b <==> "Height" in a) && ("Height" in a ==> b["Height"] == a["Height"])
    && ("Pts" in b <==> "Pts" in a) && ("Pts" in a ==> b["Pts"] == a["Pts"])
    && ("NumUnits" in b <==> "NumUnits" in a) && ("NumUnits" in a ==> b["NumUnits"] == a["NumUnits"])
  }

  /** Setting a column the derivation does not read keeps its inputs. */
  lemma InputsKeptByUpdate(a: map<string, Column>, b: map<string, Column>, name: string, col: Column)
    requires KeepsInputs(a, b) && name != "Height" && name != "Pts" && name != "NumUnits"
    ensures KeepsInputs(a, b[name := col])
  {
  }

  /** Every step succeeding means the file provides what the derivation needs. */
  lemma StepsSucceed(f: Frame, ops: FloatOps)
    requires f.Valid() && "Type" in f.cols && AbilitiesColumn(f, ops).Ok?
    requires "Height" in f.cols && Log1pColumn(ops, f.cols["Height"]).Ok?
    requires "Pts" in f.cols && "NumUnits" in f.cols && DivideColumns(f.cols["Pts"], f.cols["NumUnits"]).Ok?
    ensures Derivable(f)
  {
    TypeAndHeightAreTwoColumns(f);
  }

  // Which step raises: the script stops at the first failing step, and that step's exception is Derive's.

  lemma DeriveFailsAtAbilities(f: Frame, ops: FloatOps)
    requires f.Valid() && "Type" in f.cols && AbilitiesColumn(f, ops).Err?
    ensures Derive(f, ops) == Err(AbilitiesColumn(f, ops).error)
  {
  }

  lemma DeriveFailsAtLogHeight(f: Frame, ops: FloatOps)
    requires f.Valid() && "Type" in f.cols && AbilitiesColumn(f, ops).Ok?
    ensures "Height" !in f.cols ==> Derive(f, ops) == Err(KeyError(["Height"]))
    ensures "Height" in f.cols && Log1pColumn(ops, f.cols["Height"]).Err? ==> Derive(f, ops) == Err(TypeError("log1p"))
  {
  }

  lemma DeriveFailsAtTarget(f: Frame, ops: FloatOps)
    requires f.Valid() && "Type" in f.cols && AbilitiesColumn(f, ops).Ok?
    requires "Height" in f.cols && Log1pColumn(ops, f.cols["Height"]).Ok?
    ensures "Pts" !in f.cols ==> Derive(f, ops) == Err(KeyError(["Pts"]))
    ensures "Pts" in f.cols && "NumUnits" !in f.cols ==> Derive(f, ops) == Err(KeyError(["NumUnits"]))
    ensures "Pts" in f.cols && "NumUnits" in f.cols && DivideColumns(f.cols["Pts"], f.cols["NumUnits"]).Err? ==>
              Derive(f, ops) == Err(TypeError("/"))
  {
  }

  /** When every step succeeds, the derived frame is what the four assignments leave in `df`. */
  lemma DeriveIsTheAssignments(f: Frame, f1: Frame, ops: FloatOps)
    requires f.Valid() && Derivable(f) && f1.Valid() && f1.rows == f.rows
    requires f1.names == f.names && f1.cols == f.cols["Type" := TypeCodes.Relabel(TypeMap, f.cols["Type"])]
    ensures var f2 := Assign(f1, "Abilities", AbilitiesColumn(f, ops).value);
            var f3 := Assign(f2, "logHeight", Log1pColumn(ops, f.cols["Height"]).value);
            Derive(f, ops) == Ok(Assign(f3, Target, DivideColumns(f.cols["Pts"], f.cols["NumUnits"]).value))
  {
  }

  /** `df["Abilities"] = df.apply(join_powers, axis=1).fillna("")` */
  method AddAbilities(df: Table, ops: FloatOps) returns (err: Option<Error>)
    requires df.frame.Valid()
    modifies df
    ensures df.frame.Valid()
    ensures err.None? <==> AbilitiesColumn(old(df.frame), ops).Ok?
    ensures err.Some? ==> df.frame == old(df.frame)
    ensures err.Some? ==> err.value == AbilitiesColumn(old(df.frame), ops).error
    ensures err.None? ==> df.frame == Assign(old(df.frame), "Abilities", AbilitiesColumn(old(df.frame), ops).value)
  {
    var ab := AbilitiesColumn(df.frame, ops);
    if ab.Err? {
      return Some(ab.error);
    }
    df.SetColumn("Abilities", ab.value);
    return None;
  }

  /** `df["logHeight"] = np.log1p(df["Height"])` */
  method AddLogHeight(df: Table, ops: FloatOps) returns (err: Option<Error>)
    requires df.frame.Valid()
    modifies df
    ensures df.frame.Valid()
    ensures err.Some? ==> df.frame == old(df.frame)
    ensures "Height" !in old(df.frame.cols) ==> err == Some(KeyError(["Height"]))
    ensures "Height" in old(df.frame.cols) ==>
              if Log1pColumn(ops, old(df.frame.cols["Height"])).Err? then err == Some(TypeError("log1p"))
              else err.None? && df.frame == Assign(old(df.frame), "logHeight", Log1pColumn(ops, old(df.frame.cols["Height"])).value)
  {
    var h := Get(df.frame, "Height");
    if h.Err? {
      return Some(h.error);
    }
    var lh := Log1pColumn(ops, h.value);
    if lh.Err? {
      return Some(lh.error);
    }
    df.SetColumn("logHeight", lh.value);
    return None;
  }

  /** `df["CostPerFig"] = df["Pts"] / df["NumUnits"]` */
  method AddTarget(df: Table) returns (err: Option<Error>)
    requires df.frame.Valid()
    modifies df
    ensures df.frame.Valid()
    ensures err.Some? ==> df.frame == old(df.frame)
    ensures "Pts" !in old(df.frame.cols) ==> err == Some(KeyError(["Pts"]))
    ensures "Pts" in old(df.frame.cols) && "NumUnits" !in old(df.frame.cols) ==> err == Some(KeyError(["NumUnits"]))
    ensures "Pts" in old(df.frame.cols) && "NumUnits" in old(df.frame.cols) ==>
              var cost := DivideColumns(old(df.frame.cols["Pts"]), old(df.frame.cols["NumUnits"]));
              if cost.Err? then err == Some(TypeError("/"))
              else err.None? && df.frame == Assign(old(df.frame), Target, cost.value)
  {
    var pts := Get(df.frame, "Pts");
    if pts.Err? {
      return Some(pts.error);
    }
    var units := Get(df.frame, "NumUnits");
    if units.Err? {
      return Some(units.error);
    }
    var cost := DivideColumns(pts.value, units.value);
    if cost.Err? {
      return Some(cost.error);
    }
    df.SetColumn(Target, cost.value);
    return None;
  }

  /** The whole preparation: derive the columns, then cut out X and y. */
  method Prepare(df: Table, ops: FloatOps) returns (r: Result<TrainingData>)
    requires df.frame.Valid()
    modifies df
    ensures r == TrainingSet(old(df.frame), ops)
    ensures r.Ok? ==> df.frame == Derive(old(df.frame), ops).value
  {
    var err := DeriveInPlace(df, ops);
    if err.Some? {
      return Err(err.value);
    }
    FeatureColumnsAreDistinct();
    var x :- Select(df.frame, FeatureColumns());
    return Ok(TrainingData(x, df.frame.cols[Target]));
  }
}
