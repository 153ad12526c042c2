/**
 * The desktop presenter (heroscape_points_gui.py) without its widgets: the
 * dropdown choices read from the character file, the forced Type choices and
 * the defaults, the one-row feature table built from the form's values, and
 * the predicted total written to the result label.
 */
module Presenter {
  import opened Frames
  import opened Ordering
  import opened Strings
  import TypeCodes

  const TypeMap: map<int, string> :=
    map[0 := "Unique Hero", 1 := "Common Hero", 2 := "Unique Squad", 3 := "Common Squad", 4 := "Event Hero"]

  /** `list(TYPE_MAP.values())`: the labels in the order the codes were written, 0 to 4. */
  function TypeLabels(): seq<string> {
    seq(5, k requires 0 <= k < 5 => TypeMap[k])
  }

  /** The five labels, in code order, and no label given to two codes. */
  lemma TypeLabelsInCodeOrder()
    ensures TypeLabels() == ["Unique Hero", "Common Hero", "Unique Squad", "Common Squad", "Event Hero"]
    ensures TypeMap.Keys == {0, 1, 2, 3, 4}
    ensures forall l :: l in TypeLabels() <==> l in TypeMap.Values
    ensures Distinct(TypeLabels())
    ensures forall j, k :: j in TypeMap && k in TypeMap && TypeMap[j] == TypeMap[k] ==> j == k
  {
    var labels := TypeLabels();
    assert labels[0] == "Unique Hero" && labels[1] == "Common Hero" && labels[2] == "Unique Squad";
    assert labels[3] == "Common Squad" && labels[4] == "Event Hero";
    forall l | l in TypeMap.Values ensures l in labels {
      var k :| k in TypeMap && TypeMap[k] == l;
      assert labels[k] == l;
    }
  }

  const NumericCols: seq<string> := ["Life", "MVE", "RGE", "ATK", "DEF", "logHeight", "NumUnits"]
  const Categories: seq<string> := ["Army", "Race", "Class", "Size", "Type"]

  /** The integer entry fields of the form, top to bottom. */
  const NumFields: seq<string> := ["Life", "MVE", "RGE", "ATK", "DEF", "Height", "NumUnits"]

  /** `order` in `build_df`: the columns of the feature table. */
  function ColumnOrder(): seq<string> {
    NumericCols + ["Army", "Race", "Class", "Size", "Type", "Abilities"]
  }

  /** The keys `build_df` reads from its record, in the order the row literal evaluates them. */
  const RecordKeys: seq<string> :=
    ["Life", "MVE", "RGE", "ATK", "DEF", "Height", "NumUnits", "Abilities", "Army", "Race", "Class", "Size", "Type"]

  /** The table's columns are the record's keys with Height traded for logHeight. */
  lemma ColumnsAreRecordKeys()
    ensures Distinct(ColumnOrder()) && |ColumnOrder()| == 13
    ensures forall c :: c in ColumnOrder() <==> (c in RecordKeys && c != "Height") || c == "logHeight"
    ensures "Height" !in ColumnOrder() && "logHeight" !in RecordKeys
    ensures RecordKeys[5] == "Height" && RecordKeys[6] == "NumUnits" && RecordKeys[7] == "Abilities"
  {
    ColumnOrderIsDistinct();
    ColumnOrderMembers();
  }

  lemma ColumnOrderIsDistinct()
    ensures Distinct(ColumnOrder()) && |ColumnOrder()| == 13
  {
    assert ColumnOrder() == NumericCols + Categories + ["Abilities"];
    NumericColsAreDistinct();
    CategoriesAreDistinct();
    GroupsAreDisjoint();
    DistinctConcat(NumericCols, Categories);
    DistinctConcat(NumericCols + Categories, ["Abilities"]);
  }

  lemma NumericColsAreDistinct()
    ensures Distinct(NumericCols)
  {
  }

  lemma CategoriesAreDistinct()
    ensures Distinct(Categories)
  {
  }

  /** No column is both numeric and a category, and Abilities is neither. */
  lemma GroupsAreDisjoint()
    ensures forall c :: c in NumericCols + Categories ==> c !in ["Abilities"]
    ensures forall c :: c in NumericCols ==> c !in Categories
  {
  }

  lemma ColumnOrderMembers()
    ensures forall c :: c in ColumnOrder() <==> (c in RecordKeys && c != "Height") || c == "logHeight"
  {
  }

  /** One value of the record `build_df` receives: an `IntVar` reading or a string. */
  datatype Value = Int(n: int) | Str(s: string)

  /** The one-cell column pandas makes from a value: int64 for an int, object for a string. */
  function Cell(x: Value): (c: Column)
    ensures c.Length() == 1
    ensures x.Int? <==> c.Numeric?
  {
    match x
    case Int(n) => Numeric([Finite(n as real)])
    case Str(s) => Text([Some(s)])
  }

  /** What `build_df` needs of its record: every key, and a number for `np.log1p` in Height. */
  predicate Buildable(v: map<string, Value>) {
    && "Height" in v && "NumUnits" in v
    && (forall k :: k in RecordKeys ==> k in v)
    && v["Height"].Int?
  }

  /** The logHeight cell: `np.log1p` of the height. */
  function LogHeightCell(ops: FloatOps, height: int): (c: Column)
    ensures c.Numeric? && c.Length() == 1
  {
    Numeric([Log1pFloat(ops, Finite(height as real))])
  }

  /** The table `build_df` returns for a record it accepts. */
  function Row(v: map<string, Value>, ops: FloatOps): (f: Frame)
    requires Buildable(v)
    ensures f.Valid() && f.names == ColumnOrder() && f.rows == 1
  {
    ColumnsAreRecordKeys();
    var cols := map c | c in ColumnOrder() :: if c == "logHeight" then LogHeightCell(ops, v["Height"].n) else Cell(v[c]);
    Frame(ColumnOrder(), cols, 1)
  }

  /**
   * `build_df(v)`: the row literal reads Life .. DEF, then `np.log1p(v["Height"])`,
   * then NumUnits, Abilities and the categories, so the first failing read
   * decides the exception; otherwise a one-row table in `order`.
   */
  function BuildDf(v: map<string, Value>, ops: FloatOps): (r: Result<Frame>)
    ensures r.Ok? <==> Buildable(v)
    ensures r.Ok? ==> r.value.Valid() && r.value.names == ColumnOrder() && r.value.rows == 1
  {
    match FirstMissing(v.Keys, RecordKeys[..6])
    case Some(k) => Err(KeyError([k]))
    case None =>
      assert RecordKeys[..6][5] == "Height";
      if v["Height"].Str? then Err(TypeError("log1p"))
      else
        match FirstMissing(v.Keys, RecordKeys[6..])
        case Some(k) => Err(KeyError([k]))
        case None =>
          assert forall k :: k in RecordKeys ==> k in RecordKeys[..6] || k in RecordKeys[6..] by {
            assert RecordKeys == RecordKeys[..6] + RecordKeys[6..];
          }
          Ok(Row(v, ops))
  }

  /** `build_df` raises the TypeError of `np.log1p` exactly when Life .. Height are all there and Height is a string. */
  lemma BuildDfRaisesTypeError(v: map<string, Value>, ops: FloatOps)
    ensures BuildDf(v, ops) == Err(TypeError("log1p")) <==>
              (forall k :: 0 <= k < 6 ==> RecordKeys[k] in v) && "Height" in v && v["Height"].Str?
  {
    assert RecordKeys[5] == "Height";
    if forall k :: 0 <= k < 6 ==> RecordKeys[k] in v {
      forall n | n in RecordKeys[..6] ensures n in v {
        var k :| 0 <= k < 6 && RecordKeys[..6][k] == n;
        assert RecordKeys[k] == n;
      }
    } else {
      var k :| 0 <= k < 6 && RecordKeys[k] !in v;
      assert RecordKeys[..6][k] == RecordKeys[k];
    }
  }

  /**
   * A missing key raises the KeyError of the first key the row literal reads
   * that is missing, and a key after Height is reached only with an integer Height.
   */
  lemma BuildDfRaisesKeyError(v: map<string, Value>, ops: FloatOps)
    ensures BuildDf(v, ops).Err? && BuildDf(v, ops).error.KeyError? ==>
              exists j :: 0 <= j < |RecordKeys| && BuildDf(v, ops).error == KeyError([RecordKeys[j]])
                          && RecordKeys[j] !in v && (forall k :: 0 <= k < j ==> RecordKeys[k] in v)
                          && (j > 5 ==> "Height" in v && v["Height"].Int?)
  {
    var first := FirstMissing(v.Keys, RecordKeys[..6]);
    if first.Some? {
      FirstMissingInPrefix(v);
      var j :| 0 <= j < 6 && first.value == RecordKeys[j]
               && RecordKeys[j] !in v && (forall k :: 0 <= k < j ==> RecordKeys[k] in v);
      assert BuildDf(v, ops) == Err(KeyError([RecordKeys[j]]));
    } else {
      assert RecordKeys[..6][5] == "Height";
      var second := FirstMissing(v.Keys, RecordKeys[6..]);
      if v["Height"].Int? && second.Some? {
        FirstMissingInSuffix(v);
        var j :| 6 <= j < |RecordKeys| && second.value == RecordKeys[j]
                 && RecordKeys[j] !in v && (forall k :: 0 <= k < j ==> RecordKeys[k] in v);
        assert BuildDf(v, ops) == Err(KeyError([RecordKeys[j]]));
      }
    }
  }

  lemma FirstMissingInPrefix(v: map<string, Value>)
    requires FirstMissing(v.Keys, RecordKeys[..6]).Some?
    ensures exists j :: 0 <= j < 6 && FirstMissing(v.Keys, RecordKeys[..6]).value == RecordKeys[j]
                        && RecordKeys[j] !in v && (forall k :: 0 <= k < j ==> RecordKeys[k] in v)
  {
    var first := FirstMissing(v.Keys, RecordKeys[..6]);
    var j :| 0 <= j < 6 && RecordKeys[..6][j] == first.value && first.value !in v
             && forall i :: 0 <= i < j ==> RecordKeys[..6][i] in v;
    assert RecordKeys[j] == first.value;
    assert forall i :: 0 <= i < j ==> RecordKeys[i] in v by {
      forall i | 0 <= i < j ensures RecordKeys[i] in v { assert RecordKeys[i] == RecordKeys[..6][i]; }
    }
  }

  lemma FirstMissingInSuffix(v: map<string, Value>)
    requires FirstMissing(v.Keys, RecordKeys[..6]).None? && FirstMissing(v.Keys, RecordKeys[6..]).Some?
    ensures exists j :: 6 <= j < |RecordKeys| && FirstMissing(v.Keys, RecordKeys[6..]).value == RecordKeys[j]
                        && RecordKeys[j] !in v && (forall k :: 0 <= k < j ==> RecordKeys[k] in v)
  {
    assert forall i :: 0 <= i < 6 ==> RecordKeys[i] in v by {
      forall i | 0 <= i < 6 ensures RecordKeys[i] in v { assert RecordKeys[..6][i] in RecordKeys[..6]; }
    }
    var second := FirstMissing(v.Keys, RecordKeys[6..]);
    var j :| 0 <= j < |RecordKeys[6..]| && RecordKeys[6..][j] == second.value && second.value !in v
             && forall i :: 0 <= i < j ==> RecordKeys[6..][i] in v;
    assert RecordKeys[j + 6] == second.value;
    assert forall i :: 0 <= i < j + 6 ==> RecordKeys[i] in v by {
      forall i | 0 <= i < j + 6 ensures RecordKeys[i] in v {
        if i >= 6 { assert RecordKeys[i] == RecordKeys[6..][i - 6]; }
      }
    }
  }

  /**
   * Every field of the record but Height reaches the column of the same name
   * unchanged; Height appears only as logHeight = log1p(Height).
   */
  lemma BuildDfCopiesFields(v: map<string, Value>, ops: FloatOps)
    requires Buildable(v)
    ensures forall c :: c in RecordKeys && c != "Height" ==>
              c in BuildDf(v, ops).value.cols && BuildDf(v, ops).value.cols[c] == Cell(v[c])
    ensures "Height" !in BuildDf(v, ops).value.cols
    ensures BuildDf(v, ops).value.cols["logHeight"] == LogHeightCell(ops, v["Height"].n)
  {
    ColumnsAreRecordKeys();
  }

  /** One field other than Height, as its column. */
  lemma BuildDfCopiesField(v: map<string, Value>, ops: FloatOps, c: string)
    requires Buildable(v) && c in RecordKeys && c != "Height"
    ensures c in BuildDf(v, ops).value.cols && BuildDf(v, ops).value.cols[c] == Cell(v[c])
  {
    BuildDfCopiesFields(v, ops);
  }

  /** The Abilities column is the record's Abilities field. */
  lemma BuildDfAbilities(v: map<string, Value>, ops: FloatOps)
    requires Buildable(v)
    ensures "Abilities" in BuildDf(v, ops).value.cols && BuildDf(v, ops).value.cols["Abilities"] == Cell(v["Abilities"])
  {
    assert RecordKeys[7] == "Abilities";
    BuildDfCopiesFields(v, ops);
  }

  // ---------- dropdown choices ----------

  /** A dropdown entry: a string, or a number from a numeric column. */
  datatype Choice = Word(s: string) | Number(x: Float)

  /** The text a `StringVar` holds for a choice. */
  function Render(ops: FloatOps, ch: Choice): string {
    match ch
    case Word(s) => s
    case Number(x) => ShowFloat(ops, x)
  }

  function Words(ws: seq<string>): (r: seq<Choice>)
    ensures |r| == |ws| && forall i :: 0 <= i < |ws| ==> r[i] == Word(ws[i])
  {
    seq(|ws|, i requires 0 <= i < |ws| => Word(ws[i]))
  }

  function Numbers(xs: seq<Float>): (r: seq<Choice>)
    ensures |r| == |xs| && forall i :: 0 <= i < |xs| ==> r[i] == Number(xs[i])
  {
    seq(|xs|, i requires 0 <= i < |xs| => Number(xs[i]))
  }

  /**
   * numpy's order on float64 values other than NaN: -inf, the finite values,
   * +inf. NaN is put last only to make the order total; `dropna` keeps it out
   * of every list sorted here.
   */
  predicate FloatLess(a: Float, b: Float) {
    match (a, b)
    case (NaN, _) => false
    case (_, NaN) => true
    case (Inf(n), Inf(m)) => n && !m
    case (Inf(n), Finite(_)) => n
    case (Finite(_), Inf(m)) => !m
    case (Finite(x), Finite(y)) => x < y
  }

  lemma FloatLessIsStrictTotalOrder()
    ensures StrictTotalOrder(FloatLess)
  {
    forall x, y | x != y ensures FloatLess(x, y) || FloatLess(y, x) {
      if x.Finite? && y.Finite? { assert x.x != y.x; }
    }
  }

  /** `dropna()` on a numeric column. */
  function NonNaN(xs: seq<Float>): (r: seq<Float>)
    ensures forall x :: x in r <==> x in xs && !x.NaN?
  {
    if xs == [] then [] else (if xs[0].NaN? then [] else [xs[0]]) + NonNaN(xs[1..])
  }

  /** `sorted(column.dropna().unique())` */
  function Choices(c: Column): seq<Choice> {
    match c
    case Text(v) =>
      LexLessIsStrictTotalOrder();
      Words(SortedDistinct(Present(v), LexLess))
    case Numeric(v) =>
      FloatLessIsStrictTotalOrder();
      Numbers(SortedDistinct(NonNaN(v), FloatLess))
  }

  /**
   * The choices of a text column are its distinct present strings in
   * ascending order: the one strictly increasing list of exactly those strings.
   */
  lemma TextChoicesAreSortedValues(c: Column, ws: seq<string>)
    requires c.Text?
    requires StrictlySorted(ws, LexLess) && forall w :: w in ws <==> Some(w) in c.strs
    ensures Choices(c) == Words(ws)
  {
    LexLessIsStrictTotalOrder();
    PresentMembers(c.strs);
    SortedIsUnique(SortedDistinct(Present(c.strs), LexLess), ws, LexLess);
  }

  /** The same for a numeric column: its distinct non-NaN values in ascending order. */
  lemma NumericChoicesAreSortedValues(c: Column, xs: seq<Float>)
    requires c.Numeric?
    requires StrictlySorted(xs, FloatLess) && forall x :: x in xs <==> x in c.nums && !x.NaN?
    ensures Choices(c) == Numbers(xs)
  {
    FloatLessIsStrictTotalOrder();
    SortedIsUnique(SortedDistinct(NonNaN(c.nums), FloatLess), xs, FloatLess);
  }

  /** No choice is offered twice, and each is a present value of the column. */
  lemma ChoicesAreDistinctValues(c: Column)
    ensures forall i, j :: 0 <= i < j < |Choices(c)| ==> Choices(c)[i] != Choices(c)[j]
    ensures forall ch :: ch in Choices(c) ==>
              (c.Text? && ch.Word? && Some(ch.s) in c.strs) || (c.Numeric? && ch.Number? && ch.x in c.nums && !ch.x.NaN?)
  {
    match c
    case Text(v) =>
      LexLessIsStrictTotalOrder();
      PresentMembers(v);
      var ws := SortedDistinct(Present(v), LexLess);
      forall i, j | 0 <= i < j < |ws| ensures Choices(c)[i] != Choices(c)[j] {
        SortedHasNoDuplicates(ws, LexLess, i, j);
      }
      forall ch | ch in Choices(c) ensures ch.Word? && Some(ch.s) in c.strs {
        var i :| 0 <= i < |ws| && Choices(c)[i] == ch;
        assert ws[i] in ws;
      }
    case Numeric(v) =>
      FloatLessIsStrictTotalOrder();
      var xs := SortedDistinct(NonNaN(v), FloatLess);
      forall i, j | 0 <= i < j < |xs| ensures Choices(c)[i] != Choices(c)[j] {
        SortedHasNoDuplicates(xs, FloatLess, i, j);
      }
      forall ch | ch in Choices(c) ensures ch.Number? && ch.x in c.nums && !ch.x.NaN? {
        var i :| 0 <= i < |xs| && Choices(c)[i] == ch;
        assert xs[i] in xs;
      }
  }

  /** `{c: sorted(df_src[c].dropna().unique()) for c in (...)}`: a KeyError at the first missing category. */
  function ObservedChoices(f: Frame): (r: Result<map<string, seq<Choice>>>)
    requires f.Valid()
    ensures r.Ok? <==> forall c :: c in Categories ==> c in f.cols
    ensures r.Ok? ==> r.value.Keys == (set c | c in Categories)
                      && forall c :: c in Categories ==> r.value[c] == Choices(f.cols[c])
    ensures r.Err? ==> exists j :: 0 <= j < |Categories| && r.error == KeyError([Categories[j]])
                                   && Categories[j] !in f.cols && forall k :: 0 <= k < j ==> Categories[k] in f.cols
  {
    match FirstMissing(f.cols.Keys, Categories)
    case Some(k) => Err(KeyError([k]))
    case None => Ok(map c | c in Categories :: Choices(f.cols[c]))
  }

  /** The Type dropdown's list after the override: the five labels. */
  function TypeChoices(): seq<Choice> {
    Words(TypeLabels())
  }

  /** `v[0] if v else ""` */
  function Default(opts: seq<Choice>): (d: Choice)
    ensures |opts| > 0 ==> d == opts[0]
    ensures |opts| == 0 ==> d == Word("")
  {
    if |opts| > 0 then opts[0] else Word("")
  }

  /** A text column's default is its least present string, or "" when it has none. */
  lemma DefaultIsLeastText(c: Column)
    requires c.Text?
    ensures (forall i :: 0 <= i < |c.strs| ==> c.strs[i].None?) ==> Default(Choices(c)) == Word("")
    ensures (exists i :: 0 <= i < |c.strs| && c.strs[i].Some?) ==>
              && Default(Choices(c)).Word?
              && Some(Default(Choices(c)).s) in c.strs
              && forall w :: Some(w) in c.strs && w != Default(Choices(c)).s ==> LexLess(Default(Choices(c)).s, w)
  {
    LexLessIsStrictTotalOrder();
    PresentMembers(c.strs);
    var ws := SortedDistinct(Present(c.strs), LexLess);
    if ws != [] {
      assert ws[0] in ws;
      forall w | Some(w) in c.strs && w != ws[0] ensures LexLess(ws[0], w) {
        FirstIsLeast(ws, LexLess, w);
      }
    } else {
      forall i | 0 <= i < |c.strs| ensures c.strs[i].None? {
        assert c.strs[i] in c.strs;
      }
    }
  }

  /** The Type default is the first label, whatever the file held. */
  lemma TypeDefault()
    ensures Default(TypeChoices()) == Word("Unique Hero")
  {
    TypeLabelsInCodeOrder();
  }

  // ---------- the result label ----------

  datatype Display = Prompt | PredictedCost(points: int)

  /** The text of the result label. */
  function DisplayText(d: Display): string {
    match d
    case Prompt => "Enter stats and click Predict"
    case PredictedCost(p) => "Predicted Point Cost: " + Decimal(p)
  }

  /** The label spells out exactly the rounded total after its fixed prefix. */
  lemma DisplayShowsPoints(p: int)
    ensures var t := DisplayText(PredictedCost(p));
            var prefix := "Predicted Point Cost: ";
            && t[..|prefix|] == prefix
            && IsNumeral(t[|prefix|..]) && ParseDecimal(t[|prefix|..]) == p
  {
    DecimalRoundTrip(p);
    var prefix := "Predicted Point Cost: ";
    assert DisplayText(PredictedCost(p))[|prefix|..] == Decimal(p);
  }

  // ---------- predict() ----------

  /** `max(1, n)` */
  function Multiplier(n: int): (m: int)
    ensures m >= 1 && m >= n
    ensures n >= 1 ==> m == n
    ensures n <= 1 ==> m == 1
  {
    if 1 >= n then 1 else n
  }

  /**
   * `cpp * max(1, v["NumUnits"])` for the table built from `v`: `estimate`
   * stands for `float(model.predict(df)[0])`, and `max` raises on a string.
   */
  function PredictedTotal(v: map<string, Value>, estimate: Frame -> real, ops: FloatOps): (r: Result<real>)
    ensures r.Ok? <==> Buildable(v) && v["NumUnits"].Int?
    ensures r.Ok? ==> r.value == estimate(BuildDf(v, ops).value) * Multiplier(v["NumUnits"].n) as real
  {
    var df :- BuildDf(v, ops);
    if v["NumUnits"].Str? then Err(TypeError(">"))
    else Ok(estimate(df) * Multiplier(v["NumUnits"].n) as real)
  }

  /** One figure, or a count below one, leaves the estimate as it is. */
  lemma SingleFigureTotalIsEstimate(v: map<string, Value>, estimate: Frame -> real, ops: FloatOps)
    requires Buildable(v) && v["NumUnits"].Int? && v["NumUnits"].n <= 1
    ensures PredictedTotal(v, estimate, ops) == Ok(estimate(BuildDf(v, ops).value))
  {
    assert Multiplier(v["NumUnits"].n) as real == 1.0;
  }

  /**
   * The record `predict()` assembles: the integer fields, then the category
   * strings, then the Abilities text stripped (the text widget's content
   * comes back with a newline appended).
   */
  function FormRecord(numVars: map<string, int>, catVars: map<string, string>, text: string): (v: map<string, Value>)
    ensures v.Keys == numVars.Keys + catVars.Keys + {"Abilities"}
    ensures v["Abilities"] == Str(Strip(text + "\n"))
    ensures forall k :: k in catVars && k != "Abilities" ==> v[k] == Str(catVars[k])
    ensures forall k :: k in numVars && k !in catVars && k != "Abilities" ==> v[k] == Int(numVars[k])
  {
    map k | k in numVars.Keys + catVars.Keys + {"Abilities"} ::
      if k == "Abilities" then Str(Strip(text + "\n"))
      else if k in catVars then Str(catVars[k])
      else Int(numVars[k])
  }

  ghost predicate FormKeys(numVars: map<string, int>, catVars: map<string, string>) {
    && numVars.Keys == (set f | f in NumFields)
    && catVars.Keys == (set c | c in Categories)
  }

  /** Every key `build_df` reads is a field of the form; Height and NumUnits are integer fields. */
  lemma FormFieldsCoverRecord()
    ensures forall k :: k in RecordKeys ==> k in NumFields || k in Categories || k == "Abilities"
    ensures "Height" in NumFields && "Height" !in Categories && "NumUnits" in NumFields && "NumUnits" !in Categories
    ensures "Type" in Categories
  {
  }

  /** The form's record always builds a table, with the NumUnits field as its unit count. */
  lemma FormRecordBuilds(numVars: map<string, int>, catVars: map<string, string>, text: string)
    requires FormKeys(numVars, catVars)
    ensures Buildable(FormRecord(numVars, catVars, text))
    ensures FormRecord(numVars, catVars, text)["NumUnits"] == Int(numVars["NumUnits"])
  {
    FormFieldsCoverRecord();
  }

  /** The Abilities text handed to `build_df` has no surrounding whitespace, so stripping it again changes nothing. */
  lemma FormAbilitiesAreStripped(numVars: map<string, int>, catVars: map<string, string>, text: string)
    ensures var a := FormRecord(numVars, catVars, text)["Abilities"].s;
            NoSpaceAtEnds(a) && Strip(a) == a
  {
    StripIsTrim(text + "\n");
    StripIsIdempotent(text + "\n");
  }

  /** The integer fields' starting values: one unit, every other field 0. */
  function InitialNumbers(): (m: map<string, int>)
    ensures m.Keys == (set f | f in NumFields)
    ensures forall f :: f in m ==> m[f] == if f == "NumUnits" then 1 else 0
  {
    map f | f in NumFields :: if f == "NumUnits" then 1 else 0
  }

  /** `{k: (v[0] if v else "") for k, v in cat_opts.items()}` */
  function Defaults(opts: map<string, seq<Choice>>): (d: map<string, Choice>)
    ensures d.Keys == opts.Keys
    ensures forall c :: c in opts ==> d[c] == Default(opts[c])
  {
    map c | c in opts :: Default(opts[c])
  }

  /** The text each choice box starts with: its default choice, rendered. */
  function ShownDefaults(ops: FloatOps, d: map<string, Choice>): (m: map<string, string>)
    requires forall c :: c in Categories ==> c in d
    ensures m.Keys == (set c | c in Categories)
    ensures forall c :: c in Categories ==> m[c] == Render(ops, d[c])
  {
    map c | c in Categories :: Render(ops, d[c])
  }

  /** Type is one of the observed categories, so forcing its list keeps the dropdowns the same. */
  lemma TypeIsACategory(observed: map<string, seq<Choice>>)
    requires observed.Keys == (set c | c in Categories)
    ensures observed["Type" := TypeChoices()].Keys == observed.Keys
  {
    assert Categories[4] == "Type";
  }

  /**
   * The window's state. The option lists and defaults are fixed at start-up;
   * the entry fields are what the user typed; `result` is what the label shows.
   */
  class Form {
    var catOpts: map<string, seq<Choice>>
    var catDefault: map<string, Choice>
    var numVars: map<string, int>
    var catVars: map<string, string>
    var abilities: string
    var result: Display

    ghost predicate Valid()
      reads this
    {
      && catOpts.Keys == (set c | c in Categories)
      && catDefault.Keys == catOpts.Keys
      && (forall c :: c in catOpts ==> catDefault[c] == Default(catOpts[c]))
      && catOpts["Type"] == TypeChoices()
      && FormKeys(numVars, catVars)
    }

    /** Start-up after the relabelling step: the observed choices, Type's replaced, then the defaults and the initial fields. */
    constructor (observed: map<string, seq<Choice>>, ops: FloatOps)
      requires observed.Keys == (set c | c in Categories)
      ensures Valid()
      ensures catOpts == observed["Type" := TypeChoices()]
      ensures numVars == InitialNumbers()
      ensures forall f :: f in NumFields ==> numVars[f] == if f == "NumUnits" then 1 else 0
      ensures forall c :: c in Categories ==> catVars[c] == Render(ops, catDefault[c])
      ensures abilities == "" && result == Prompt
    {
      catOpts := observed;
      catDefault := map[];
      numVars := InitialNumbers();
      catVars := map[];
      abilities := "";
      result := Prompt;
      TypeIsACategory(observed);
      new;
      ForceTypeChoices();
      catDefault := Defaults(catOpts);
      catVars := ShownDefaults(ops, catDefault);
    }

    /** `cat_opts["Type"] = TYPE_LABELS` */
    method ForceTypeChoices()
      modifies this`catOpts
      ensures catOpts == old(catOpts)["Type" := TypeChoices()]
    {
      catOpts := catOpts["Type" := TypeChoices()];
    }

    /**
     * `predict()`: the record from the fields, the table, the estimate times
     * `max(1, NumUnits)`, rounded by `round`, shown in the label. The fields
     * of a valid form always give a record `build_df` accepts, so the
     * exception handler is not reached.
     */
    method Predict(estimate: Frame -> real, round: real -> int, ops: FloatOps)
      requires Valid()
      modifies this`result
      ensures Valid()
      ensures PredictedTotal(FormRecord(numVars, catVars, abilities), estimate, ops).Ok?
      ensures result == PredictedCost(round(PredictedTotal(FormRecord(numVars, catVars, abilities), estimate, ops).value))
    {
      var v := FormRecord(numVars, catVars, abilities);
      FormRecordBuilds(numVars, catVars, abilities);
      var total := PredictedTotal(v, estimate, ops);
      result := PredictedCost(round(total.value));
    }
  }

  /**
   * The module-level start-up: relabel Type in the source table, read the
   * choices, then open the form. A missing Type column raises a KeyError
   * before anything changes; a missing category raises the KeyError of the
   * dictionary comprehension.
   */
  method Startup(src: Table, ops: FloatOps) returns (r: Result<Form>)
    requires src.frame.Valid()
    modifies src
    ensures src.frame.Valid()
    ensures "Type" !in old(src.frame.cols) ==> r == Err(KeyError(["Type"])) && src.frame == old(src.frame)
    ensures "Type" in old(src.frame.cols) && old(src.frame.cols["Type"]).Text? ==> src.frame == old(src.frame)
    ensures "Type" in old(src.frame.cols) && old(src.frame.cols["Type"]).Numeric? ==>
              src.frame == Assign(old(src.frame), "Type", TypeCodes.Relabel(TypeMap, old(src.frame.cols["Type"])))
    ensures "Type" in old(src.frame.cols) && ObservedChoices(src.frame).Err? ==> r == Err(ObservedChoices(src.frame).error)
    ensures r.Ok? <==> "Type" in old(src.frame.cols) && ObservedChoices(src.frame).Ok?
    ensures r.Ok? ==> fresh(r.value) && r.value.Valid()
    ensures r.Ok? ==> r.value.catOpts == ObservedChoices(src.frame).value["Type" := TypeChoices()]
    ensures r.Ok? ==> r.value.numVars == InitialNumbers() && r.value.abilities == "" && r.value.result == Prompt
    ensures r.Ok? ==> forall c :: c in Categories ==> r.value.catVars[c] == Render(ops, r.value.catDefault[c])
  {
    var err := TypeCodes.RelabelType(src, TypeMap);
    if err.Some? {
      return Err(err.value);
    }
    var observed :- ObservedChoices(src.frame);
    var form := new Form(observed, ops);
    return Ok(form);
  }
}
