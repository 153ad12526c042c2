/**
 * What ties the two programs together: the fitted pipeline selects its
 * columns by name, so the presenter's one-row table must have the trainer's
 * feature columns, in the trainer's order, and both must label Type codes
 * the same way.
 */
module SchemaAgreement {
  import opened Frames
  import Trainer
  import Presenter
  import TypeCodes

  /** `build_df`'s `order` is the trainer's `numeric_cols + categorical_cols + [text_col]`. */
  lemma ColumnOrdersAgree()
    ensures Presenter.ColumnOrder() == Trainer.FeatureColumns()
  {
  }

  /** The two copies of the code-to-label map are the same map. */
  lemma TypeMapsAgree()
    ensures Presenter.TypeMap == Trainer.TypeMap
  {
  }

  /** Selecting the trainer's feature columns from the presenter's table gives back that table unchanged. */
  lemma PresenterTableHasTheFeatures(v: map<string, Presenter.Value>, ops: FloatOps)
    requires Presenter.Buildable(v)
    ensures Distinct(Trainer.FeatureColumns())
    ensures Select(Presenter.BuildDf(v, ops).value, Trainer.FeatureColumns()) == Ok(Presenter.BuildDf(v, ops).value)
  {
    ColumnOrdersAgree();
    Presenter.ColumnsAreRecordKeys();
    var df := Presenter.BuildDf(v, ops).value;
    var s := Select(df, Trainer.FeatureColumns()).value;
    assert s.cols == df.cols;
  }

  /**
   * A character file of one record and a form holding that record's values:
   * the same cells, Type apart, which the file may hold as a label or as a
   * code; relabelled, it is the form's Type. The Abilities field holds the
   * joined power texts.
   */
  ghost predicate SameRecord(f: Frame, v: map<string, Presenter.Value>, ops: FloatOps) {
    && f.Valid() && f.rows == 1 && Trainer.Trainable(f)
    && Presenter.Buildable(v)
    && (forall c :: c in Trainer.RawFeatures && c != "Type" ==> f.cols[c] == Presenter.Cell(v[c]))
    && TypeCodes.Relabel(Trainer.TypeMap, f.cols["Type"]) == Presenter.Cell(v["Type"])
    && f.cols["Height"] == Presenter.Cell(v["Height"])
    && v["Abilities"] == Presenter.Str(Trainer.JoinPowers(Trainer.RowPowers(f, 0, ops).value))
  }

  /** A file's Type cell holding the form's label meets the Type clause of `SameRecord`. */
  lemma LabelledTypeAgrees(name: string)
    ensures TypeCodes.Relabel(Trainer.TypeMap, Presenter.Cell(Presenter.Str(name))) == Presenter.Cell(Presenter.Str(name))
  {
  }

  /** So does a cell holding an integer code whose label the form shows. */
  lemma CodedTypeAgrees(k: int)
    requires k in Trainer.TypeMap
    ensures TypeCodes.Relabel(Trainer.TypeMap, Presenter.Cell(Presenter.Int(k))) == Presenter.Cell(Presenter.Str(Trainer.TypeMap[k]))
  {
    var r := TypeCodes.Relabel(Trainer.TypeMap, Presenter.Cell(Presenter.Int(k)));
    assert r.strs[0] == TypeCodes.LabelOf(Trainer.TypeMap, Finite(k as real));
    assert (k as real).Floor == k;
  }

  /** Both tables have a column `c`, holding the same cells. */
  predicate SameCell(a: Frame, b: Frame, c: string) {
    c in a.cols && c in b.cols && a.cols[c] == b.cols[c]
  }

  /** `np.log1p` of a one-cell Height column is the presenter's logHeight cell. */
  lemma LogHeightCellsAgree(ops: FloatOps, h: int)
    ensures Log1pColumn(ops, Presenter.Cell(Presenter.Int(h))) == Ok(Presenter.LogHeightCell(ops, h))
  {
    assert Log1pColumn(ops, Presenter.Cell(Presenter.Int(h))).value.nums == [Log1pFloat(ops, Finite(h as real))];
  }

  /** The joined powers of a one-row file, as a column, are the presenter's one-cell text column. */
  lemma AbilitiesCellsAgree(f: Frame, ops: FloatOps)
    requires f.Valid() && f.rows == 1 && forall c :: c in Trainer.PowerColumns ==> c in f.cols
    ensures Trainer.AbilitiesColumn(f, ops) == Ok(Presenter.Cell(Presenter.Str(Trainer.JoinPowers(Trainer.RowPowers(f, 0, ops).value))))
  {
    assert Trainer.AbilitiesColumn(f, ops).value.strs == [Some(Trainer.JoinPowers(Trainer.RowPowers(f, 0, ops).value))];
  }

  /** `x` holds what the trainer puts in X for the file `f`. */
  ghost predicate TrainerRow(x: Frame, f: Frame, ops: FloatOps)
    requires f.Valid()
  {
    && x.Valid() && x.names == Trainer.FeatureColumns() && x.rows == 1
    && (forall c :: c in Trainer.RawFeatures && c != "Type" ==> c in x.cols && c in f.cols && x.cols[c] == f.cols[c])
    && "Type" in x.cols && "Abilities" in x.cols && "logHeight" in x.cols && "Type" in f.cols && "Height" in f.cols
    && x.cols["Type"] == TypeCodes.Relabel(Trainer.TypeMap, f.cols["Type"])
    && Trainer.AbilitiesColumn(f, ops).Ok?
    && x.cols["Abilities"] == Trainer.AbilitiesColumn(f, ops).value
    && Log1pColumn(ops, f.cols["Height"]).Ok?
    && x.cols["logHeight"] == Log1pColumn(ops, f.cols["Height"]).value
  }

  lemma RawCellsAgree(x: Frame, f: Frame, v: map<string, Presenter.Value>, ops: FloatOps)
    requires SameRecord(f, v, ops) && TrainerRow(x, f, ops)
    ensures forall c :: c in Trainer.RawFeatures ==> SameCell(x, Presenter.BuildDf(v, ops).value, c)
  {
    forall c | c in Trainer.RawFeatures ensures SameCell(x, Presenter.BuildDf(v, ops).value, c) {
      RawCellAgrees(x, f, v, ops, c);
    }
  }

  /** One raw feature: the file's column, for Type the relabelled one, is the presenter's cell. */
  lemma RawCellAgrees(x: Frame, f: Frame, v: map<string, Presenter.Value>, ops: FloatOps, c: string)
    requires SameRecord(f, v, ops) && TrainerRow(x, f, ops) && c in Trainer.RawFeatures
    ensures SameCell(x, Presenter.BuildDf(v, ops).value, c)
  {
    RawFeatureIsRecordKey(c);
    Presenter.BuildDfCopiesField(v, ops, c);
  }

  lemma RawFeatureIsRecordKey(c: string)
    requires c in Trainer.RawFeatures
    ensures c in Presenter.RecordKeys && c != "Height"
  {
    RawFeaturesAreRecordKeys();
  }

  /** Every feature column is a raw feature or one of the two derived ones. */
  lemma FeaturesAreRawOrDerived()
    ensures forall c :: c in Trainer.FeatureColumns() ==> c in Trainer.RawFeatures || c == "logHeight" || c == "Abilities"
  {
  }

  /** The trainer's raw features are fields of the presenter's record, Height not among them. */
  lemma RawFeaturesAreRecordKeys()
    ensures forall c :: c in Trainer.RawFeatures ==> c in Presenter.RecordKeys && c != "Height"
    ensures "Type" in Trainer.RawFeatures
  {
  }

  lemma LogHeightCellAgrees(x: Frame, f: Frame, v: map<string, Presenter.Value>, ops: FloatOps)
    requires SameRecord(f, v, ops) && TrainerRow(x, f, ops)
    ensures SameCell(x, Presenter.BuildDf(v, ops).value, "logHeight")
  {
    Presenter.BuildDfCopiesFields(v, ops);
    LogHeightCellsAgree(ops, v["Height"].n);
  }

  lemma AbilitiesCellAgrees(x: Frame, f: Frame, v: map<string, Presenter.Value>, ops: FloatOps)
    requires SameRecord(f, v, ops) && TrainerRow(x, f, ops)
    ensures SameCell(x, Presenter.BuildDf(v, ops).value, "Abilities")
  {
    Presenter.BuildDfAbilities(v, ops);
    AbilitiesCellsAgree(f, ops);
  }

  /** Each feature column of `x` is the presenter's column of that name. */
  lemma FeatureCellsAgree(x: Frame, f: Frame, v: map<string, Presenter.Value>, ops: FloatOps)
    requires SameRecord(f, v, ops) && TrainerRow(x, f, ops)
    ensures forall c :: c in Trainer.FeatureColumns() ==> SameCell(x, Presenter.BuildDf(v, ops).value, c)
  {
    RawCellsAgree(x, f, v, ops);
    LogHeightCellAgrees(x, f, v, ops);
    AbilitiesCellAgrees(x, f, v, ops);
    FeaturesAreRawOrDerived();
  }

  /** A table holding what the trainer puts in X for that file is the presenter's table for that form. */
  lemma FeatureRowAgrees(x: Frame, f: Frame, v: map<string, Presenter.Value>, ops: FloatOps)
    requires SameRecord(f, v, ops) && TrainerRow(x, f, ops)
    ensures x == Presenter.BuildDf(v, ops).value
  {
    FeatureCellsAgree(x, f, v, ops);
    ColumnOrdersAgree();
    SameFrames(x, Presenter.BuildDf(v, ops).value);
  }

  /** The trainer, given that file, builds the same feature table as the presenter, given that form. */
  lemma OneRecordSameFeatures(f: Frame, v: map<string, Presenter.Value>, ops: FloatOps)
    requires SameRecord(f, v, ops)
    ensures Trainer.TrainingSet(f, ops).Ok?
    ensures Trainer.TrainingSet(f, ops).value.x == Presenter.BuildDf(v, ops).value
  {
    Trainer.TrainingSetSucceeds(f, ops);
    Trainer.TrainingSetShape(f, ops);
    Trainer.TrainingSetKeepsRawFeatures(f, ops);
    Trainer.TrainingSetDerivedFeatures(f, ops);
    FeatureRowAgrees(Trainer.TrainingSet(f, ops).value.x, f, v, ops);
  }

  /** Two tables with the same names, row count and cells are the same table. */
  lemma SameFrames(a: Frame, b: Frame)
    requires a.Valid() && b.Valid() && a.names == b.names && a.rows == b.rows
    requires forall c :: c in a.names ==> SameCell(a, b, c)
    ensures a == b
  {
    assert a.cols == b.cols;
  }
}
