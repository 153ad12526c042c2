/**
 * The Type relabelling step that both programs run right after reading the
 * CSV file: when the Type column is numeric, every code is replaced by its
 * label through the program's code-to-label map (a code the map lacks, or a
 * missing value, becomes a missing label); a column that is already text is
 * left as it is.
 */
module TypeCodes {
  import opened Frames

  /** What `Series.map(type_map)` gives for one float64: a key matches an equal float (1.0 finds 1). */
  function LabelOf(typeMap: map<int, string>, v: Float): (r: Option<string>)
    ensures r.Some? <==> v.Finite? && v.x == v.x.Floor as real && v.x.Floor in typeMap
    ensures r.Some? ==> r.value == typeMap[v.x.Floor]
  {
    if v.Finite? && v.x == v.x.Floor as real && v.x.Floor in typeMap then Some(typeMap[v.x.Floor]) else None
  }

  /** The Type column after the relabelling step. */
  function Relabel(typeMap: map<int, string>, c: Column): (r: Column)
    ensures r.Text? && r.Length() == c.Length()
    ensures c.Text? ==> r == c
    ensures c.Numeric? ==> forall i :: 0 <= i < |c.nums| ==> r.strs[i] == LabelOf(typeMap, c.nums[i])
  {
    match c
    case Text(_) => c
    case Numeric(v) => Text(seq(|v|, i requires 0 <= i < |v| => LabelOf(typeMap, v[i])))
  }

  /** Relabelling twice is relabelling once. */
  lemma RelabelIsIdempotent(typeMap: map<int, string>, c: Column)
    ensures Relabel(typeMap, Relabel(typeMap, c)) == Relabel(typeMap, c)
  {
  }

  /** Every relabelled entry is one of the map's labels or missing, and a known code gets its own label. */
  lemma RelabelledValues(typeMap: map<int, string>, c: Column, i: nat)
    requires c.Numeric? && i < |c.nums|
    ensures Relabel(typeMap, c).strs[i].Some? ==> Relabel(typeMap, c).strs[i].value in typeMap.Values
    ensures forall k :: k in typeMap && c.nums[i] == Finite(k as real) ==>
              Relabel(typeMap, c).strs[i] == Some(typeMap[k])
  {
  }

  /**
   * `if df["Type"].dtype != object: df["Type"] = df["Type"].map(type_map)`.
   * Without a Type column this raises a KeyError and leaves the table as it was.
   */
  method RelabelType(t: Table, typeMap: map<int, string>) returns (err: Option<Error>)
    requires t.frame.Valid()
    modifies t
    ensures t.frame.Valid() && t.frame.rows == old(t.frame.rows)
    ensures "Type" !in old(t.frame.cols) ==> err == Some(KeyError(["Type"])) && t.frame == old(t.frame)
    ensures "Type" in old(t.frame.cols) ==> err.None?
    ensures "Type" in old(t.frame.cols) && old(t.frame.cols["Type"]).Text? ==> t.frame == old(t.frame)
    ensures "Type" in old(t.frame.cols) && old(t.frame.cols["Type"]).Numeric? ==>
              t.frame == Assign(old(t.frame), "Type", Relabel(typeMap, old(t.frame.cols["Type"])))
  {
    var col := Get(t.frame, "Type");
    if col.Err? {
      return Some(col.error);
    }
    if col.value.Numeric? {
      t.SetColumn("Type", Relabel(typeMap, col.value));
    }
    return None;
  }
}
