/**
 * A value model of the small part of a pandas DataFrame that the trainer and
 * the presenter use: named columns in order, a column being either numeric
 * (an int64/float64 dtype) or textual (the object dtype that the CSV reader
 * gives to a column holding strings), lookup by name, assignment of a whole
 * column, selection of a list of columns, and the two element-wise numeric
 * operations the programs apply (log1p and true division).
 */
module Frames {

  datatype Option<+T> = None | Some(value: T)

  /** The exceptions the modelled code can raise. */
  datatype Error =
    | KeyError(missing: seq<string>)   // a column or dictionary key that is not there
    | TypeError(op: string)            // a numeric operation applied to text
    | ValueError(column: string)       // a table of several columns assigned to one column

  datatype Result<+T> = Ok(value: T) | Err(error: Error)
  {
    predicate IsFailure() { Err? }

    function PropagateFailure<U>(): Result<U>
      requires Err?
    {
      Err(error)
    }

    function Extract(): T
      requires Ok?
    {
      value
    }
  }

  /** A float64 value; NaN is also pandas' missing value. */
  datatype Float = Finite(x: real) | NaN | Inf(negative: bool)

  /** A column: numeric dtype, or object dtype holding strings and missing values (None). */
  datatype Column = Numeric(nums: seq<Float>) | Text(strs: seq<Option<string>>)
  {
    function Length(): nat {
      match this
      case Numeric(v) => |v|
      case Text(v) => |v|
    }
  }

  /** `dropna()` on a list: the present values, in order. */
  function Present<T(!new)>(xs: seq<Option<T>>): (r: seq<T>)
    ensures |r| <= |xs|
  {
    if xs == [] then [] else (if xs[0].Some? then [xs[0].value] else []) + Present(xs[1..])
  }

  /** `dropna()` keeps exactly the values that are present. */
  lemma {:induction false} PresentMembers<T(!new)>(xs: seq<Option<T>>)
    ensures forall s :: s in Present(xs) <==> Some(s) in xs
  {
    if xs != [] {
      PresentMembers(xs[1..]);
      assert xs == [xs[0]] + xs[1..];
    }
  }

  /** The floating-point library functions the programs call, left abstract. */
  datatype FloatOps = FloatOps(log1p: real -> real, show: real -> string)

  /** `names[i]`; the distinctness quantifier below is triggered only by this name, so it fires where a proof asks for it. */
  function NameAt(names: seq<string>, i: nat): string
    requires i < |names|
  {
    names[i]
  }

  /** No column name occurs twice. */
  predicate Distinct(names: seq<string>) {
    forall i, j {:trigger NameAt(names, i), NameAt(names, j)} :: 0 <= i < j < |names| ==> NameAt(names, i) != NameAt(names, j)
  }

  /** Distinctness at two given positions. */
  lemma DistinctAt(names: seq<string>, i: nat, j: nat)
    requires Distinct(names) && i < |names| && j < |names| && i != j
    ensures names[i] != names[j]
  {
    if i < j { assert NameAt(names, i) != NameAt(names, j); } else { assert NameAt(names, j) != NameAt(names, i); }
  }

  /** Two name lists without duplicates and without a name in common join into one without duplicates. */
  lemma DistinctConcat(a: seq<string>, b: seq<string>)
    requires Distinct(a) && Distinct(b)
    requires forall x :: x in a ==> x !in b
    ensures Distinct(a + b)
  {
    forall i, j | 0 <= i < j < |a + b| ensures NameAt(a + b, i) != NameAt(a + b, j) {
      if j < |a| {
        DistinctAt(a, i, j);
      } else if i >= |a| {
        DistinctAt(b, i - |a|, j - |a|);
      } else {
        assert a[i] in a;
      }
    }
  }

  /** A table: its column names in order, the columns by name, and its number of rows. */
  datatype Frame = Frame(names: seq<string>, cols: map<string, Column>, rows: nat)
  {
    ghost predicate Valid() {
      && Distinct(names)
      && cols.Keys == set n | n in names
      && forall n :: n in cols ==> cols[n].Length() == rows
    }
  }

  /** `str(x)` for a float64: the finite case is left to `ops.show`. */
  function ShowFloat(ops: FloatOps, v: Float): string {
    match v
    case Finite(x) => ops.show(x)
    case NaN => "nan"
    case Inf(negative) => if negative then "-inf" else "inf"
  }

  /** `df[name]`: the column, or a KeyError when the frame has no such column. */
  function Get(f: Frame, name: string): (r: Result<Column>)
    ensures r.Ok? <==> name in f.cols
    ensures r.Ok? ==> r.value == f.cols[name]
    ensures r.Err? ==> r.error == KeyError([name])
  {
    if name in f.cols then Ok(f.cols[name]) else Err(KeyError([name]))
  }

  /** The column order after `df[name] = ...`: an existing name stays where it is, a new one goes last. */
  function WithName(names: seq<string>, name: string): (r: seq<string>)
    ensures name in names ==> r == names
    ensures name !in names ==> r == names + [name]
    ensures forall n :: n in r <==> n in names || n == name
    ensures Distinct(names) ==> Distinct(r)
  {
    if name in names then names
    else
      var r := names + [name];
      assert Distinct(names) ==> Distinct(r) by {
        if Distinct(names) {
          forall i, j | 0 <= i < j < |r| ensures NameAt(r, i) != NameAt(r, j) {
            if j < |names| { DistinctAt(names, i, j); } else { assert names[i] in names; }
          }
        }
      }
      r
  }

  /** `df[name] = col`: the column is replaced or added, and the other columns are kept. */
  function Assign(f: Frame, name: string, col: Column): (g: Frame)
    requires f.Valid() && col.Length() == f.rows
    ensures g.Valid() && g.rows == f.rows
    ensures g.cols == f.cols[name := col]
    ensures name in f.cols ==> g.names == f.names
    ensures name !in f.cols ==> g.names == f.names + [name]
  {
    Frame(WithName(f.names, name), f.cols[name := col], f.rows)
  }

  /** The requested names that are not columns of `f`, in the order requested. */
  function MissingNames(f: Frame, names: seq<string>): (m: seq<string>)
    ensures forall n :: n in m <==> n in names && n !in f.cols
  {
    if names == [] then []
    else (if names[0] in f.cols then [] else [names[0]]) + MissingNames(f, names[1..])
  }

  /** The first of `names` that is not among `keys`: where a run of lookups raises its KeyError. */
  function FirstMissing(keys: set<string>, names: seq<string>): (r: Option<string>)
    ensures r.None? <==> forall n :: n in names ==> n in keys
    ensures r.Some? ==> exists j :: 0 <= j < |names| && names[j] == r.value && r.value !in keys
                                    && forall k :: 0 <= k < j ==> names[k] in keys
  {
    if names == [] then None
    else if names[0] !in keys then Some(names[0])
    else
      var r := FirstMissing(keys, names[1..]);
      if r.Some? then
        var j :| 0 <= j < |names[1..]| && names[1..][j] == r.value && r.value !in keys
                 && forall k :: 0 <= k < j ==> names[1..][k] in keys;
        assert forall k :: 0 <= k < j + 1 ==> names[k] in keys by {
          forall k | 0 <= k < j + 1 ensures names[k] in keys {
            if k > 0 { assert names[k] == names[1..][k - 1]; }
          }
        }
        r
      else r
  }

  /**
   * `df[names]`: a new frame with exactly the requested columns in the requested
   * order, or a KeyError naming every requested column that is missing.
   */
  function Select(f: Frame, names: seq<string>): (r: Result<Frame>)
    requires f.Valid() && Distinct(names)
    ensures r.Ok? <==> forall n :: n in names ==> n in f.cols
    ensures r.Ok? ==> r.value.Valid() && r.value.names == names && r.value.rows == f.rows
    ensures r.Ok? ==> forall n :: n in names ==> r.value.cols[n] == f.cols[n]
    ensures r.Err? ==> r.error == KeyError(MissingNames(f, names)) && |r.error.missing| > 0
  {
    var missing := MissingNames(f, names);
    if missing != [] then
      assert missing[0] in missing;
      Err(KeyError(missing))
    else Ok(Frame(names, map n | n in names :: f.cols[n], f.rows))
  }

  /** numpy's log1p on one float64: -inf at -1 and NaN below it. */
  function Log1pFloat(ops: FloatOps, v: Float): (r: Float)
    ensures v.NaN? ==> r.NaN?
    ensures v.Finite? && v.x > -1.0 ==> r == Finite(ops.log1p(v.x))
    ensures v.Finite? && v.x == -1.0 ==> r == Inf(true)
    ensures v.Finite? && v.x < -1.0 ==> r.NaN?
  {
    match v
    case Finite(h) => if h > -1.0 then Finite(ops.log1p(h)) else if h == -1.0 then Inf(true) else NaN
    case NaN => NaN
    case Inf(negative) => if negative then NaN else Inf(false)
  }

  /** `np.log1p(column)`: element-wise on a numeric column; an object column with any element raises. */
  function Log1pColumn(ops: FloatOps, c: Column): (r: Result<Column>)
    ensures r.Ok? <==> c.Numeric? || c.Length() == 0
    ensures r.Ok? ==> r.value.Length() == c.Length()
    ensures c.Numeric? ==> r.Ok? && r.value.Numeric?
                           && forall i :: 0 <= i < |c.nums| ==> r.value.nums[i] == Log1pFloat(ops, c.nums[i])
  {
    match c
    case Numeric(v) => Ok(Numeric(seq(|v|, i requires 0 <= i < |v| => Log1pFloat(ops, v[i]))))
    case Text(v) => if |v| == 0 then Ok(c) else Err(TypeError("log1p"))
  }

  /** IEEE true division, as numpy evaluates it (no exception on a zero divisor). */
  function DivFloat(p: Float, n: Float): (r: Float)
    ensures p.Finite? && n.Finite? && n.x != 0.0 ==> r.Finite? && r.x * n.x == p.x
    ensures p.Finite? && n.Finite? && n.x == 0.0 ==> !r.Finite?
    ensures p.NaN? || n.NaN? ==> r.NaN?
  {
    match (p, n)
    case (NaN, _) => NaN
    case (_, NaN) => NaN
    case (Finite(a), Finite(b)) =>
      if b != 0.0 then Finite(a / b) else if a == 0.0 then NaN else Inf(a < 0.0)
    case (Finite(_), Inf(_)) => Finite(0.0)
    case (Inf(s), Finite(b)) => Inf(if b < 0.0 then !s else s)
    case (Inf(_), Inf(_)) => NaN
  }

  /** The values of a column as floats, or None when it holds a string; None (a missing object) is NaN. */
  function AsFloats(c: Column): (r: Option<seq<Float>>)
    ensures c.Numeric? ==> r == Some(c.nums)
    ensures c.Text? ==> (r.Some? <==> forall i :: 0 <= i < |c.strs| ==> c.strs[i].None?)
    ensures r.Some? ==> |r.value| == c.Length()
  {
    match c
    case Numeric(v) => Some(v)
    case Text(v) =>
      if forall i :: 0 <= i < |v| ==> v[i].None? then Some(seq(|v|, _ => NaN)) else None
  }

  /** `p / n` on two columns of one frame: element-wise, a TypeError when either holds a string. */
  function DivideColumns(p: Column, n: Column): (r: Result<Column>)
    requires p.Length() == n.Length()
    ensures r.Ok? <==> AsFloats(p).Some? && AsFloats(n).Some?
    ensures r.Ok? ==> r.value.Numeric? && r.value.Length() == p.Length()
    ensures r.Ok? ==> forall i :: 0 <= i < p.Length() ==>
                        r.value.nums[i] == DivFloat(AsFloats(p).value[i], AsFloats(n).value[i])
    ensures r.Err? ==> r.error == TypeError("/")
  {
    match (AsFloats(p), AsFloats(n))
    case (Some(a), Some(b)) => Ok(Numeric(seq(|a|, i requires 0 <= i < |a| => DivFloat(a[i], b[i]))))
    case _ => Err(TypeError("/"))
  }

  /** Row `i` of `p / n` times row `i` of `n` is row `i` of `p` when both are finite and the divisor is not zero. */
  lemma QuotientTimesDivisor(p: Column, n: Column, i: nat)
    requires p.Numeric? && n.Numeric? && |p.nums| == |n.nums| && i < |p.nums|
    requires p.nums[i].Finite? && n.nums[i].Finite?
    ensures DivideColumns(p, n).Ok?
    ensures var q := DivideColumns(p, n).value.nums[i];
            && (n.nums[i].x != 0.0 ==> q == Finite(p.nums[i].x / n.nums[i].x) && q.x * n.nums[i].x == p.nums[i].x)
            && (n.nums[i].x == 0.0 ==> !q.Finite?)
  {
    var q := DivideColumns(p, n).value.nums[i];
    assert q == DivFloat(p.nums[i], n.nums[i]);
  }

  /** A DataFrame variable that the programs update column by column. */
  class Table {
    var frame: Frame

    constructor (f: Frame)
      ensures frame == f
    {
      frame := f;
    }

    /** `df[name] = col` */
    method SetColumn(name: string, col: Column)
      requires frame.Valid() && col.Length() == frame.rows
      modifies this
      ensures frame == Assign(old(frame), name, col)
    {
      frame := Assign(frame, name, col);
    }
  }
}
