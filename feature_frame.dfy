/** The one-row DataFrame built from the reshaped input, with the 63 feature names as its columns. */
module FeatureFrame {
  import opened Wrappers
  import Decimal
  import opened FeatureLayout

  /** A single-row frame: column names in order and the row's values. */
  datatype Frame = Frame(columns: seq<string>, values: seq<real>)

  /** Index of the first column called `name`. */
  function ColumnIndex(columns: seq<string>, name: string): (i: Option<nat>)
    ensures i.Some? ==> i.value < |columns| && columns[i.value] == name
    ensures i.Some? ==> forall j :: 0 <= j < i.value ==> columns[j] != name
    ensures i.None? ==> name !in columns
  {
    if |columns| == 0 then None
    else if columns[0] == name then Some(0)
    else match ColumnIndex(columns[1..], name)
      case None => None
      case Some(j) => Some(j + 1)
  }

  /** `df[name]` of a one-row frame; None where pandas would raise KeyError. */
  function Column(f: Frame, name: string): (c: Option<real>)
    ensures c.Some? ==> name in f.columns
    ensures c.Some? ==> exists i :: 0 <= i < |f.columns| && i < |f.values| && f.columns[i] == name && f.values[i] == c.value
    ensures |f.values| == |f.columns| && name in f.columns ==> c.Some?
  {
    match ColumnIndex(f.columns, name)
    case Some(i) => if i < |f.values| then Some(f.values[i]) else None
    case None => None
  }

  /** The text pandas raises when the row width does not match the 63 column names. */
  function ShapeError(width: nat): string {
    "Shape of passed values is (1, " + Decimal.Render(width) + "), indices imply (1, 63)"
  }

  /** `pd.DataFrame(row, columns=feature_names)`. */
  function Build(row: seq<real>): (r: Result<Frame>)
    ensures r.Success? <==> |row| == FEATURE_COUNT
    ensures r.Success? ==> r.value.columns == FeatureNames() && r.value.values == row
    ensures r.Failure? ==> r.error == ShapeError(|row|)
  {
    FeatureKeysLayout();
    if |row| != FEATURE_COUNT then Failure(ShapeError(|row|)) else Success(Frame(FeatureNames(), row))
  }

  lemma ColumnIndexOfDistinct(columns: seq<string>, i: nat)
    requires i < |columns|
    requires forall p, q :: 0 <= p < q < |columns| ==> columns[p] != columns[q]
    ensures ColumnIndex(columns, columns[i]) == Some(i)
  {
  }

  /** Column `f'{axis}{i}'` of the built frame holds input value 3 * (i - 1) + axis. */
  lemma BuildColumns(row: seq<real>, p: nat)
    requires |row| == FEATURE_COUNT && p < FEATURE_COUNT
    ensures Build(row).Success?
    ensures Column(Build(row).value, KeyName(KeyAt(p))) == Some(row[p])
  {
    FeatureNamesLayout();
    ColumnIndexOfDistinct(FeatureNames(), p);
  }

  lemma RenderAnchors()
    ensures Decimal.Render(1) == "1" && Decimal.Render(13) == "13"
  {
    assert Decimal.Render(13) == Decimal.Render(1) + [Decimal.DigitChar(3)];
  }

  /**
   * The normaliser reads x1, y1, x13 and y13 (positions 0, 1, 36 and 37 of the
   * input) to compute its scale factor once, before its loop rewrites any
   * column; the normaliser's arithmetic itself is not modelled.
   */
  lemma NormaliserAnchors(row: seq<real>)
    requires |row| == FEATURE_COUNT
    ensures Column(Build(row).value, "x1") == Some(row[0])
    ensures Column(Build(row).value, "y1") == Some(row[1])
    ensures Column(Build(row).value, "x13") == Some(row[36])
    ensures Column(Build(row).value, "y13") == Some(row[37])
  {
    RenderAnchors();
    assert KeyName(KeyAt(0)) == "x1";
    assert KeyName(KeyAt(1)) == "y1";
    assert KeyName(KeyAt(36)) == "x13";
    assert KeyName(KeyAt(37)) == "y13";
    BuildColumns(row, 0);
    BuildColumns(row, 1);
    BuildColumns(row, 36);
    BuildColumns(row, 37);
  }
}
