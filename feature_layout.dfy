/**
 * The names given to the 63 input values: `f'{axis}{i}'` for i in 1..21 and,
 * inside, axis in x, y, z. Position p of the flat input is therefore the
 * coordinate "xyz"[p % 3] of landmark p / 3 + 1.
 */
module FeatureLayout {
  import opened Wrappers
  import Decimal

  const LANDMARK_COUNT: nat := 21
  const FEATURE_COUNT: nat := 63

  datatype Axis = X | Y | Z

  /** The inner loop of the comprehension: `for axis in ['x', 'y', 'z']`. */
  const AXES: seq<Axis> := [X, Y, Z]

  datatype FeatureKey = FeatureKey(axis: Axis, landmark: nat)

  predicate ValidKey(k: FeatureKey) {
    1 <= k.landmark <= LANDMARK_COUNT
  }

  function AxisIndex(a: Axis): (i: nat)
    ensures i < 3 && AXES[i] == a
  {
    match a
    case X => 0
    case Y => 1
    case Z => 2
  }

  function AxisChar(a: Axis): char {
    match a
    case X => 'x'
    case Y => 'y'
    case Z => 'z'
  }

  function AxisOfChar(c: char): Option<Axis> {
    if c == 'x' then Some(X) else if c == 'y' then Some(Y) else if c == 'z' then Some(Z) else None
  }

  /** The key of input position `p`. */
  function KeyAt(p: nat): (k: FeatureKey)
    requires p < FEATURE_COUNT
    ensures ValidKey(k)
  {
    FeatureKey(AXES[p % 3], p / 3 + 1)
  }

  /** The input position that carries key `k`. */
  function PositionOf(k: FeatureKey): (p: nat)
    requires ValidKey(k)
    ensures p < FEATURE_COUNT
  {
    3 * (k.landmark - 1) + AxisIndex(k.axis)
  }

  lemma PositionOfKeyAt(p: nat)
    requires p < FEATURE_COUNT
    ensures PositionOf(KeyAt(p)) == p
  {
  }

  lemma KeyAtPositionOf(k: FeatureKey)
    requires ValidKey(k)
    ensures KeyAt(PositionOf(k)) == k
  {
  }

  /** Each of the 63 positions carries a different key. */
  lemma KeyAtInjective(p: nat, q: nat)
    requires p < FEATURE_COUNT && q < FEATURE_COUNT
    requires KeyAt(p) == KeyAt(q)
    ensures p == q
  {
    PositionOfKeyAt(p);
    PositionOfKeyAt(q);
  }

  /** Landmark-major order: x1, y1, z1, x2, ..., z21. */
  predicate Before(k: FeatureKey, l: FeatureKey) {
    k.landmark < l.landmark || (k.landmark == l.landmark && AxisIndex(k.axis) < AxisIndex(l.axis))
  }

  lemma KeyAtOrdered(p: nat, q: nat)
    requires p < FEATURE_COUNT && q < FEATURE_COUNT
    ensures p < q <==> Before(KeyAt(p), KeyAt(q))
  {
  }

  /** The comprehension restricted to `for i in range(i, 22)`. */
  function KeysFrom(i: nat): seq<FeatureKey>
    requires 1 <= i <= LANDMARK_COUNT + 1
    decreases LANDMARK_COUNT + 1 - i
  {
    if i == LANDMARK_COUNT + 1 then []
    else [FeatureKey(AXES[0], i), FeatureKey(AXES[1], i), FeatureKey(AXES[2], i)] + KeysFrom(i + 1)
  }

  function FeatureKeys(): seq<FeatureKey> {
    KeysFrom(1)
  }

  lemma {:induction false} KeysFromLayout(i: nat)
    requires 1 <= i <= LANDMARK_COUNT + 1
    ensures |KeysFrom(i)| == 3 * (LANDMARK_COUNT + 1 - i)
    ensures forall q :: 0 <= q < |KeysFrom(i)| ==> KeysFrom(i)[q] == KeyAt(3 * (i - 1) + q)
    decreases LANDMARK_COUNT + 1 - i
  {
    if i <= LANDMARK_COUNT {
      KeysFromLayout(i + 1);
      var ks := KeysFrom(i);
      forall q | 0 <= q < |ks|
        ensures ks[q] == KeyAt(3 * (i - 1) + q)
      {
        if q >= 3 {
          assert ks[q] == KeysFrom(i + 1)[q - 3];
        }
      }
    }
  }

  /** The comprehension yields exactly KeyAt(0), ..., KeyAt(62) in that order. */
  lemma FeatureKeysLayout()
    ensures |FeatureKeys()| == FEATURE_COUNT
    ensures forall p :: 0 <= p < FEATURE_COUNT ==> FeatureKeys()[p] == KeyAt(p)
  {
    KeysFromLayout(1);
  }

  /** The column name `f'{axis}{i}'`. */
  function KeyName(k: FeatureKey): (s: string)
    ensures |s| >= 2
  {
    [AxisChar(k.axis)] + Decimal.Render(k.landmark)
  }

  /** Reads a column name back into its key; None for anything that is not one. */
  function ParseKeyName(s: string): Option<FeatureKey> {
    if |s| < 2 || !Decimal.AllDigits(s[1..]) then None
    else match AxisOfChar(s[0])
      case None => None
      case Some(a) => Some(FeatureKey(a, Decimal.Parse(s[1..])))
  }

  lemma ParseKeyNameOfKeyName(k: FeatureKey)
    ensures ParseKeyName(KeyName(k)) == Some(k)
  {
    var s := KeyName(k);
    assert s[1..] == Decimal.Render(k.landmark);
    Decimal.ParseRender(k.landmark);
  }

  lemma KeyNameInjective(k: FeatureKey, l: FeatureKey)
    requires KeyName(k) == KeyName(l)
    ensures k == l
  {
    ParseKeyNameOfKeyName(k);
    ParseKeyNameOfKeyName(l);
  }

  /** The `feature_names` list handed to the DataFrame. */
  function FeatureNames(): (names: seq<string>)
    ensures |names| == |FeatureKeys()|
  {
    seq(|FeatureKeys()|, p requires 0 <= p < |FeatureKeys()| => KeyName(FeatureKeys()[p]))
  }

  /** `feature_names` has 63 entries, position p is named after KeyAt(p), and no name repeats. */
  lemma FeatureNamesLayout()
    ensures |FeatureNames()| == FEATURE_COUNT
    ensures forall p :: 0 <= p < FEATURE_COUNT ==> FeatureNames()[p] == KeyName(KeyAt(p))
    ensures forall p, q :: 0 <= p < q < FEATURE_COUNT ==> FeatureNames()[p] != FeatureNames()[q]
  {
    FeatureKeysLayout();
    forall p, q | 0 <= p < q < FEATURE_COUNT
      ensures FeatureNames()[p] != FeatureNames()[q]
    {
      if FeatureNames()[p] == FeatureNames()[q] {
        KeyNameInjective(KeyAt(p), KeyAt(q));
        KeyAtInjective(p, q);
      }
    }
  }
}
