/** The row maximum, reduced in whatever tree the tiles, warps and threads happen to form. */
module ArgMax {

  /** A partial result: the largest number seen and where it was seen first. */
  datatype Range = Range(high: int, index: nat)

  function Merge(a: Range, b: Range): Range {
    var takeB := b.high > a.high || (b.high == a.high && b.index < a.index);
    Range(if a.high >= b.high then a.high else b.high, if takeB then b.index else a.index)
  }

  /** Any order in which partial results can be combined. */
  datatype Tree = Leaf(r: Range) | Node(left: Tree, right: Tree)

  function Reduce(t: Tree): Range {
    match t
    case Leaf(r) => r
    case Node(l, r) => Merge(Reduce(l), Reduce(r))
  }

  ghost predicate Holds(t: Tree, r: Range) {
    match t
    case Leaf(x) => x == r
    case Node(a, b) => Holds(a, r) || Holds(b, r)
  }

  /** a comes before b: larger, or equal and further to the left. */
  ghost predicate Beats(a: Range, b: Range) {
    a.high > b.high || (a.high == b.high && a.index <= b.index)
  }

  lemma {:induction false} ReduceIsBest(t: Tree)
    ensures Holds(t, Reduce(t))
    ensures forall r :: Holds(t, r) ==> Beats(Reduce(t), r)
  {
    match t
    case Leaf(r) =>
    case Node(a, b) =>
      ReduceIsBest(a);
      ReduceIsBest(b);
  }

  /** Every number of the row is a leaf; all other leaves are padding behind the row. */
  ghost predicate Covers(t: Tree, row: seq<int>, lowest: int) {
    && (forall i :: 0 <= i < |row| ==> Holds(t, Range(row[i], i)))
    && (forall r :: Holds(t, r) ==>
          (r.index < |row| && r.high == row[r.index]) || (r.index >= |row| && r.high == lowest))
  }

  /** However the leaves are grouped, the result is the leftmost maximum of the row, even if
      the whole row is as low as the padding. */
  lemma ReduceIsLeftmostMaximum(t: Tree, row: seq<int>, lowest: int)
    requires row != [] && Covers(t, row, lowest) && forall i :: 0 <= i < |row| ==> lowest <= row[i]
    ensures var r := Reduce(t);
            && r.index < |row| && r.high == row[r.index]
            && (forall i :: 0 <= i < |row| ==> row[i] <= r.high)
            && (forall i :: 0 <= i < r.index ==> row[i] < r.high)
  {
    ReduceIsBest(t);
    var r := Reduce(t);
    assert Holds(t, Range(row[0], 0));
    forall i | 0 <= i < |row|
      ensures row[i] <= r.high && (i < r.index ==> row[i] < r.high)
    {
      assert Beats(r, Range(row[i], i));
    }
  }
}
