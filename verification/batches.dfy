/** Tensors seen along the batch axis.

    A batch is a sequence of rows, one per sample; a row is a feature vector
    whose elements have an abstract numeric type `E`. Only the batch-axis
    operations the stateful LSTM link uses are modelled here: splitting at a
    row index, concatenation, and zero filling.
 */
module Batches {

  /** Python's `None`-or-value, for the link's optional state. */
  datatype Option<+T> = None | Some(value: T)

  type Row<E> = seq<E>

  type Batch<E> = seq<Row<E>>

  /** `split_axis(t, [k], axis=0)`: the first `k` rows and the remaining rows. */
  function SplitAt<E>(t: Batch<E>, k: nat): (parts: (Batch<E>, Batch<E>))
    requires k <= |t|
    ensures |parts.0| == k && |parts.1| == |t| - k
    ensures forall i :: 0 <= i < k ==> parts.0[i] == t[i]
    ensures forall i :: 0 <= i < |parts.1| ==> parts.1[i] == t[k + i]
  {
    (t[..k], t[k..])
  }

  /** `concat([a, b], axis=0)`: the rows of `a` followed by the rows of `b`. */
  function Concat<E>(a: Batch<E>, b: Batch<E>): (t: Batch<E>)
    ensures |t| == |a| + |b|
    ensures forall i :: 0 <= i < |a| ==> t[i] == a[i]
    ensures forall i :: 0 <= i < |b| ==> t[|a| + i] == b[i]
  {
    a + b
  }

  /** Concatenating the two parts of a split gives back the batch. */
  lemma ConcatSplit<E>(t: Batch<E>, k: nat)
    requires k <= |t|
    ensures Concat(SplitAt(t, k).0, SplitAt(t, k).1) == t
  {
  }

  /** Splitting a concatenation at the length of its first part gives back both parts. */
  lemma SplitConcat<E>(a: Batch<E>, b: Batch<E>)
    ensures SplitAt(Concat(a, b), |a|) == (a, b)
  {
  }

  /** `xp.zeros((rows, width))`: `rows` rows of `width` zero elements. */
  function Zeros<E>(zero: E, rows: nat, width: nat): (t: Batch<E>)
    ensures |t| == rows
    ensures forall i :: 0 <= i < rows ==> |t[i]| == width
    ensures forall i, j :: 0 <= i < rows && 0 <= j < width ==> t[i][j] == zero
  {
    seq(rows, _ => seq(width, _ => zero))
  }
}
