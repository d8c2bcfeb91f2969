/** The fully-connected stateful LSTM link (`chainer/links/connection/lstm.py`).

    The link owns an upward and a lateral fully-connected layer and two pieces
    of state: the cell state `c` and the previous output `h`. Each call feeds a
    batch through the upward layer, adds the lateral layer applied to the
    previous output, runs the LSTM gate primitive and stores the new state.
    When the batch shrinks between calls, only the first rows of `h` take part
    and the remaining rows are carried past the gate unchanged.

    The numerics are abstract: a layer's affine map and the addition of gate
    pre-activations are uninterpreted functions on rows, and the gate primitive
    `functions.lstm` is an uninterpreted function on batches.
 */
module Lstm {
  import opened Batches

  /** A fully-connected layer (`links.Linear`): its dimensions, whether it was
      built without a bias, and the affine map its weights define on one row. */
  datatype Linear<!E> = Linear(inSize: nat, outSize: nat, nobias: bool, affine: Row<E> -> Row<E>)

  /** The collaborators of the link that it does not own: the gate primitive
      `functions.lstm(c, x)` returning `(new c, new h)`, the row-wise addition of
      gate pre-activations, and the zero of the element type. */
  datatype Backend<!E> = Backend(
    lstm: (Batch<E>, Batch<E>) -> (Batch<E>, Batch<E>),
    addRow: (Row<E>, Row<E>) -> Row<E>,
    zero: E)

  /** The link: its two child layers, `state_size`, and the optional state. */
  datatype LstmLink<!E> = LstmLink(
    upward: Linear<E>,
    lateral: Linear<E>,
    stateSize: nat,
    c: Option<Batch<E>>,
    h: Option<Batch<E>>)

  /** What a call leaves behind: the updated link and the returned output. */
  datatype Output<!E> = Output(link: LstmLink<E>, y: Batch<E>)

  /** Same layers and `state_size`: the parts of the link a call never touches. */
  ghost predicate SameLayers<E>(a: LstmLink<E>, b: LstmLink<E>) {
    a.upward == b.upward && a.lateral == b.lateral && a.stateSize == b.stateSize
  }

  /** The explicit assumption about the gate primitive, whose source is not part
      of this model: it yields one output row per row of gate pre-activations.
      Nothing is assumed about the cell state it returns. */
  ghost predicate OneOutputRowPerGateRow<E(!new)>(backend: Backend<E>) {
    forall c, g :: |backend.lstm(c, g).1| == |g|
  }

  /** Applying a layer to a batch: the affine map on every row. */
  function Apply<E>(layer: Linear<E>, t: Batch<E>): (r: Batch<E>)
    ensures |r| == |t|
    ensures forall i :: 0 <= i < |t| ==> r[i] == layer.affine(t[i])
  {
    seq(|t|, i requires 0 <= i < |t| => layer.affine(t[i]))
  }

  /** Element-wise `a + b` of two gate pre-activation batches; the shapes must agree. */
  function AddRows<E>(backend: Backend<E>, a: Batch<E>, b: Batch<E>): (r: Batch<E>)
    requires |a| == |b|
    ensures |r| == |a|
    ensures forall i :: 0 <= i < |a| ==> r[i] == backend.addRow(a[i], b[i])
  {
    seq(|a|, i requires 0 <= i < |a| => backend.addRow(a[i], b[i]))
  }

  /** `LSTM(in_size, out_size)`: upward layer `in_size -> 4 * out_size` with a
      bias, lateral layer `out_size -> 4 * out_size` without one, `state_size`
      equal to `out_size`, and the state reset. The layers' weights are drawn at
      random by the source; here their affine maps are parameters. */
  function New<E>(inSize: nat, outSize: nat, upwardMap: Row<E> -> Row<E>, lateralMap: Row<E> -> Row<E>)
    : (link: LstmLink<E>)
    ensures link.c.None? && link.h.None?
    ensures link.stateSize == outSize
    ensures link.upward.inSize == inSize && link.upward.outSize == 4 * outSize && !link.upward.nobias
    ensures link.lateral.inSize == outSize && link.lateral.outSize == 4 * outSize && link.lateral.nobias
    ensures link.upward.affine == upwardMap && link.lateral.affine == lateralMap
  {
    var built := LstmLink(
      Linear(inSize, 4 * outSize, false, upwardMap),
      Linear(outSize, 4 * outSize, true, lateralMap),
      outSize, None, None);
    ResetState(built)
  }

  /** `reset_state`: both `c` and `h` become `None`; nothing else changes. */
  function ResetState<E>(link: LstmLink<E>): (r: LstmLink<E>)
    ensures r.c.None? && r.h.None?
    ensures SameLayers(r, link)
  {
    link.(c := None, h := None)
  }

  /** The batches the source handles: when `h` is set it has at least as many
      rows as the input. With fewer rows the lateral term has fewer rows than
      the upward term and their addition fails. */
  predicate Supported<E>(link: LstmLink<E>, x: Batch<E>) {
    link.h.Some? ==> |x| <= |link.h.value|
  }

  /** The rows of the previous output fed to the lateral layer, and the rows
      carried past the gate: `h` is split at `batch` only when it has more rows. */
  function LateralRows<E>(h: Option<Batch<E>>, batch: nat): (r: (Option<Batch<E>>, Option<Batch<E>>))
    ensures h.None? ==> r.0.None? && r.1.None?
    ensures h.Some? ==> r.0.Some?
    ensures r.1.Some? <==> h.Some? && |h.value| > batch
    ensures h.Some? && batch <= |h.value| ==> |r.0.value| == batch
    ensures h.Some? ==> Concat(r.0.value, if r.1.Some? then r.1.value else []) == h.value
  {
    match h
    case None => (None, None)
    case Some(prev) =>
      if |prev| > batch then
        var (update, rest) := SplitAt(prev, batch);
        ConcatSplit(prev, batch);
        (Some(update), Some(rest))
      else
        (Some(prev), None)
  }

  /** The gate pre-activations: `upward(x)`, plus `lateral` of the first
      `|x|` rows of `h` when `h` is set. */
  function GateInput<E>(link: LstmLink<E>, backend: Backend<E>, x: Batch<E>): (g: Batch<E>)
    requires Supported(link, x)
    ensures |g| == |x|
    ensures link.h.None? ==> g == Apply(link.upward, x)
    ensures link.h.Some? ==>
      forall i :: 0 <= i < |x| ==>
        g[i] == backend.addRow(link.upward.affine(x[i]), link.lateral.affine(link.h.value[i]))
  {
    var lstmIn := Apply(link.upward, x);
    var (update, _) := LateralRows(link.h, |x|);
    match update
    case None => lstmIn
    case Some(rows) => AddRows(backend, lstmIn, Apply(link.lateral, rows))
  }

  /** The cell state handed to the gate: the stored `c`, or `|x|` zero rows of
      width `state_size` when `c` is unset. */
  function CellBefore<E>(link: LstmLink<E>, backend: Backend<E>, batch: nat): (c: Batch<E>)
    ensures link.c.Some? ==> c == link.c.value
    ensures link.c.None? ==>
      && |c| == batch
      && (forall i :: 0 <= i < batch ==> |c[i]| == link.stateSize)
      && (forall i, j :: 0 <= i < batch && 0 <= j < link.stateSize ==> c[i][j] == backend.zero)
  {
    match link.c
    case Some(c) => c
    case None => Zeros(backend.zero, batch, link.stateSize)
  }

  /** The gate primitive's result `(new c, fresh output)` for this call. */
  function Gate<E>(link: LstmLink<E>, backend: Backend<E>, x: Batch<E>): (Batch<E>, Batch<E>)
    requires Supported(link, x)
  {
    backend.lstm(CellBefore(link, backend, |x|), GateInput(link, backend, x))
  }

  /** `__call__(x)`: the new `c` is the gate's cell state, and the returned
      output, which is also stored as `h`, is the gate's fresh output followed
      by the rows of the old `h` beyond `|x|` when the batch shrank. */
  function Call<E>(link: LstmLink<E>, backend: Backend<E>, x: Batch<E>): (r: Output<E>)
    requires Supported(link, x)
    ensures r.link.c.Some? && r.link.h.Some?
    ensures r.link.h.value == r.y
    ensures SameLayers(r.link, link)
    ensures r.link.c.value == Gate(link, backend, x).0
    ensures |Gate(link, backend, x).1| <= |r.y|
    ensures r.y[..|Gate(link, backend, x).1|] == Gate(link, backend, x).1
    ensures link.h.Some? && |link.h.value| > |x| ==>
      r.y[|Gate(link, backend, x).1|..] == link.h.value[|x|..]
    ensures !(link.h.Some? && |link.h.value| > |x|) ==> |r.y| == |Gate(link, backend, x).1|
  {
    var (_, rest) := LateralRows(link.h, |x|);
    var (cNew, hNew) := Gate(link, backend, x);
    var y := if rest.Some? then Concat(hNew, rest.value) else hNew;
    Output(link.(c := Some(cNew), h := Some(y)), y)
  }

  /** First call, or first call after a reset: no lateral term, and the gate
      starts from `|x|` zero rows of width `state_size`. */
  lemma FirstCall<E>(link: LstmLink<E>, backend: Backend<E>, x: Batch<E>)
    requires link.c.None? && link.h.None?
    ensures Call(link, backend, x).link.c.value ==
      backend.lstm(Zeros(backend.zero, |x|, link.stateSize), Apply(link.upward, x)).0
    ensures Call(link, backend, x).y ==
      backend.lstm(Zeros(backend.zero, |x|, link.stateSize), Apply(link.upward, x)).1
  {
  }

  /** The first call's output has one row per input row, given the assumption
      about the gate primitive. */
  lemma FirstCallRowCount<E(!new)>(link: LstmLink<E>, backend: Backend<E>, x: Batch<E>)
    requires link.c.None? && link.h.None?
    requires OneOutputRowPerGateRow(backend)
    ensures |Call(link, backend, x).y| == |x|
  {
  }

  /** Resetting twice is the same as resetting once. */
  lemma ResetIdempotent<E>(link: LstmLink<E>)
    ensures ResetState(ResetState(link)) == ResetState(link)
  {
  }

  /** A call whose batch matches the previous output: the lateral layer sees all
      of `h`, nothing is carried, and the output is the gate's fresh output. */
  lemma SameBatchCall<E(!new)>(link: LstmLink<E>, backend: Backend<E>, x: Batch<E>)
    requires link.c.Some? && link.h.Some? && |link.h.value| == |x|
    requires OneOutputRowPerGateRow(backend)
    ensures Call(link, backend, x).y ==
      backend.lstm(link.c.value,
        AddRows(backend, Apply(link.upward, x), Apply(link.lateral, link.h.value))).1
    ensures |Call(link, backend, x).y| == |x|
  {
  }

  /** A call whose batch is smaller than the previous output: the output keeps
      the old number of rows; its first `|x|` rows are the gate's output on the
      stored (unsplit) `c` and the first `|x|` rows of `h`, and the remaining
      rows are those of the old `h`, unchanged. */
  lemma ShrinkingCall<E(!new)>(link: LstmLink<E>, backend: Backend<E>, x: Batch<E>)
    requires link.c.Some? && link.h.Some? && |link.h.value| > |x|
    requires OneOutputRowPerGateRow(backend)
    ensures |Call(link, backend, x).y| == |link.h.value|
    ensures Call(link, backend, x).link.c.value ==
      backend.lstm(link.c.value,
        AddRows(backend, Apply(link.upward, x), Apply(link.lateral, link.h.value[..|x|]))).0
    ensures Call(link, backend, x).y[..|x|] ==
      backend.lstm(link.c.value,
        AddRows(backend, Apply(link.upward, x), Apply(link.lateral, link.h.value[..|x|]))).1
    ensures Call(link, backend, x).y[|x|..] == link.h.value[|x|..]
  {
  }

  /** Only the first `|x|` rows of `h` influence the new cell state and the
      fresh rows of the output: two links that differ only in the rows of `h`
      beyond `|x|` produce the same cell state and the same first `|x|` rows. */
  lemma LateralSeesOnlyHead<E(!new)>(a: LstmLink<E>, b: LstmLink<E>, backend: Backend<E>, x: Batch<E>)
    requires SameLayers(a, b) && a.c == b.c
    requires a.h.Some? && b.h.Some? && Supported(a, x) && Supported(b, x)
    requires a.h.value[..|x|] == b.h.value[..|x|]
    requires OneOutputRowPerGateRow(backend)
    ensures Call(a, backend, x).link.c == Call(b, backend, x).link.c
    ensures Call(a, backend, x).y[..|x|] == Call(b, backend, x).y[..|x|]
  {
  }
}
