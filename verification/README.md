# Stateful LSTM link

A Dafny model of Chainer's fully-connected stateful LSTM link
(`chainer/links/connection/lstm.py`). The link owns an upward layer
(`in_size -> 4 * out_size`, with bias) and a lateral layer
(`out_size -> 4 * out_size`, no bias), and it keeps two pieces of state between
calls: the cell state `c` and the previous output `h`. Each call

1. takes the batch size from the input,
2. applies the upward layer to the input,
3. adds the lateral layer applied to `h` when `h` is set. When `h` has more rows
   than the batch, only the first `batch` rows go through the lateral layer and
   the remaining rows are set aside,
4. creates `c` as `batch` zero rows of width `state_size` when it is unset,
5. runs the LSTM gate primitive, stores the new `c`, appends the set-aside rows
   after the fresh output, and stores and returns the result as `h`.

`reset_state` clears both `c` and `h`.

The model is about structure, not numerics. A batch is a sequence of rows and a
row is a sequence of elements of an abstract type `E`. A layer's affine map is
an uninterpreted function on one row, and applying a layer to a batch maps it
over the rows. The element-wise addition of gate pre-activations is an
uninterpreted function on a pair of rows, zipped over two batches that must have
the same number of rows. The gate primitive `functions.lstm` is an uninterpreted
function on batches. The weights, the primitive and the zero element are
parameters (`Lstm.Linear.affine`, `Lstm.Backend`).

Files:

- `batches.dfy` — module `Batches`: the `Option` type for the link's
  optional state, and split, concatenation and zero filling along the batch
  axis.
- `lstm.dfy` — module `Lstm`: construction, `reset_state`, a call and its
  parts, and per-call lemmas.
- `lifecycle.dfy` — module `Lifecycle`: sequences of calls and resets, the
  state machine, and the frozen rows of ended sequences.

`c` and `h` are two independent optional values, as in the source, which tests
each separately. That they are set or unset together is proved
(`Lifecycle.ReplayKeepsCoupled`), not built into the type.

The only assumption about the gate primitive is `Lstm.OneOutputRowPerGateRow`:
it returns one output row per row of gate pre-activations. Nothing is assumed
about the cell state it returns, including when `c` has more rows than the
input. The source passes `c` whole in that case (line 86). Lemmas that need the
assumption list it as a `requires`.

## Model

| member | source | states |
|---|---|---|
| `Batches.SplitAt` | chainer/links/connection/lstm.py:77 | splitting at `k` yields exactly the first `k` rows and the rest, row for row |
| `Batches.Concat` | chainer/links/connection/lstm.py:87-88 | concatenation has the rows of the first batch followed by those of the second, row for row |
| `Batches.ConcatSplit` | chainer/links/connection/lstm.py:76-78 | the head and tail of `h` concatenate back to `h` (`h_update ++ h_rest == h`) |
| `Batches.SplitConcat` | chainer/links/connection/lstm.py:87-88 | splitting a concatenation at its first part's length returns both parts |
| `Batches.Zeros` | chainer/links/connection/lstm.py:83-85 | `zeros((rows, width))` has `rows` rows, each of `width` elements, all zero |
| `Lstm.Apply` | chainer/links/connection/lstm.py:73 | a layer applied to a batch gives one row per input row, the affine map of that row |
| `Lstm.AddRows` | chainer/links/connection/lstm.py:78 | the sum of two gate pre-activation batches of equal size is their row-wise sum |
| `Lstm.New` | chainer/links/connection/lstm.py:32-38 | a new link has `c` and `h` unset, `state_size == out_size`, upward `in_size -> 4*out_size` with bias, lateral `out_size -> 4*out_size` without |
| `Lstm.ResetState` | chainer/links/connection/lstm.py:54-60 | after a reset, from any state, `c` and `h` are unset and the layers and `state_size` are unchanged |
| `Lstm.LateralRows` | chainer/links/connection/lstm.py:74-80 | with `h` unset nothing reaches the lateral layer; otherwise the lateral rows and the carried rows concatenate to `h`, the lateral rows number `batch` when `h` is at least that long, and rows are carried exactly when `h` is longer than the batch |
| `Lstm.GateInput` | chainer/links/connection/lstm.py:73-80 | the gate input has one row per input row; it is `upward(x)` alone when `h` is unset, and otherwise row `i` is `upward(x[i]) + lateral(h[i])` for `i < batch` |
| `Lstm.CellBefore` | chainer/links/connection/lstm.py:81-85 | the gate receives the stored `c` unchanged, or, when `c` is unset, `batch` zero rows of width `state_size` |
| `Lstm.Call` | chainer/links/connection/lstm.py:62-90 | after a call `c` and `h` are set, the returned output is the stored `h`, the new `c` is the gate's cell state, the output starts with the gate's output and continues with the old `h` rows from `batch` on when the batch shrank, and with nothing otherwise |
| `Lstm.ResetIdempotent` | chainer/links/connection/lstm.py:54-60 | resetting twice is the same as resetting once |
| `Lstm.FirstCall` | chainer/links/connection/lstm.py:73-86 | with no state, the new `c` and the output are the gate primitive applied to `batch` zero rows and `upward(x)` alone |
| `Lstm.FirstCallRowCount` | chainer/links/connection/lstm.py:81-89 | with no state, the output has one row per input row |
| `Lstm.SameBatchCall` | chainer/links/connection/lstm.py:79-87 | when `h` has exactly `batch` rows, the lateral layer sees all of `h`, nothing is carried and the output is the gate's output |
| `Lstm.ShrinkingCall` | chainer/links/connection/lstm.py:76-88 | when `h` has more rows than `batch`, the output has as many rows as the old `h`, its first `batch` rows are the gate's output on the unsplit `c` and the first `batch` rows of `h`, and its other rows are those of the old `h` |
| `Lstm.LateralSeesOnlyHead` | chainer/links/connection/lstm.py:76-78 | rows of `h` beyond `batch` influence neither the new `c` nor the first `batch` output rows |
| `Lifecycle.Replay` | chainer/links/connection/lstm.py:54-90 | no sequence of calls and resets changes the layers or `state_size` |
| `Lifecycle.CalledSinceResetIsLastCall` | chainer/links/connection/lstm.py:54-89 | a call came after the last reset exactly when the last event is a call |
| `Lifecycle.StateAfterReplay` | chainer/links/connection/lstm.py:54-89 | after any sequence of calls and resets, `h` (and `c`) is set exactly when a call came after the last reset, or it was set before and no reset happened |
| `Lifecycle.ReplayKeepsCoupled` | chainer/links/connection/lstm.py:81-89 | `c` and `h` being set or unset together is preserved by every sequence of calls and resets |
| `Lifecycle.NewLinkLifecycle` | tests/chainer_tests/links_tests/connection_tests/test_lstm.py:73-93 | from a new link, the state is set exactly when a call came after the last reset, and `c` and `h` agree |
| `Lifecycle.ShrinkingReplay` | chainer/links/connection/lstm.py:76-89 | over calls whose batches never exceed `bound <= len(h)`, every call is handled, `h` keeps its number of rows and its rows from `bound` on never change |
| `Lifecycle.ShrinkingStep` | chainer/links/connection/lstm.py:76-89 | one call with a batch of at most `bound <= len(h)` rows is handled, keeps the row count of `h` and its rows from `bound` on |
| `Lifecycle.ShrinkingBatchForward` | tests/chainer_tests/links_tests/connection_tests/test_lstm.py:36-55 | two calls with a shrinking batch on a new link give exactly the outputs the forward test expects: the first from zero `c` and `upward(x1)`, the second's head from the first `c` and the first output's head, its tail the first output's tail |

`Lstm.Gate` is the gate primitive (line 86) applied to `Lstm.CellBefore` and
`Lstm.GateInput`; it has no contract of its own and is described through
`Lstm.Call`'s.

## Left out

- Device transfer (`to_cpu`, `to_gpu`, lines 40-52) and the array module `xp`: they move state between memory spaces without changing values, which a value model cannot observe.
- The element type of the zero cell state (`dtype=x.data.dtype`) and the `volatile='auto'` flag: the zero element is a parameter, and autodiff flags are not modelled.
- Registration of the child layers, parameter storage, gradients and the random weight initialisation: the layers' affine maps are parameters.
- The numerics of `Linear`, of the gate-input addition and of `functions.lstm`: uninterpreted functions.
- Feature-width checks (`in_size`, `out_size` against the rows actually passed): the layers' widths are recorded but rows are not checked against them, since those checks happen inside the foreign primitives.
- The growing batch (`h` with fewer rows than the input): the source passes it to an addition of batches of different sizes, which fails. `Lstm.Call` requires `Lstm.Supported` instead, and `Lifecycle.Replay` yields `None` for a sequence that contains such a call.
- A failing call: the source stores the zero `c` (line 83) before running the gate primitive, so a failure in the primitive leaves `c` set. The model covers successful calls only.
- Lstm.FirstCallRowCount: relies on the stated `Lstm.OneOutputRowPerGateRow` assumption about the gate primitive, whose source is not part of this model.
- Lstm.SameBatchCall: relies on the stated `Lstm.OneOutputRowPerGateRow` assumption.
- Lstm.ShrinkingCall: relies on the stated `Lstm.OneOutputRowPerGateRow` assumption; nothing is stated about the rows of the new `c`.
- Lstm.LateralSeesOnlyHead: relies on the stated `Lstm.OneOutputRowPerGateRow` assumption.
- Lifecycle.ShrinkingReplay: relies on the stated `Lstm.OneOutputRowPerGateRow` assumption.
- Lifecycle.ShrinkingStep: relies on the stated `Lstm.OneOutputRowPerGateRow` assumption.
- Lifecycle.ShrinkingBatchForward: relies on the stated `Lstm.OneOutputRowPerGateRow` assumption.
- Determinism of repeated call sequences: it holds by construction, since every operation is a function.
