/** The link over a sequence of interactions: calls on batches and
    `reset_state`, in the order a caller issues them.

    The state machine: the state is set exactly when some call happened after
    the last reset (or, with no reset at all, when it was set to begin with);
    `c` and `h` are set or unset together. Under shrinking batches the output
    keeps its number of rows and the rows of sequences that have ended stay
    frozen at their last value.
 */
module Lifecycle {
  import opened Batches
  import opened Lstm

  /** One interaction with the link: a call on a batch, or `reset_state`. */
  datatype Event<!E> = Invoke(x: Batch<E>) | Reset

  /** The link after the events, applied in order; `None` when some call in the
      sequence grows the batch, which the source does not handle. */
  function Replay<E>(link: LstmLink<E>, backend: Backend<E>, events: seq<Event<E>>): (r: Option<LstmLink<E>>)
    ensures r.Some? ==> SameLayers(r.value, link)
    ensures |events| == 0 ==> r == Some(link)
    decreases |events|
  {
    if |events| == 0 then Some(link)
    else
      match Replay(link, backend, events[..|events| - 1])
      case None => None
      case Some(before) =>
        match events[|events| - 1]
        case Reset => Some(ResetState(before))
        case Invoke(x) => if Supported(before, x) then Some(Call(before, backend, x).link) else None
  }

  /** No `reset_state` among the events. */
  ghost predicate NoReset<E>(events: seq<Event<E>>) {
    forall j :: 0 <= j < |events| ==> events[j].Invoke?
  }

  /** Some call comes after the last `reset_state`. */
  ghost predicate CalledSinceReset<E>(events: seq<Event<E>>) {
    exists i :: 0 <= i < |events| && events[i].Invoke? && NoReset(events[i + 1..])
  }

  /** `c` and `h` are both set or both unset. */
  predicate Coupled<E>(link: LstmLink<E>) {
    link.c.Some? == link.h.Some?
  }

  /** A call came after the last reset exactly when the last event is a call. */
  lemma CalledSinceResetIsLastCall<E>(events: seq<Event<E>>)
    ensures CalledSinceReset(events) <==> |events| > 0 && events[|events| - 1].Invoke?
  {
    if |events| > 0 {
      var last := |events| - 1;
      if events[last].Invoke? {
        assert events[last + 1..] == [];
      } else {
        forall i | 0 <= i < |events| && events[i].Invoke?
          ensures !NoReset(events[i + 1..])
        {
          assert events[i + 1..][last - (i + 1)] == events[last];
        }
      }
    }
  }

  /** After any sequence of calls and resets, `h` (and likewise `c`) is set
      exactly when a call came after the last reset, or when it was set before
      and no reset happened. */
  lemma StateAfterReplay<E>(link: LstmLink<E>, backend: Backend<E>, events: seq<Event<E>>)
    requires Replay(link, backend, events).Some?
    ensures Replay(link, backend, events).value.h.Some? <==>
      CalledSinceReset(events) || (link.h.Some? && NoReset(events))
    ensures Replay(link, backend, events).value.c.Some? <==>
      CalledSinceReset(events) || (link.c.Some? && NoReset(events))
  {
    CalledSinceResetIsLastCall(events);
    if |events| > 0 {
      assert NoReset(events) ==> events[|events| - 1].Invoke?;
    }
  }

  /** The coupling of `c` and `h` is an invariant of every call and reset. */
  lemma ReplayKeepsCoupled<E>(link: LstmLink<E>, backend: Backend<E>, events: seq<Event<E>>)
    requires Coupled(link)
    requires Replay(link, backend, events).Some?
    ensures Coupled(Replay(link, backend, events).value)
  {
    StateAfterReplay(link, backend, events);
  }

  /** A newly constructed link has its state set after a sequence of events
      exactly when a call came after the last reset. */
  lemma NewLinkLifecycle<E>(inSize: nat, outSize: nat, upwardMap: Row<E> -> Row<E>,
                            lateralMap: Row<E> -> Row<E>, backend: Backend<E>, events: seq<Event<E>>)
    requires Replay(New(inSize, outSize, upwardMap, lateralMap), backend, events).Some?
    ensures var after := Replay(New(inSize, outSize, upwardMap, lateralMap), backend, events).value;
      && Coupled(after)
      && (after.h.Some? <==> CalledSinceReset(events))
      && after.stateSize == outSize
  {
    StateAfterReplay(New(inSize, outSize, upwardMap, lateralMap), backend, events);
  }

  /** Shrinking batches: when every call's batch has at most `bound` rows and
      `h` has at least `bound` rows, every call is handled, the output keeps the
      number of rows of `h`, and its rows from `bound` on (the outputs of
      sequences that have ended) stay as they were. */
  lemma {:induction false} ShrinkingReplay<E(!new)>(link: LstmLink<E>, backend: Backend<E>,
                                                     events: seq<Event<E>>, bound: nat)
    requires OneOutputRowPerGateRow(backend)
    requires link.h.Some? && bound <= |link.h.value|
    requires forall j :: 0 <= j < |events| ==> events[j].Invoke? && |events[j].x| <= bound
    ensures Replay(link, backend, events).Some?
    ensures Replay(link, backend, events).value.h.Some?
    ensures |Replay(link, backend, events).value.h.value| == |link.h.value|
    ensures Replay(link, backend, events).value.h.value[bound..] == link.h.value[bound..]
    decreases |events|
  {
    if |events| > 0 {
      var prefix := events[..|events| - 1];
      ShrinkingReplay(link, backend, prefix, bound);
      ShrinkingStep(Replay(link, backend, prefix).value, backend, events[|events| - 1].x, bound);
    }
  }

  /** One call of a shrinking run: a batch of at most `bound` rows is handled,
      and the stored output keeps its number of rows and its rows from `bound` on. */
  lemma ShrinkingStep<E(!new)>(before: LstmLink<E>, backend: Backend<E>, x: Batch<E>, bound: nat)
    requires OneOutputRowPerGateRow(backend)
    requires before.h.Some? && |x| <= bound <= |before.h.value|
    ensures Supported(before, x)
    ensures Call(before, backend, x).link.h.Some?
    ensures |Call(before, backend, x).link.h.value| == |before.h.value|
    ensures Call(before, backend, x).link.h.value[bound..] == before.h.value[bound..]
  {
    var after := Call(before, backend, x);
    assert |Gate(before, backend, x).1| == |x|;
    if |before.h.value| > |x| {
      assert after.y[|x|..] == before.h.value[|x|..];
      assert after.y[bound..] == after.y[|x|..][bound - |x|..];
      assert before.h.value[bound..] == before.h.value[|x|..][bound - |x|..];
    }
  }

  /** Two calls on a new (or reset) link with a shrinking batch: the first
      output is the gate's output on `|x1|` zero rows and `upward(x1)` alone;
      the second output keeps `|x1|` rows, its first `|x2|` rows are the gate's
      output on the first cell state and `upward(x2)` plus `lateral` of the
      first `|x2|` rows of the first output, and its other rows are the first
      output's, unchanged. */
  lemma ShrinkingBatchForward<E(!new)>(link: LstmLink<E>, backend: Backend<E>, x1: Batch<E>, x2: Batch<E>)
    requires link.c.None? && link.h.None?
    requires OneOutputRowPerGateRow(backend)
    requires |x2| < |x1|
    ensures Supported(Call(link, backend, x1).link, x2)
    ensures
      var c0 := Zeros(backend.zero, |x1|, link.stateSize);
      var (c1, h1) := backend.lstm(c0, Apply(link.upward, x1));
      var second := Call(Call(link, backend, x1).link, backend, x2).y;
      var lstmIn := AddRows(backend, Apply(link.upward, x2), Apply(link.lateral, h1[..|x2|]));
      && Call(link, backend, x1).y == h1
      && |second| == |x1|
      && second[..|x2|] == backend.lstm(c1, lstmIn).1
      && second[|x2|..] == h1[|x2|..]
  {
    FirstCall(link, backend, x1);
    FirstCallRowCount(link, backend, x1);
    ShrinkingCall(Call(link, backend, x1).link, backend, x2);
  }
}
