/**
 The closures `all` and `race` build inside their executors, as pure
 transitions over the aggregator state they share: the `settled` flag, and
 for `all` the fulfilment count and the positional result array.
 */
module Aggregators {
  import opened Types

  /** What a closure asks of the combined promise: nothing, or one call of
      its `resolve` / `reject` capability. */
  datatype Effect = NoEffect | SettleResult(side: Side, v: Value)

  function NoEffects(n: nat): (r: seq<Effect>)
    ensures |r| == n && forall k :: 0 <= k < n ==> r[k] == NoEffect
  {
    seq(n, _ => NoEffect)
  }

  // ---------------------------------------------------------------- all

  /** The variables of one `all` executor: the combined promise, `settled`,
      `count`, and `values` (whose length is the input length `l`). */
  datatype AllState = AllState(result: PromiseId, settled: bool, count: nat, slots: seq<Value>)

  /** The state right after the executor set it up for `l` inputs. */
  function FreshAll(result: PromiseId, l: nat): (s: AllState)
    ensures s.result == result && !s.settled && s.count == 0 && |s.slots| == l
  {
    AllState(result, false, 0, seq(l, _ => Undef))
  }

  /** The per-index fulfilment closure: count the arrival, store it in its
      slot, and resolve once the count reaches the input length. */
  function AllOnFulfilled(s: AllState, i: nat, v: Value): (r: (AllState, Effect))
    ensures r.0.result == s.result && |r.0.slots| == |s.slots|
    ensures s.settled ==> r == (s, NoEffect)
    ensures r.1 != NoEffect <==> !s.settled && s.count + 1 >= |s.slots|
    ensures r.1 != NoEffect ==> r.0.settled && r.1 == SettleResult(Fulfil, Arr(r.0.slots))
  {
    if s.settled then (s, NoEffect)
    else
      var slots := if i < |s.slots| then s.slots[i := v] else s.slots;
      var count := s.count + 1;
      if count >= |s.slots| then (AllState(s.result, true, count, slots), SettleResult(Fulfil, Arr(slots)))
      else (AllState(s.result, false, count, slots), NoEffect)
  }

  /** The shared rejection closure: the first call rejects, later calls do nothing. */
  function AllOnRejected(s: AllState, e: Value): (r: (AllState, Effect))
    ensures r.0.result == s.result && r.0.settled
    ensures s.settled ==> r == (s, NoEffect)
    ensures !s.settled ==> r.1 == SettleResult(Reject, e) && r.0.slots == s.slots
  {
    if s.settled then (s, NoEffect)
    else (s.(settled := true), SettleResult(Reject, e))
  }

  /** One call of an `all` closure: input `index` fulfilled, or some input rejected. */
  datatype AllEvent = Slot(index: nat, v: Value) | Fail(reason: Value)

  function AllOn(s: AllState, ev: AllEvent): (AllState, Effect)
  {
    match ev
    case Slot(i, v) => AllOnFulfilled(s, i, v)
    case Fail(e) => AllOnRejected(s, e)
  }

  /** The closures called in the order of `evs`; one effect per call. */
  function AllRun(s: AllState, evs: seq<AllEvent>): (r: (AllState, seq<Effect>))
    ensures |r.1| == |evs|
    decreases |evs|
  {
    if evs == [] then (s, [])
    else
      var prev := AllRun(s, evs[..|evs| - 1]);
      var next := AllOn(prev.0, evs[|evs| - 1]);
      (next.0, prev.1 + [next.1])
  }

  /** Every event fulfils some input slot, the slots lie below `l` and no two coincide. */
  ghost predicate DistinctSlots(evs: seq<AllEvent>, l: nat)
  {
    && (forall k :: 0 <= k < |evs| ==> evs[k].Slot? && evs[k].index < l)
    && (forall j, k :: 0 <= j < k < |evs| ==> evs[j].index != evs[k].index)
  }

  lemma {:induction false} AllRunAppend(s: AllState, a: seq<AllEvent>, b: seq<AllEvent>)
    ensures var first := AllRun(s, a);
            var second := AllRun(first.0, b);
            AllRun(s, a + b) == (second.0, first.1 + second.1)
    decreases |b|
  {
    if b == [] {
      assert a + b == a;
      var first := AllRun(s, a);
      assert AllRun(first.0, b) == (first.0, []);
      assert first.1 + [] == first.1;
    } else {
      var b' := b[..|b| - 1];
      assert (a + b)[..|a + b| - 1] == a + b';
      assert (a + b)[|a + b| - 1] == b[|b| - 1];
      AllRunAppend(s, a, b');
      var first := AllRun(s, a);
      var second' := AllRun(first.0, b');
      var last := AllOn(second'.0, b[|b| - 1]);
      assert AllRun(first.0, b) == (last.0, second'.1 + [last.1]);
      assert AllRun(s, a + b) == (last.0, (first.1 + second'.1) + [last.1]);
      assert (first.1 + second'.1) + [last.1] == first.1 + (second'.1 + [last.1]);
    }
  }

  /** Once `settled` is set, every later closure call is a no-op. */
  lemma {:induction false} AllSettledIsInert(s: AllState, evs: seq<AllEvent>)
    requires s.settled
    ensures AllRun(s, evs) == (s, NoEffects(|evs|))
    decreases |evs|
  {
    if evs != [] {
      AllSettledIsInert(s, evs[..|evs| - 1]);
      assert NoEffects(|evs| - 1) + [NoEffect] == NoEffects(|evs|);
    }
  }

  /** Fewer than `l` distinct fulfilments: nothing is settled, the count is the
      number of arrivals and each arrival sits in its own slot. */
  lemma {:induction false} AllFillsSlots(result: PromiseId, l: nat, evs: seq<AllEvent>)
    requires |evs| < l && DistinctSlots(evs, l)
    ensures var r := AllRun(FreshAll(result, l), evs);
            && r.0 == AllState(result, false, |evs|, r.0.slots)
            && |r.0.slots| == l
            && (forall k :: 0 <= k < |evs| ==> r.0.slots[evs[k].index] == evs[k].v)
            && r.1 == NoEffects(|evs|)
    decreases |evs|
  {
    if evs != [] {
      var pre := evs[..|evs| - 1];
      AllFillsSlots(result, l, pre);
    }
  }

  /** `all` fulfils exactly when the last of its `l` inputs fulfils, with an
      array whose slot i holds input i's value, whatever the arrival order. */
  lemma AllFulfilsPositionally(result: PromiseId, l: nat, evs: seq<AllEvent>)
    requires 0 < l && |evs| == l && DistinctSlots(evs, l)
    ensures var r := AllRun(FreshAll(result, l), evs);
            && r.0.settled
            && r.1[..l - 1] == NoEffects(l - 1)
            && r.1[l - 1].SettleResult? && r.1[l - 1].side == Fulfil
            && r.1[l - 1].v == Arr(r.0.slots) && |r.0.slots| == l
            && forall k :: 0 <= k < l ==> r.0.slots[evs[k].index] == evs[k].v
  {
    var pre := evs[..l - 1];
    AllFillsSlots(result, l, pre);
  }

  /** The first rejection before the count completes rejects the combined
      promise with its reason; every later call has no effect. */
  lemma AllRejectsOnFirstFailure(result: PromiseId, l: nat, pre: seq<AllEvent>, e: Value, post: seq<AllEvent>)
    requires |pre| < l && DistinctSlots(pre, l)
    ensures AllRun(FreshAll(result, l), pre + [Fail(e)] + post).1
            == NoEffects(|pre|) + [SettleResult(Reject, e)] + NoEffects(|post|)
  {
    AllFillsSlots(result, l, pre);
    var s0 := FreshAll(result, l);
    var mid := AllRun(s0, pre + [Fail(e)]);
    assert (pre + [Fail(e)])[..|pre|] == pre;
    assert mid.0.settled;
    AllRunAppend(s0, pre + [Fail(e)], post);
    AllSettledIsInert(mid.0, post);
  }

  /** Whatever the calls, the combined promise is settled at most once, and a
      state that settled it stays settled. */
  lemma {:induction false} AllSettlesAtMostOnce(s: AllState, evs: seq<AllEvent>)
    ensures var r := AllRun(s, evs);
            && (s.settled ==> r.0.settled)
            && (forall k :: 0 <= k < |evs| && r.1[k] != NoEffect ==> r.0.settled)
            && (forall j, k :: 0 <= j < k < |evs| && r.1[j] != NoEffect ==> r.1[k] == NoEffect)
    decreases |evs|
  {
    if evs != [] {
      var pre := evs[..|evs| - 1];
      AllSettlesAtMostOnce(s, pre);
      var prev := AllRun(s, pre);
      var next := AllOn(prev.0, evs[|evs| - 1]);
      var r := AllRun(s, evs);
      assert r == (next.0, prev.1 + [next.1]);
      assert prev.0.settled ==> next == (prev.0, NoEffect);
      assert next.1 != NoEffect ==> next.0.settled;
      assert forall k :: 0 <= k < |pre| && AllRun(s, pre).1[k] != NoEffect ==> AllRun(s, pre).0.settled;
      forall k | 0 <= k < |evs| && r.1[k] != NoEffect
        ensures r.0.settled
      {
        if k < |pre| {
          assert prev.1[k] == r.1[k];
        }
      }
      forall j, k | 0 <= j < k < |evs| && r.1[j] != NoEffect
        ensures r.1[k] == NoEffect
      {
        assert prev.1[j] == r.1[j];
        assert prev.0.settled;
        if k < |pre| {
          assert prev.1[k] == r.1[k];
        }
      }
    }
  }

  // ---------------------------------------------------------------- race

  /** The variables of one `race` executor: the combined promise and `settled`. */
  datatype RaceState = RaceState(result: PromiseId, settled: bool)

  /** One call of a `race` closure: some input fulfilled or rejected with `v`. */
  datatype Arrival = Arrival(side: Side, v: Value)

  /** `onSettled`: the first call passes its value to `resolve` or `reject`,
      later calls return at once. */
  function RaceOn(s: RaceState, ev: Arrival): (r: (RaceState, Effect))
    ensures r.0.result == s.result && r.0.settled
    ensures s.settled ==> r == (s, NoEffect)
    ensures !s.settled ==> r.1 == SettleResult(ev.side, ev.v)
  {
    if s.settled then (s, NoEffect)
    else (s.(settled := true), SettleResult(ev.side, ev.v))
  }

  function RaceRun(s: RaceState, evs: seq<Arrival>): (r: (RaceState, seq<Effect>))
    ensures |r.1| == |evs|
    decreases |evs|
  {
    if evs == [] then (s, [])
    else
      var prev := RaceRun(s, evs[..|evs| - 1]);
      var next := RaceOn(prev.0, evs[|evs| - 1]);
      (next.0, prev.1 + [next.1])
  }

  /** The first closure call settles the combined promise with its side and
      value; every later call has no effect. */
  lemma {:induction false} RaceFirstWins(result: PromiseId, evs: seq<Arrival>)
    requires evs != []
    ensures var r := RaceRun(RaceState(result, false), evs);
            && r.0 == RaceState(result, true)
            && r.1 == [SettleResult(evs[0].side, evs[0].v)] + NoEffects(|evs| - 1)
    decreases |evs|
  {
    if |evs| > 1 {
      var pre := evs[..|evs| - 1];
      RaceFirstWins(result, pre);
      assert pre[0] == evs[0];
    }
  }
}
