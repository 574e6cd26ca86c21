/**
 The two adapters `then` installs, followed from the timer that registers
 them on an already settled parent to the moment the call stack is empty
 again, in any world: what the then-promise ends up holding for each branch
 of the adapters.
 */
module Adapters {
  import opened Types
  import opened Promises

  /** The timer of `then` that registers `h` on parent `p`, ready to run. */
  ghost predicate Registering(w: World, p: PromiseId, h: Handler)
  {
    && w.stack == [] && w.queue != [] && w.queue[0] == Register(p, h)
    && p < |w.ps| && h.target < |w.ps| && w.ps[h.target].handlers == []
  }

  /** Four moves: the first is the timer, the rest empty the call stack. */
  lemma RunFour(w: World, env: Env)
    ensures Run(w, env, 4) == Step(Step(Step(Step(w, env), env), env), env)
  {
    var w1 := Step(w, env);
    var w2 := Step(w1, env);
    var w3 := Step(w2, env);
    assert Run(w, env, 4) == Run(w1, env, 3) == Run(w2, env, 2) == Run(w3, env, 1);
  }

  lemma RunFive(w: World, env: Env)
    ensures Run(w, env, 5) == Step(Step(Step(Step(Step(w, env), env), env), env), env)
  {
    RunFour(Step(w, env), env);
  }

  /** The last two moves after a fulfilment adapter: the target's empty walk
      ends, and the second test of `enqueueOrExecuteHandler` finds the parent
      not rejected and does nothing. */
  lemma WalkEndThenRecheck(w: World, env: Env, t: PromiseId, side: Side, p: PromiseId, h: Handler)
    requires w.stack == [Drain(t, [], side), Recheck(p, h)] && t < |w.ps| && w.ps[t].handlers == []
    requires p < |w.ps| && w.ps[p].status != Rejected
    ensures Step(Step(w, env), env) == w.(stack := [])
  {
    var w1 := Step(w, env);
    assert w.ps[t := Record(w.ps[t].status, w.ps[t].value, [])] == w.ps;
    assert w1 == w.(stack := [Recheck(p, h)]);
  }

  /** A rejection callback `f` on a rejected parent is called with the
      reason, and the then-promise is settled by its outcome: fulfilled with
      what it returns (recovery) or rejected with what it throws. */
  lemma RejectionCallbackSettlesTarget(w: World, env: Env, p: PromiseId, t: PromiseId, onF: Option<Callback>, f: nat)
    requires Registering(w, p, Handler(t, onF, Some(User(f)))) && w.ps[p].status == Rejected
    ensures var r := Run(w, env, 4);
            && r.stack == [] && r.queue == w.queue[1..]
            && r.ps == w.ps[t := SettledBy(env(f, w.ps[p].value))]
            && r.alls == w.alls && r.races == w.races
  {
    var h := Handler(t, onF, Some(User(f)));
    var e := w.ps[p].value;
    var w1 := Step(w, env);
    assert w1.stack == [Fire(h, Reject, e)] && w1.ps == w.ps;
    var w2 := Step(w1, env);
    assert w2.stack == [Conclude(t, env(f, e))] && w2.ps == w.ps;
    var w3 := Step(w2, env);
    assert w3.stack == [Drain(t, [], w2.stack[0].side)] && w3.ps == w.ps[t := SettledBy(env(f, e))];
    RunFour(w, env);
  }

  /** With no rejection callback the reason is forwarded: the then-promise
      is rejected with the parent's reason. */
  lemma MissingRejectionCallbackForwards(w: World, env: Env, p: PromiseId, t: PromiseId, onF: Option<Callback>)
    requires Registering(w, p, Handler(t, onF, None)) && w.ps[p].status == Rejected
    ensures var r := Run(w, env, 4);
            && r.stack == [] && r.queue == w.queue[1..]
            && r.ps == w.ps[t := Record(Rejected, w.ps[p].value, [])]
            && r.alls == w.alls && r.races == w.races
  {
    var h := Handler(t, onF, None);
    var e := w.ps[p].value;
    var w1 := Step(w, env);
    assert w1.stack == [Fire(h, Reject, e)] && w1.ps == w.ps;
    var w2 := Step(w1, env);
    assert w2.stack == [Settle(t, Reject, e)] && w2.ps == w.ps;
    var w3 := Step(w2, env);
    assert w3.stack == [Drain(t, [], Reject)] && w3.ps == w.ps[t := Record(Rejected, e, [])];
    RunFour(w, env);
  }

  /** A fulfilment callback `f` on a parent fulfilled with a plain value is
      called with it, and the then-promise is settled by its outcome; the
      second test of `enqueueOrExecuteHandler` then finds the parent still
      fulfilled and does nothing. */
  lemma FulfilmentCallbackSettlesTarget(w: World, env: Env, p: PromiseId, t: PromiseId, f: nat, onR: Option<Callback>)
    requires Registering(w, p, Handler(t, Some(User(f)), onR)) && t != p
    requires w.ps[p].status == Fulfilled && !w.ps[p].value.Ref?
    ensures var r := Run(w, env, 5);
            && r.stack == [] && r.queue == w.queue[1..]
            && r.ps == w.ps[t := SettledBy(env(f, w.ps[p].value))]
            && r.alls == w.alls && r.races == w.races
  {
    var h := Handler(t, Some(User(f)), onR);
    var x := w.ps[p].value;
    var w1 := Step(w, env);
    assert w1.stack == [Fire(h, Fulfil, x), Recheck(p, h)] && w1.ps == w.ps;
    var w2 := Step(w1, env);
    assert w2.stack == [Conclude(t, env(f, x)), Recheck(p, h)] && w2.ps == w.ps;
    var w3 := Step(w2, env);
    assert w3.stack == [Drain(t, [], w2.stack[0].side), Recheck(p, h)] && w3.ps == w.ps[t := SettledBy(env(f, x))];
    WalkEndThenRecheck(w3, env, t, w3.stack[0].side, p, h);
    RunFive(w, env);
  }

  /** With no fulfilment callback a plain value is forwarded: the
      then-promise is fulfilled with the parent's value. */
  lemma MissingFulfilmentCallbackForwards(w: World, env: Env, p: PromiseId, t: PromiseId, onR: Option<Callback>)
    requires Registering(w, p, Handler(t, None, onR))
    requires w.ps[p].status == Fulfilled && !w.ps[p].value.Ref?
    ensures var r := Run(w, env, 5);
            && r.stack == [] && r.queue == w.queue[1..]
            && r.ps == w.ps[t := Record(Fulfilled, w.ps[p].value, [])]
            && r.alls == w.alls && r.races == w.races
  {
    var h := Handler(t, None, onR);
    var x := w.ps[p].value;
    var w1 := Step(w, env);
    assert w1.stack == [Fire(h, Fulfil, x), Recheck(p, h)] && w1.ps == w.ps;
    var w2 := Step(w1, env);
    assert w2.stack == [Settle(t, Fulfil, x), Recheck(p, h)] && w2.ps == w.ps;
    var w3 := Step(w2, env);
    assert w3.stack == [Drain(t, [], Fulfil), Recheck(p, h)] && w3.ps == w.ps[t := Record(Fulfilled, x, [])];
    WalkEndThenRecheck(w3, env, t, w3.stack[0].side, p, h);
    RunFive(w, env);
  }

  /** A parent fulfilled with a promise `q` is unwrapped one level: the
      adapter calls `q.then` with the same two callbacks, which makes a fresh
      promise and a timer, and fulfils the then-promise with that fresh
      promise, not with `q`'s value. Neither callback is called yet. */
  lemma PromiseValueUnwrappedOnce(w: World, env: Env, p: PromiseId, t: PromiseId, onF: Option<Callback>, onR: Option<Callback>)
    requires Registering(w, p, Handler(t, onF, onR))
    requires w.ps[p].status == Fulfilled && w.ps[p].value.Ref?
    ensures var r := Run(w, env, 5);
            var q := w.ps[p].value.id;
            && r.stack == []
            && r.queue == w.queue[1..] + [Register(q, Handler(|w.ps|, onF, onR))]
            && r.ps == w.ps[t := Record(Fulfilled, Ref(|w.ps|), [])] + [Fresh]
            && r.alls == w.alls && r.races == w.races
  {
    var h := Handler(t, onF, onR);
    var x := w.ps[p].value;
    var w1 := Step(w, env);
    assert w1.stack == [Fire(h, Fulfil, x), Recheck(p, h)] && w1.ps == w.ps;
    var w2 := Step(w1, env);
    assert w2.stack == [Settle(t, Fulfil, Ref(|w.ps|)), Recheck(p, h)] && w2.ps == w.ps + [Fresh];
    var w3 := Step(w2, env);
    assert w3.stack == [Drain(t, [], Fulfil), Recheck(p, h)]
        && w3.ps == (w.ps + [Fresh])[t := Record(Fulfilled, Ref(|w.ps|), [])];
    assert (w.ps + [Fresh])[t := Record(Fulfilled, Ref(|w.ps|), [])] == w.ps[t := Record(Fulfilled, Ref(|w.ps|), [])] + [Fresh];
    WalkEndThenRecheck(w3, env, t, w3.stack[0].side, p, h);
    RunFive(w, env);
  }
}
