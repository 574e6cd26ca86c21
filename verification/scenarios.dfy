/**
 Behaviour of whole programs, traced move by move through the world: the
 executor's capabilities, the settle routines, the adapters of `then` and
 `catch`, and the combinators over concrete inputs.
 */
module Scenarios {
  import opened Types
  import opened Aggregators
  import opened Promises
  import opened Walks

  // ------------------------------------------------------- the executor

  lemma {:induction false} ExecutedStopsAtThrow(pre: seq<ExecStep>, e: Value, post: seq<ExecStep>)
    requires forall k :: 0 <= k < |pre| ==> !pre[k].Raise?
    ensures Executed(pre + [Raise(e)] + post) == pre + [Raise(e)]
    decreases |pre|
  {
    if pre != [] {
      ExecutedStopsAtThrow(pre[1..], e, post);
      assert (pre + [Raise(e)] + post)[1..] == pre[1..] + [Raise(e)] + post;
    } else {
      assert pre + [Raise(e)] + post == [Raise(e)] + post;
    }
  }

  /** An executor that throws leaves the promise rejected with the thrown
      value, whatever it resolved or rejected before and whatever follows. */
  lemma ExecutorThrowRejects(pre: seq<ExecStep>, e: Value, post: seq<ExecStep>)
    requires forall k :: 0 <= k < |pre| ==> !pre[k].Raise?
    ensures RunExecutor(Fresh, pre + [Raise(e)] + post) == Record(Rejected, e, [])
  {
    ExecutedStopsAtThrow(pre, e, post);
  }

  /** With no guard, resolving and then throwing ends rejected (the reverse of
      "first settlement wins"). */
  lemma ResolveThenThrowIsRejected(v: Value, e: Value)
    ensures NewPromise(Empty, [CallResolve(v), Raise(e)]).w.ps[0] == Record(Rejected, e, [])
  {
    ExecutorThrowRejects([CallResolve(v)], e, []);
  }

  // ------------------------------------------------------- settle routines

  /** `fulfill(v)` / `reject(v)` on `p`: status and value are written, then
      the first handler queued at that moment is called with the value,
      before the rest of the list. */
  lemma SettleCallsFirstHandler(w: World, env: Env, p: PromiseId, side: Side, v: Value)
    requires w.stack != [] && w.stack[0] == Settle(p, side, v)
    requires p < |w.ps| && w.ps[p].handlers != []
    ensures var hs := w.ps[p].handlers;
            var r := Step(Step(w, env), env);
            && r.ps[p] == Record(StatusOf(side), v, hs)
            && r.stack == [Fire(hs[0], side, v), Drain(p, hs[1..], side)] + w.stack[1..]
  {
    var hs := w.ps[p].handlers;
    var w1 := Step(w, env);
    assert w1.stack == [Drain(p, hs, side)] + w.stack[1..];
  }

  /** When the list has been walked, it is emptied; status and value stay. */
  lemma DrainEndEmptiesList(w: World, env: Env, p: PromiseId, side: Side)
    requires w.stack != [] && w.stack[0] == Drain(p, [], side) && p < |w.ps|
    ensures var r := Step(w, env);
            && r.ps == w.ps[p := Record(w.ps[p].status, w.ps[p].value, [])]
            && r.stack == w.stack[1..]
  {
  }

  /** No guard on individual promises: a later `reject` of a fulfilled promise
      overwrites its status and value. */
  lemma LaterRejectOverwrites(w: World, env: Env, p: PromiseId, e: Value)
    requires w.stack == [] && p < |w.ps| && w.ps[p].status == Fulfilled && w.ps[p].handlers == []
    ensures var r := Step(Step(Deliver(w, p, Reject, e), env), env);
            r.ps[p] == Record(Rejected, e, []) && r.stack == []
  {
  }

  /** A handler registered while its parent is pending joins the end of the
      list; the later settle call writes its side and value and then calls
      every handler queued before it and finally this one, each once, in that
      order. */
  lemma PendingRegistrationFiresOnSettle(w: World, env: Env, p: PromiseId, h: Handler, side: Side, v: Value, n: nat)
    requires w.stack == [] && w.queue != [] && w.queue[0] == Register(p, h)
    requires p < |w.ps| && w.ps[p].status == Pending
    ensures var hs := w.ps[p].handlers + [h];
            var w1 := Step(w, env);
            && w1.ps == w.ps[p := Record(Pending, w.ps[p].value, hs)]
            && w1.stack == [] && w1.queue == w.queue[1..]
            && var w2 := Step(Deliver(w1, p, side, v), env);
               && w2.ps == w1.ps[p := Record(StatusOf(side), v, hs)]
               && var log := WalkLog(Mover(env), w2, n, []);
                  var r := RunWithin(Mover(env), w2, n, []);
                  && |log| <= |hs| && log == hs[..|log|]
                  && (r.stack == [] ==> log == hs && p < |r.ps| && r.ps[p].handlers == [])
  {
    var w1 := Step(w, env);
    assert w1.ps[p] == Record(Pending, w.ps[p].value, w.ps[p].handlers + [h]);
    var d := Deliver(w1, p, side, v);
    assert d.stack[1..] == [];
    SettleCallsEveryHandler(d, env, p, side, v, n);
  }

  /** A handler registered after its parent settled is called at once with
      the parent's outcome; a fulfilled parent is checked again afterwards. */
  lemma SettledRegistrationFiresAtOnce(w: World, env: Env, p: PromiseId, h: Handler)
    requires w.stack == [] && w.queue != [] && w.queue[0] == Register(p, h)
    requires p < |w.ps| && w.ps[p].status != Pending
    ensures var r := Step(w, env);
            && r.ps == w.ps && r.queue == w.queue[1..]
            && (w.ps[p].status == Fulfilled ==> r.stack == [Fire(h, Fulfil, w.ps[p].value), Recheck(p, h)])
            && (w.ps[p].status == Rejected ==> r.stack == [Fire(h, Reject, w.ps[p].value)])
  {
  }

  // ------------------------------------------------------- runs

  /** The side of the settle call an outcome leads to. */
  function SideOf(o: Outcome): Side
  {
    if o.Ok? then Fulfil else Reject
  }

  /** Nothing left to do: no frame on the call stack, no timer pending. */
  predicate Idle(w: World)
  {
    w.stack == [] && w.queue == []
  }

  /** An idle world stays as it is, however many moves are taken. */
  lemma {:induction false} IdleStays(w: World, env: Env, n: nat)
    requires Idle(w)
    ensures Run(w, env, n) == w
    decreases n
  {
    if n > 0 {
      IdleStays(w, env, n - 1);
    }
  }

  /** A run given as the worlds it passes through, ending idle: any run at
      least that long ends in the last world. */
  lemma {:induction false} SettlesInto(ws: seq<World>, env: Env, n: nat)
    requires ws != [] && Idle(ws[|ws| - 1]) && n >= |ws| - 1
    requires forall k :: 0 <= k < |ws| - 1 ==> Step(ws[k], env) == ws[k + 1]
    ensures Run(ws[0], env, n) == ws[|ws| - 1]
    decreases |ws|
  {
    if |ws| == 1 {
      IdleStays(ws[0], env, n);
    } else {
      SettlesInto(ws[1..], env, n - 1);
      assert Run(ws[0], env, n) == Run(ws[1], env, n - 1);
    }
  }

  // ------------------------------------------------------- then / catch

  /** The worlds `Promise.reject(e).catch(f).then(g)` passes through. */
  function RecoveryWorlds(env: Env, e: Value, f: nat, g: nat, v: Value): (ws: seq<World>)
    ensures |ws| == 10
  {
    var h1 := Handler(1, None, Some(User(f)));
    var h2 := Handler(2, Some(User(g)), None);
    var o := env(g, v);
    var pe := Record(Rejected, e, []);
    var pv := Record(Fulfilled, v, []);
    [ World([pe, Fresh, Fresh], [Register(0, h1), Register(1, h2)], [], [], []),
      World([pe, Fresh, Fresh], [Register(1, h2)], [Fire(h1, Reject, e)], [], []),
      World([pe, Fresh, Fresh], [Register(1, h2)], [Settle(1, Fulfil, v)], [], []),
      World([pe, pv, Fresh], [Register(1, h2)], [Drain(1, [], Fulfil)], [], []),
      World([pe, pv, Fresh], [Register(1, h2)], [], [], []),
      World([pe, pv, Fresh], [], [Fire(h2, Fulfil, v), Recheck(1, h2)], [], []),
      World([pe, pv, Fresh], [], [Conclude(2, o), Recheck(1, h2)], [], []),
      World([pe, pv, SettledBy(o)], [], [Drain(2, [], SideOf(o)), Recheck(1, h2)], [], []),
      World([pe, pv, SettledBy(o)], [], [Recheck(1, h2)], [], []),
      World([pe, pv, SettledBy(o)], [], [], [], []) ]
  }

  /** Every move of the trace, one lemma per move. */
  lemma RecoveryMoves(env: Env, e: Value, f: nat, g: nat, v: Value, k: nat)
    requires env(f, e) == Ok(v) && !v.Ref? && k < 9
    ensures var ws := RecoveryWorlds(env, e, f, g, v); Step(ws[k], env) == ws[k + 1]
  {
    if k == 0 {
      RecoveryMoves0(env, e, f, g, v, k);
    } else if k == 1 {
      RecoveryMoves1(env, e, f, g, v, k);
    } else if k == 2 {
      RecoveryMoves2(env, e, f, g, v, k);
    } else if k == 3 {
      RecoveryMoves3(env, e, f, g, v, k);
    } else if k == 4 {
      RecoveryMoves4(env, e, f, g, v, k);
    } else if k == 5 {
      RecoveryMoves5(env, e, f, g, v, k);
    } else if k == 6 {
      RecoveryMoves6(env, e, f, g, v, k);
    } else if k == 7 {
      RecoveryMoves7(env, e, f, g, v, k);
    } else {
      RecoveryMoves8(env, e, f, g, v, k);
    }
  }

  lemma RecoveryMoves0(env: Env, e: Value, f: nat, g: nat, v: Value, k: nat)
    requires env(f, e) == Ok(v) && !v.Ref? && k == 0
    ensures var ws := RecoveryWorlds(env, e, f, g, v); Step(ws[k], env) == ws[k + 1]
  {
    var ws := RecoveryWorlds(env, e, f, g, v);
  }

  lemma RecoveryMoves1(env: Env, e: Value, f: nat, g: nat, v: Value, k: nat)
    requires env(f, e) == Ok(v) && !v.Ref? && k == 1
    ensures var ws := RecoveryWorlds(env, e, f, g, v); Step(ws[k], env) == ws[k + 1]
  {
    var ws := RecoveryWorlds(env, e, f, g, v);
    assert ws[1].stack[1..] == [];
  }

  lemma RecoveryMoves2(env: Env, e: Value, f: nat, g: nat, v: Value, k: nat)
    requires env(f, e) == Ok(v) && !v.Ref? && k == 2
    ensures var ws := RecoveryWorlds(env, e, f, g, v); Step(ws[k], env) == ws[k + 1]
  {
    var ws := RecoveryWorlds(env, e, f, g, v);
    assert ws[2].stack[1..] == [];
  }

  lemma RecoveryMoves3(env: Env, e: Value, f: nat, g: nat, v: Value, k: nat)
    requires env(f, e) == Ok(v) && !v.Ref? && k == 3
    ensures var ws := RecoveryWorlds(env, e, f, g, v); Step(ws[k], env) == ws[k + 1]
  {
    var ws := RecoveryWorlds(env, e, f, g, v);
    assert ws[3].stack[1..] == [];
  }

  lemma RecoveryMoves4(env: Env, e: Value, f: nat, g: nat, v: Value, k: nat)
    requires env(f, e) == Ok(v) && !v.Ref? && k == 4
    ensures var ws := RecoveryWorlds(env, e, f, g, v); Step(ws[k], env) == ws[k + 1]
  {
    var ws := RecoveryWorlds(env, e, f, g, v);
  }

  lemma RecoveryMoves5(env: Env, e: Value, f: nat, g: nat, v: Value, k: nat)
    requires env(f, e) == Ok(v) && !v.Ref? && k == 5
    ensures var ws := RecoveryWorlds(env, e, f, g, v); Step(ws[k], env) == ws[k + 1]
  {
    var ws := RecoveryWorlds(env, e, f, g, v);
    var h2 := Handler(2, Some(User(g)), None);
    assert ws[5].stack[1..] == [Recheck(1, h2)];
  }

  lemma RecoveryMoves6(env: Env, e: Value, f: nat, g: nat, v: Value, k: nat)
    requires env(f, e) == Ok(v) && !v.Ref? && k == 6
    ensures var ws := RecoveryWorlds(env, e, f, g, v); Step(ws[k], env) == ws[k + 1]
  {
    var ws := RecoveryWorlds(env, e, f, g, v);
    var h2 := Handler(2, Some(User(g)), None);
    assert ws[6].stack[1..] == [Recheck(1, h2)];
  }

  lemma RecoveryMoves7(env: Env, e: Value, f: nat, g: nat, v: Value, k: nat)
    requires env(f, e) == Ok(v) && !v.Ref? && k == 7
    ensures var ws := RecoveryWorlds(env, e, f, g, v); Step(ws[k], env) == ws[k + 1]
  {
    var ws := RecoveryWorlds(env, e, f, g, v);
    var h2 := Handler(2, Some(User(g)), None);
    assert ws[7].stack[1..] == [Recheck(1, h2)];
  }

  lemma RecoveryMoves8(env: Env, e: Value, f: nat, g: nat, v: Value, k: nat)
    requires env(f, e) == Ok(v) && !v.Ref? && k == 8
    ensures var ws := RecoveryWorlds(env, e, f, g, v); Step(ws[k], env) == ws[k + 1]
  {
    var ws := RecoveryWorlds(env, e, f, g, v);
    assert ws[8].stack[1..] == [];
  }

  lemma RecoveryStart(env: Env, e: Value, f: nat, g: nat, v: Value)
    ensures var p := PromiseReject(Empty, e);
            var c := Catch(p.w, p.id, User(f));
            var t := Then(c.w, c.id, Some(User(g)), None);
            c.id == 1 && t.id == 2 && t.w == RecoveryWorlds(env, e, f, g, v)[0]
  {
  }

  /** `Promise.reject(e).catch(f).then(g)` with `f` returning `v`: the catch
      promise is fulfilled with `v` (recovery) and `g` is called with `v`;
      after nine moves nothing is left to do. */
  lemma RecoveryLaw(env: Env, e: Value, f: nat, g: nat, v: Value, n: nat)
    requires env(f, e) == Ok(v) && !v.Ref? && n >= 9
    ensures var p := PromiseReject(Empty, e);
            var c := Catch(p.w, p.id, User(f));
            var t := Then(c.w, c.id, Some(User(g)), None);
            var r := Run(t.w, env, n);
            && |r.ps| == 3
            && r.ps[c.id] == Record(Fulfilled, v, [])
            && r.ps[t.id] == SettledBy(env(g, v))
            && Idle(r)
  {
    RecoveryStart(env, e, f, g, v);
    var ws := RecoveryWorlds(env, e, f, g, v);
    forall k | 0 <= k < |ws| - 1
      ensures Step(ws[k], env) == ws[k + 1]
    {
      RecoveryMoves(env, e, f, g, v, k);
    }
    SettlesInto(ws, env, n);
  }

  /** The worlds `new Promise(() => { throw e }).then(f).catch(g)` passes through. */
  function ThrowWorlds(env: Env, e: Value, f: nat, g: nat): (ws: seq<World>)
    ensures |ws| == 9
  {
    var h1 := Handler(1, Some(User(f)), None);
    var h2 := Handler(2, None, Some(User(g)));
    var o := env(g, e);
    var pe := Record(Rejected, e, []);
    [ World([pe, Fresh, Fresh], [Register(0, h1), Register(1, h2)], [], [], []),
      World([pe, Fresh, Fresh], [Register(1, h2)], [Fire(h1, Reject, e)], [], []),
      World([pe, Fresh, Fresh], [Register(1, h2)], [Settle(1, Reject, e)], [], []),
      World([pe, pe, Fresh], [Register(1, h2)], [Drain(1, [], Reject)], [], []),
      World([pe, pe, Fresh], [Register(1, h2)], [], [], []),
      World([pe, pe, Fresh], [], [Fire(h2, Reject, e)], [], []),
      World([pe, pe, Fresh], [], [Conclude(2, o)], [], []),
      World([pe, pe, SettledBy(o)], [], [Drain(2, [], SideOf(o))], [], []),
      World([pe, pe, SettledBy(o)], [], [], [], []) ]
  }

  /** Every move of the trace, one lemma per move. */
  lemma ThrowMoves(env: Env, e: Value, f: nat, g: nat, k: nat)
    requires k < 8
    ensures var ws := ThrowWorlds(env, e, f, g); Step(ws[k], env) == ws[k + 1]
  {
    if k == 0 {
      ThrowMoves0(env, e, f, g, k);
    } else if k == 1 {
      ThrowMoves1(env, e, f, g, k);
    } else if k == 2 {
      ThrowMoves2(env, e, f, g, k);
    } else if k == 3 {
      ThrowMoves3(env, e, f, g, k);
    } else if k == 4 {
      ThrowMoves4(env, e, f, g, k);
    } else if k == 5 {
      ThrowMoves5(env, e, f, g, k);
    } else if k == 6 {
      ThrowMoves6(env, e, f, g, k);
    } else {
      ThrowMoves7(env, e, f, g, k);
    }
  }

  lemma ThrowMoves0(env: Env, e: Value, f: nat, g: nat, k: nat)
    requires k == 0
    ensures var ws := ThrowWorlds(env, e, f, g); Step(ws[k], env) == ws[k + 1]
  {
    var ws := ThrowWorlds(env, e, f, g);
  }

  lemma ThrowMoves1(env: Env, e: Value, f: nat, g: nat, k: nat)
    requires k == 1
    ensures var ws := ThrowWorlds(env, e, f, g); Step(ws[k], env) == ws[k + 1]
  {
    var ws := ThrowWorlds(env, e, f, g);
    assert ws[1].stack[1..] == [];
  }

  lemma ThrowMoves2(env: Env, e: Value, f: nat, g: nat, k: nat)
    requires k == 2
    ensures var ws := ThrowWorlds(env, e, f, g); Step(ws[k], env) == ws[k + 1]
  {
    var ws := ThrowWorlds(env, e, f, g);
    assert ws[2].stack[1..] == [];
  }

  lemma ThrowMoves3(env: Env, e: Value, f: nat, g: nat, k: nat)
    requires k == 3
    ensures var ws := ThrowWorlds(env, e, f, g); Step(ws[k], env) == ws[k + 1]
  {
    var ws := ThrowWorlds(env, e, f, g);
    assert ws[3].stack[1..] == [];
  }

  lemma ThrowMoves4(env: Env, e: Value, f: nat, g: nat, k: nat)
    requires k == 4
    ensures var ws := ThrowWorlds(env, e, f, g); Step(ws[k], env) == ws[k + 1]
  {
    var ws := ThrowWorlds(env, e, f, g);
  }

  lemma ThrowMoves5(env: Env, e: Value, f: nat, g: nat, k: nat)
    requires k == 5
    ensures var ws := ThrowWorlds(env, e, f, g); Step(ws[k], env) == ws[k + 1]
  {
    var ws := ThrowWorlds(env, e, f, g);
    assert ws[5].stack[1..] == [];
  }

  lemma ThrowMoves6(env: Env, e: Value, f: nat, g: nat, k: nat)
    requires k == 6
    ensures var ws := ThrowWorlds(env, e, f, g); Step(ws[k], env) == ws[k + 1]
  {
    var ws := ThrowWorlds(env, e, f, g);
    assert ws[6].stack[1..] == [];
  }

  lemma ThrowMoves7(env: Env, e: Value, f: nat, g: nat, k: nat)
    requires k == 7
    ensures var ws := ThrowWorlds(env, e, f, g); Step(ws[k], env) == ws[k + 1]
  {
    var ws := ThrowWorlds(env, e, f, g);
    assert ws[7].stack[1..] == [];
  }

  lemma ThrowStart(env: Env, e: Value, f: nat, g: nat)
    ensures var p := NewPromise(Empty, [Raise(e)]);
            var t := Then(p.w, p.id, Some(User(f)), None);
            var c := Catch(t.w, t.id, User(g));
            p.id == 0 && t.id == 1 && c.id == 2 && c.w == ThrowWorlds(env, e, f, g)[0]
  {
    ExecutorThrowRejects([], e, []);
  }

  /** An executor that throws `e`, followed by `.then(f).catch(g)`: `f` is
      never called, the then-promise is rejected with `e` (no rejection
      callback: forwarded) and `g` is called with `e`. */
  lemma ExecutorThrowReachesCatch(env: Env, e: Value, f: nat, g: nat, n: nat)
    requires n >= 8
    ensures var p := NewPromise(Empty, [Raise(e)]);
            var t := Then(p.w, p.id, Some(User(f)), None);
            var c := Catch(t.w, t.id, User(g));
            var r := Run(c.w, env, n);
            && |r.ps| == 3
            && r.ps[p.id] == Record(Rejected, e, [])
            && r.ps[t.id] == Record(Rejected, e, [])
            && r.ps[c.id] == SettledBy(env(g, e))
            && Idle(r)
  {
    ThrowStart(env, e, f, g);
    var ws := ThrowWorlds(env, e, f, g);
    forall k | 0 <= k < |ws| - 1
      ensures Step(ws[k], env) == ws[k + 1]
    {
      ThrowMoves(env, e, f, g, k);
    }
    SettlesInto(ws, env, n);
  }

  /** The worlds `Promise.resolve(x).then(null, f).then(g)` passes through. */
  function ForwardWorlds(env: Env, x: Value, f: nat, g: nat): (ws: seq<World>)
    ensures |ws| == 11
  {
    var h1 := Handler(1, None, Some(User(f)));
    var h2 := Handler(2, Some(User(g)), None);
    var o := env(g, x);
    var px := Record(Fulfilled, x, []);
    [ World([px, Fresh, Fresh], [Register(0, h1), Register(1, h2)], [], [], []),
      World([px, Fresh, Fresh], [Register(1, h2)], [Fire(h1, Fulfil, x), Recheck(0, h1)], [], []),
      World([px, Fresh, Fresh], [Register(1, h2)], [Settle(1, Fulfil, x), Recheck(0, h1)], [], []),
      World([px, px, Fresh], [Register(1, h2)], [Drain(1, [], Fulfil), Recheck(0, h1)], [], []),
      World([px, px, Fresh], [Register(1, h2)], [Recheck(0, h1)], [], []),
      World([px, px, Fresh], [Register(1, h2)], [], [], []),
      World([px, px, Fresh], [], [Fire(h2, Fulfil, x), Recheck(1, h2)], [], []),
      World([px, px, Fresh], [], [Conclude(2, o), Recheck(1, h2)], [], []),
      World([px, px, SettledBy(o)], [], [Drain(2, [], SideOf(o)), Recheck(1, h2)], [], []),
      World([px, px, SettledBy(o)], [], [Recheck(1, h2)], [], []),
      World([px, px, SettledBy(o)], [], [], [], []) ]
  }

  /** Every move of the trace, one lemma per move. */
  lemma ForwardMoves(env: Env, x: Value, f: nat, g: nat, k: nat)
    requires !x.Ref? && k < 10
    ensures var ws := ForwardWorlds(env, x, f, g); Step(ws[k], env) == ws[k + 1]
  {
    if k == 0 {
      ForwardMoves0(env, x, f, g, k);
    } else if k == 1 {
      ForwardMoves1(env, x, f, g, k);
    } else if k == 2 {
      ForwardMoves2(env, x, f, g, k);
    } else if k == 3 {
      ForwardMoves3(env, x, f, g, k);
    } else if k == 4 {
      ForwardMoves4(env, x, f, g, k);
    } else if k == 5 {
      ForwardMoves5(env, x, f, g, k);
    } else if k == 6 {
      ForwardMoves6(env, x, f, g, k);
    } else if k == 7 {
      ForwardMoves7(env, x, f, g, k);
    } else if k == 8 {
      ForwardMoves8(env, x, f, g, k);
    } else {
      ForwardMoves9(env, x, f, g, k);
    }
  }

  lemma ForwardMoves0(env: Env, x: Value, f: nat, g: nat, k: nat)
    requires !x.Ref? && k == 0
    ensures var ws := ForwardWorlds(env, x, f, g); Step(ws[k], env) == ws[k + 1]
  {
    var ws := ForwardWorlds(env, x, f, g);
  }

  lemma ForwardMoves1(env: Env, x: Value, f: nat, g: nat, k: nat)
    requires !x.Ref? && k == 1
    ensures var ws := ForwardWorlds(env, x, f, g); Step(ws[k], env) == ws[k + 1]
  {
    var ws := ForwardWorlds(env, x, f, g);
    var h1 := Handler(1, None, Some(User(f)));
    assert ws[1].stack[1..] == [Recheck(0, h1)];
  }

  lemma ForwardMoves2(env: Env, x: Value, f: nat, g: nat, k: nat)
    requires !x.Ref? && k == 2
    ensures var ws := ForwardWorlds(env, x, f, g); Step(ws[k], env) == ws[k + 1]
  {
    var ws := ForwardWorlds(env, x, f, g);
    var h1 := Handler(1, None, Some(User(f)));
    assert ws[2].stack[1..] == [Recheck(0, h1)];
  }

  lemma ForwardMoves3(env: Env, x: Value, f: nat, g: nat, k: nat)
    requires !x.Ref? && k == 3
    ensures var ws := ForwardWorlds(env, x, f, g); Step(ws[k], env) == ws[k + 1]
  {
    var ws := ForwardWorlds(env, x, f, g);
    var h1 := Handler(1, None, Some(User(f)));
    assert ws[3].stack[1..] == [Recheck(0, h1)];
  }

  lemma ForwardMoves4(env: Env, x: Value, f: nat, g: nat, k: nat)
    requires !x.Ref? && k == 4
    ensures var ws := ForwardWorlds(env, x, f, g); Step(ws[k], env) == ws[k + 1]
  {
    var ws := ForwardWorlds(env, x, f, g);
    assert ws[4].stack[1..] == [];
  }

  lemma ForwardMoves5(env: Env, x: Value, f: nat, g: nat, k: nat)
    requires !x.Ref? && k == 5
    ensures var ws := ForwardWorlds(env, x, f, g); Step(ws[k], env) == ws[k + 1]
  {
    var ws := ForwardWorlds(env, x, f, g);
  }

  lemma ForwardMoves6(env: Env, x: Value, f: nat, g: nat, k: nat)
    requires !x.Ref? && k == 6
    ensures var ws := ForwardWorlds(env, x, f, g); Step(ws[k], env) == ws[k + 1]
  {
    var ws := ForwardWorlds(env, x, f, g);
    var h2 := Handler(2, Some(User(g)), None);
    assert ws[6].stack[1..] == [Recheck(1, h2)];
  }

  lemma ForwardMoves7(env: Env, x: Value, f: nat, g: nat, k: nat)
    requires !x.Ref? && k == 7
    ensures var ws := ForwardWorlds(env, x, f, g); Step(ws[k], env) == ws[k + 1]
  {
    var ws := ForwardWorlds(env, x, f, g);
    var h2 := Handler(2, Some(User(g)), None);
    assert ws[7].stack[1..] == [Recheck(1, h2)];
  }

  lemma ForwardMoves8(env: Env, x: Value, f: nat, g: nat, k: nat)
    requires !x.Ref? && k == 8
    ensures var ws := ForwardWorlds(env, x, f, g); Step(ws[k], env) == ws[k + 1]
  {
    var ws := ForwardWorlds(env, x, f, g);
    var h2 := Handler(2, Some(User(g)), None);
    assert ws[8].stack[1..] == [Recheck(1, h2)];
  }

  lemma ForwardMoves9(env: Env, x: Value, f: nat, g: nat, k: nat)
    requires !x.Ref? && k == 9
    ensures var ws := ForwardWorlds(env, x, f, g); Step(ws[k], env) == ws[k + 1]
  {
    var ws := ForwardWorlds(env, x, f, g);
    assert ws[9].stack[1..] == [];
  }

  lemma ForwardStart(env: Env, x: Value, f: nat, g: nat)
    ensures var p := PromiseResolve(Empty, x);
            var t := Then(p.w, p.id, None, Some(User(f)));
            var u := Then(t.w, t.id, Some(User(g)), None);
            t.id == 1 && u.id == 2 && u.w == ForwardWorlds(env, x, f, g)[0]
  {
  }

  /** `Promise.resolve(x).then(null, f).then(g)`: a missing fulfilment
      callback forwards `x` unchanged, and `g` is called with `x`. */
  lemma MissingCallbackForwards(env: Env, x: Value, f: nat, g: nat, n: nat)
    requires !x.Ref? && n >= 10
    ensures var p := PromiseResolve(Empty, x);
            var t := Then(p.w, p.id, None, Some(User(f)));
            var u := Then(t.w, t.id, Some(User(g)), None);
            var r := Run(u.w, env, n);
            && |r.ps| == 3
            && r.ps[t.id] == Record(Fulfilled, x, [])
            && r.ps[u.id] == SettledBy(env(g, x))
            && Idle(r)
  {
    ForwardStart(env, x, f, g);
    var ws := ForwardWorlds(env, x, f, g);
    forall k | 0 <= k < |ws| - 1
      ensures Step(ws[k], env) == ws[k + 1]
    {
      ForwardMoves(env, x, f, g, k);
    }
    SettlesInto(ws, env, n);
  }

  /** The first phase of the chained example: both registrations find their
      parents pending. */
  function ChainRegistered(f: nat, g: nat): World
  {
    var h1 := Handler(2, Some(User(f)), None);
    var h2 := Handler(3, Some(User(g)), None);
    World([Record(Pending, Null, [h1]), Fresh, Record(Pending, Null, [h2]), Fresh], [], [], [], [])
  }

  /** The worlds after the outside fulfilment of promise 0 with `x`, where `f`
      returns promise 1. */
  function ChainWorlds(x: Value, f: nat, g: nat): (ws: seq<World>)
    ensures |ws| == 12
  {
    var h1 := Handler(2, Some(User(f)), None);
    var h2 := Handler(3, Some(User(g)), None);
    var hN := Handler(4, Some(User(g)), None);
    var P := Record(Pending, Null, []);
    var x1 := Record(Fulfilled, x, [h1]);
    var r1 := Record(Fulfilled, Ref(1), [h2]);
    var ps6 := [x1, Fresh, r1, Fresh, Fresh];
    var r4 := Record(Fulfilled, Ref(4), []);
    var ps7 := [x1, Fresh, r1, r4, Fresh];
    var r1d := Record(Fulfilled, Ref(1), []);
    var x1d := Record(Fulfilled, x, []);
    var d0 := Drain(0, [], Fulfil);
    var d2 := Drain(2, [], Fulfil);
    [ World([P.(handlers := [h1]), Fresh, P.(handlers := [h2]), Fresh], [], [Settle(0, Fulfil, x)], [], []),
      World([x1, Fresh, P.(handlers := [h2]), Fresh], [], [Drain(0, [h1], Fulfil)], [], []),
      World([x1, Fresh, P.(handlers := [h2]), Fresh], [], [Fire(h1, Fulfil, x), d0], [], []),
      World([x1, Fresh, P.(handlers := [h2]), Fresh], [], [Settle(2, Fulfil, Ref(1)), d0], [], []),
      World([x1, Fresh, r1, Fresh], [], [Drain(2, [h2], Fulfil), d0], [], []),
      World([x1, Fresh, r1, Fresh], [], [Fire(h2, Fulfil, Ref(1)), d2, d0], [], []),
      World(ps6, [Register(1, hN)], [Settle(3, Fulfil, Ref(4)), d2, d0], [], []),
      World(ps7, [Register(1, hN)], [Drain(3, [], Fulfil), d2, d0], [], []),
      World(ps7, [Register(1, hN)], [d2, d0], [], []),
      World([x1, Fresh, r1d, r4, Fresh], [Register(1, hN)], [d0], [], []),
      World([x1d, Fresh, r1d, r4, Fresh], [Register(1, hN)], [], [], []),
      World([x1d, P.(handlers := [hN]), r1d, r4, Fresh], [], [], [], []) ]
  }

  /** Every move of the trace, one lemma per move. */
  lemma ChainMoves(env: Env, x: Value, f: nat, g: nat, k: nat)
    requires !x.Ref? && env(f, x) == Ok(Ref(1)) && k < 11
    ensures var ws := ChainWorlds(x, f, g); Step(ws[k], env) == ws[k + 1]
  {
    if k == 0 {
      ChainMoves0(env, x, f, g, k);
    } else if k == 1 {
      ChainMoves1(env, x, f, g, k);
    } else if k == 2 {
      ChainMoves2(env, x, f, g, k);
    } else if k == 3 {
      ChainMoves3(env, x, f, g, k);
    } else if k == 4 {
      ChainMoves4(env, x, f, g, k);
    } else if k == 5 {
      ChainMoves5(env, x, f, g, k);
    } else if k == 6 {
      ChainMoves6(env, x, f, g, k);
    } else if k == 7 {
      ChainMoves7(env, x, f, g, k);
    } else if k == 8 {
      ChainMoves8(env, x, f, g, k);
    } else if k == 9 {
      ChainMoves9(env, x, f, g, k);
    } else {
      ChainMoves10(env, x, f, g, k);
    }
  }

  lemma ChainMoves0(env: Env, x: Value, f: nat, g: nat, k: nat)
    requires !x.Ref? && env(f, x) == Ok(Ref(1)) && k == 0
    ensures var ws := ChainWorlds(x, f, g); Step(ws[k], env) == ws[k + 1]
  {
    var ws := ChainWorlds(x, f, g);
    assert ws[0].stack[1..] == [];
  }

  lemma ChainMoves1(env: Env, x: Value, f: nat, g: nat, k: nat)
    requires !x.Ref? && env(f, x) == Ok(Ref(1)) && k == 1
    ensures var ws := ChainWorlds(x, f, g); Step(ws[k], env) == ws[k + 1]
  {
    var ws := ChainWorlds(x, f, g);
    assert ws[1].stack[1..] == [];
    assert [Handler(2, Some(User(f)), None)][1..] == [];
  }

  lemma ChainMoves2(env: Env, x: Value, f: nat, g: nat, k: nat)
    requires !x.Ref? && env(f, x) == Ok(Ref(1)) && k == 2
    ensures var ws := ChainWorlds(x, f, g); Step(ws[k], env) == ws[k + 1]
  {
    var ws := ChainWorlds(x, f, g);
    var d0 := Drain(0, [], Fulfil);
    assert ws[2].stack[1..] == [d0];
  }

  lemma ChainMoves3(env: Env, x: Value, f: nat, g: nat, k: nat)
    requires !x.Ref? && env(f, x) == Ok(Ref(1)) && k == 3
    ensures var ws := ChainWorlds(x, f, g); Step(ws[k], env) == ws[k + 1]
  {
    var ws := ChainWorlds(x, f, g);
    var d0 := Drain(0, [], Fulfil);
    assert ws[3].stack[1..] == [d0];
  }

  lemma ChainMoves4(env: Env, x: Value, f: nat, g: nat, k: nat)
    requires !x.Ref? && env(f, x) == Ok(Ref(1)) && k == 4
    ensures var ws := ChainWorlds(x, f, g); Step(ws[k], env) == ws[k + 1]
  {
    var ws := ChainWorlds(x, f, g);
    var d0 := Drain(0, [], Fulfil);
    assert ws[4].stack[1..] == [d0];
    assert [Handler(3, Some(User(g)), None)][1..] == [];
  }

  lemma ChainMoves5(env: Env, x: Value, f: nat, g: nat, k: nat)
    requires !x.Ref? && env(f, x) == Ok(Ref(1)) && k == 5
    ensures var ws := ChainWorlds(x, f, g); Step(ws[k], env) == ws[k + 1]
  {
    var ws := ChainWorlds(x, f, g);
    var d0 := Drain(0, [], Fulfil);
    var d2 := Drain(2, [], Fulfil);
    assert ws[5].stack[1..] == [d2, d0];
  }

  lemma ChainMoves6(env: Env, x: Value, f: nat, g: nat, k: nat)
    requires !x.Ref? && env(f, x) == Ok(Ref(1)) && k == 6
    ensures var ws := ChainWorlds(x, f, g); Step(ws[k], env) == ws[k + 1]
  {
    var ws := ChainWorlds(x, f, g);
    var d0 := Drain(0, [], Fulfil);
    var d2 := Drain(2, [], Fulfil);
    assert ws[6].stack[1..] == [d2, d0];
  }

  lemma ChainMoves7(env: Env, x: Value, f: nat, g: nat, k: nat)
    requires !x.Ref? && env(f, x) == Ok(Ref(1)) && k == 7
    ensures var ws := ChainWorlds(x, f, g); Step(ws[k], env) == ws[k + 1]
  {
    var ws := ChainWorlds(x, f, g);
    var d0 := Drain(0, [], Fulfil);
    var d2 := Drain(2, [], Fulfil);
    assert ws[7].stack[1..] == [d2, d0];
  }

  lemma ChainMoves8(env: Env, x: Value, f: nat, g: nat, k: nat)
    requires !x.Ref? && env(f, x) == Ok(Ref(1)) && k == 8
    ensures var ws := ChainWorlds(x, f, g); Step(ws[k], env) == ws[k + 1]
  {
    var ws := ChainWorlds(x, f, g);
    var d0 := Drain(0, [], Fulfil);
    assert ws[8].stack[1..] == [d0];
  }

  lemma ChainMoves9(env: Env, x: Value, f: nat, g: nat, k: nat)
    requires !x.Ref? && env(f, x) == Ok(Ref(1)) && k == 9
    ensures var ws := ChainWorlds(x, f, g); Step(ws[k], env) == ws[k + 1]
  {
    var ws := ChainWorlds(x, f, g);
    assert ws[9].stack[1..] == [];
  }

  lemma ChainMoves10(env: Env, x: Value, f: nat, g: nat, k: nat)
    requires !x.Ref? && env(f, x) == Ok(Ref(1)) && k == 10
    ensures var ws := ChainWorlds(x, f, g); Step(ws[k], env) == ws[k + 1]
  {
    var ws := ChainWorlds(x, f, g);
    assert [] + [Handler(4, Some(User(g)), None)] == [Handler(4, Some(User(g)), None)];
  }

  /** The worlds after the outside fulfilment of promise 1 with `y`. */
  function InnerWorlds(env: Env, x: Value, y: Value, g: nat): (ws: seq<World>)
    ensures |ws| == 7
  {
    var hN := Handler(4, Some(User(g)), None);
    var o := env(g, y);
    var base := [Record(Fulfilled, x, []), Record(Fulfilled, y, [hN]), Record(Fulfilled, Ref(1), []),
                 Record(Fulfilled, Ref(4), []), Fresh];
    var d1 := Drain(1, [], Fulfil);
    [ World([Record(Fulfilled, x, []), Record(Pending, Null, [hN]), Record(Fulfilled, Ref(1), []),
             Record(Fulfilled, Ref(4), []), Fresh], [], [Settle(1, Fulfil, y)], [], []),
      World(base, [], [Drain(1, [hN], Fulfil)], [], []),
      World(base, [], [Fire(hN, Fulfil, y), d1], [], []),
      World(base, [], [Conclude(4, o), d1], [], []),
      World(base[4 := SettledBy(o)], [], [Drain(4, [], SideOf(o)), d1], [], []),
      World(base[4 := SettledBy(o)], [], [d1], [], []),
      World(base[4 := SettledBy(o)][1 := Record(Fulfilled, y, [])], [], [], [], []) ]
  }

  /** Every move of the trace, one lemma per move. */
  lemma InnerMoves(env: Env, x: Value, y: Value, g: nat, k: nat)
    requires !y.Ref? && k < 6
    ensures var ws := InnerWorlds(env, x, y, g); Step(ws[k], env) == ws[k + 1]
  {
    if k == 0 {
      InnerMoves0(env, x, y, g, k);
    } else if k == 1 {
      InnerMoves1(env, x, y, g, k);
    } else if k == 2 {
      InnerMoves2(env, x, y, g, k);
    } else if k == 3 {
      InnerMoves3(env, x, y, g, k);
    } else if k == 4 {
      InnerMoves4(env, x, y, g, k);
    } else {
      InnerMoves5(env, x, y, g, k);
    }
  }

  lemma InnerMoves0(env: Env, x: Value, y: Value, g: nat, k: nat)
    requires !y.Ref? && k == 0
    ensures var ws := InnerWorlds(env, x, y, g); Step(ws[k], env) == ws[k + 1]
  {
    var ws := InnerWorlds(env, x, y, g);
    assert ws[0].stack[1..] == [];
  }

  lemma InnerMoves1(env: Env, x: Value, y: Value, g: nat, k: nat)
    requires !y.Ref? && k == 1
    ensures var ws := InnerWorlds(env, x, y, g); Step(ws[k], env) == ws[k + 1]
  {
    var ws := InnerWorlds(env, x, y, g);
    assert ws[1].stack[1..] == [];
    assert [Handler(4, Some(User(g)), None)][1..] == [];
  }

  lemma InnerMoves2(env: Env, x: Value, y: Value, g: nat, k: nat)
    requires !y.Ref? && k == 2
    ensures var ws := InnerWorlds(env, x, y, g); Step(ws[k], env) == ws[k + 1]
  {
    var ws := InnerWorlds(env, x, y, g);
    var d1 := Drain(1, [], Fulfil);
    assert ws[2].stack[1..] == [d1];
  }

  lemma InnerMoves3(env: Env, x: Value, y: Value, g: nat, k: nat)
    requires !y.Ref? && k == 3
    ensures var ws := InnerWorlds(env, x, y, g); Step(ws[k], env) == ws[k + 1]
  {
    var ws := InnerWorlds(env, x, y, g);
    var d1 := Drain(1, [], Fulfil);
    assert ws[3].stack[1..] == [d1];
  }

  lemma InnerMoves4(env: Env, x: Value, y: Value, g: nat, k: nat)
    requires !y.Ref? && k == 4
    ensures var ws := InnerWorlds(env, x, y, g); Step(ws[k], env) == ws[k + 1]
  {
    var ws := InnerWorlds(env, x, y, g);
    var d1 := Drain(1, [], Fulfil);
    assert ws[4].stack[1..] == [d1];
  }

  lemma InnerMoves5(env: Env, x: Value, y: Value, g: nat, k: nat)
    requires !y.Ref? && k == 5
    ensures var ws := InnerWorlds(env, x, y, g); Step(ws[k], env) == ws[k + 1]
  {
    var ws := InnerWorlds(env, x, y, g);
    assert ws[5].stack[1..] == [];
  }

  /** Both registrations find their parents pending. */
  lemma ChainRegisters(env: Env, f: nat, g: nat, n: nat)
    requires n >= 2
    ensures var h1 := Handler(2, Some(User(f)), None);
            var h2 := Handler(3, Some(User(g)), None);
            var w := World([Fresh, Fresh, Fresh, Fresh], [Register(0, h1), Register(2, h2)], [], [], []);
            Run(w, env, n) == ChainRegistered(f, g)
  {
    var h1 := Handler(2, Some(User(f)), None);
    var h2 := Handler(3, Some(User(g)), None);
    var A := [ World([Fresh, Fresh, Fresh, Fresh], [Register(0, h1), Register(2, h2)], [], [], []),
               World([Record(Pending, Null, [h1]), Fresh, Fresh, Fresh], [Register(2, h2)], [], [], []),
               ChainRegistered(f, g) ];
    assert Step(A[0], env) == A[1] by {
      assert [] + [h1] == [h1];
    }
    assert Step(A[1], env) == A[2] by {
      assert [] + [h2] == [h2];
    }
    SettlesInto(A, env, n);
  }

  /** Fulfilling promise 0 runs the cascade of both adapters. */
  lemma ChainOuterSettles(env: Env, x: Value, f: nat, g: nat, n: nat)
    requires !x.Ref? && env(f, x) == Ok(Ref(1)) && n >= 11
    ensures Run(Deliver(ChainRegistered(f, g), 0, Fulfil, x), env, n) == ChainWorlds(x, f, g)[11]
  {
    var B := ChainWorlds(x, f, g);
    forall k | 0 <= k < |B| - 1
      ensures Step(B[k], env) == B[k + 1]
    {
      ChainMoves(env, x, f, g, k);
    }
    SettlesInto(B, env, n);
  }

  /** Fulfilling promise 1 lets `g` settle promise 4. */
  lemma ChainInnerSettles(env: Env, x: Value, y: Value, f: nat, g: nat, n: nat)
    requires !y.Ref? && n >= 6
    ensures Run(Deliver(ChainWorlds(x, f, g)[11], 1, Fulfil, y), env, n) == InnerWorlds(env, x, y, g)[6]
  {
    var C := InnerWorlds(env, x, y, g);
    forall k | 0 <= k < |C| - 1
      ensures Step(C[k], env) == C[k + 1]
    {
      InnerMoves(env, x, y, g, k);
    }
    SettlesInto(C, env, n);
  }

  lemma ChainStart(f: nat, g: nat)
    ensures var p := NewPromise(Empty, []);
            var c := NewPromise(p.w, []);
            var t := Then(c.w, p.id, Some(User(f)), None);
            var u := Then(t.w, t.id, Some(User(g)), None);
            && p.id == 0 && c.id == 1 && t.id == 2 && u.id == 3
            && u.w == World([Fresh, Fresh, Fresh, Fresh],
                            [Register(0, Handler(2, Some(User(f)), None)), Register(2, Handler(3, Some(User(g)), None))], [], [], [])
  {
    assert Executed([]) == [];
  }

  /** Two chained `then`s on a pending promise whose first callback `f`
      returns another promise `c` (promise 1). The then-promise is fulfilled
      with `c` itself: resolving does not adopt. The next adapter unwraps one
      level by calling `c.then(g)`, and its own promise is fulfilled with that
      new promise (4), not with a value. Once `c` is fulfilled with `y`,
      promise 4 is settled by `g`'s outcome on `y`. */
  lemma PromiseResultUnwrapsOneLevel(env: Env, x: Value, y: Value, f: nat, g: nat, n: nat)
    requires !x.Ref? && !y.Ref? && env(f, x) == Ok(Ref(1)) && n >= 11
    ensures var p := NewPromise(Empty, []);
            var c := NewPromise(p.w, []);
            var t := Then(c.w, p.id, Some(User(f)), None);
            var u := Then(t.w, t.id, Some(User(g)), None);
            var w1 := Run(u.w, env, n);
            && Idle(w1)
            && var w2 := Run(Deliver(w1, p.id, Fulfil, x), env, n);
               && Idle(w2) && |w2.ps| == 5
               && w2.ps[t.id] == Record(Fulfilled, Ref(c.id), [])
               && w2.ps[u.id] == Record(Fulfilled, Ref(4), [])
               && w2.ps[4] == Fresh
               && w2.ps[c.id] == Record(Pending, Null, [Handler(4, Some(User(g)), None)])
               && var w3 := Run(Deliver(w2, c.id, Fulfil, y), env, n);
                  |w3.ps| == 5 && w3.ps[4] == SettledBy(env(g, y)) && Idle(w3)
  {
    ChainStart(f, g);
    ChainRegisters(env, f, g, n);
    ChainOuterSettles(env, x, f, g, n);
    ChainInnerSettles(env, x, y, f, g, n);
  }

  // ------------------------------------------------------- combinators

  /** The worlds `Promise.all([x, y])` passes through. */
  function AllWorlds(x: Value, y: Value): (ws: seq<World>)
    ensures |ws| == 13
  {
    var h0 := Handler(3, Some(AllFulfilled(0, 0)), Some(AllRejected(0)));
    var h1 := Handler(4, Some(AllFulfilled(0, 1)), Some(AllRejected(0)));
    var px := Record(Fulfilled, x, []);
    var py := Record(Fulfilled, y, []);
    var u := Record(Fulfilled, Undef, []);
    var arr := Record(Fulfilled, Arr([x, y]), []);
    var half := [AllState(2, false, 1, [x, Undef])];
    var full := [AllState(2, true, 2, [x, y])];
    [ World([px, py, Fresh, Fresh, Fresh], [Register(0, h0), Register(1, h1)], [], [FreshAll(2, 2)], []),
      World([px, py, Fresh, Fresh, Fresh], [Register(1, h1)], [Fire(h0, Fulfil, x), Recheck(0, h0)], [FreshAll(2, 2)], []),
      World([px, py, Fresh, Fresh, Fresh], [Register(1, h1)], [Settle(3, Fulfil, Undef), Recheck(0, h0)], half, []),
      World([px, py, Fresh, u, Fresh], [Register(1, h1)], [Drain(3, [], Fulfil), Recheck(0, h0)], half, []),
      World([px, py, Fresh, u, Fresh], [Register(1, h1)], [Recheck(0, h0)], half, []),
      World([px, py, Fresh, u, Fresh], [Register(1, h1)], [], half, []),
      World([px, py, Fresh, u, Fresh], [], [Fire(h1, Fulfil, y), Recheck(1, h1)], half, []),
      World([px, py, Fresh, u, Fresh], [], [Settle(2, Fulfil, Arr([x, y])), Settle(4, Fulfil, Undef), Recheck(1, h1)], full, []),
      World([px, py, arr, u, Fresh], [], [Drain(2, [], Fulfil), Settle(4, Fulfil, Undef), Recheck(1, h1)], full, []),
      World([px, py, arr, u, Fresh], [], [Settle(4, Fulfil, Undef), Recheck(1, h1)], full, []),
      World([px, py, arr, u, u], [], [Drain(4, [], Fulfil), Recheck(1, h1)], full, []),
      World([px, py, arr, u, u], [], [Recheck(1, h1)], full, []),
      World([px, py, arr, u, u], [], [], full, []) ]
  }

  /** Every move of the trace, one lemma per move. */
  lemma AllMoves(env: Env, x: Value, y: Value, k: nat)
    requires !x.Ref? && !y.Ref? && k < 12
    ensures var ws := AllWorlds(x, y); Step(ws[k], env) == ws[k + 1]
  {
    if k == 0 {
      AllMoves0(env, x, y, k);
    } else if k == 1 {
      AllMoves1(env, x, y, k);
    } else if k == 2 {
      AllMoves2(env, x, y, k);
    } else if k == 3 {
      AllMoves3(env, x, y, k);
    } else if k == 4 {
      AllMoves4(env, x, y, k);
    } else if k == 5 {
      AllMoves5(env, x, y, k);
    } else if k == 6 {
      AllMoves6(env, x, y, k);
    } else if k == 7 {
      AllMoves7(env, x, y, k);
    } else if k == 8 {
      AllMoves8(env, x, y, k);
    } else if k == 9 {
      AllMoves9(env, x, y, k);
    } else if k == 10 {
      AllMoves10(env, x, y, k);
    } else {
      AllMoves11(env, x, y, k);
    }
  }

  lemma AllMoves0(env: Env, x: Value, y: Value, k: nat)
    requires !x.Ref? && !y.Ref? && k == 0
    ensures var ws := AllWorlds(x, y); Step(ws[k], env) == ws[k + 1]
  {
    var ws := AllWorlds(x, y);
  }

  lemma AllMoves1(env: Env, x: Value, y: Value, k: nat)
    requires !x.Ref? && !y.Ref? && k == 1
    ensures var ws := AllWorlds(x, y); Step(ws[k], env) == ws[k + 1]
  {
    var ws := AllWorlds(x, y);
    var h0 := Handler(3, Some(AllFulfilled(0, 0)), Some(AllRejected(0)));
    assert ws[1].stack[1..] == [Recheck(0, h0)];
    assert FreshAll(2, 2).slots[0 := x] == [x, Undef];
  }

  lemma AllMoves2(env: Env, x: Value, y: Value, k: nat)
    requires !x.Ref? && !y.Ref? && k == 2
    ensures var ws := AllWorlds(x, y); Step(ws[k], env) == ws[k + 1]
  {
    var ws := AllWorlds(x, y);
    var h0 := Handler(3, Some(AllFulfilled(0, 0)), Some(AllRejected(0)));
    assert ws[2].stack[1..] == [Recheck(0, h0)];
  }

  lemma AllMoves3(env: Env, x: Value, y: Value, k: nat)
    requires !x.Ref? && !y.Ref? && k == 3
    ensures var ws := AllWorlds(x, y); Step(ws[k], env) == ws[k + 1]
  {
    var ws := AllWorlds(x, y);
    var h0 := Handler(3, Some(AllFulfilled(0, 0)), Some(AllRejected(0)));
    assert ws[3].stack[1..] == [Recheck(0, h0)];
  }

  lemma AllMoves4(env: Env, x: Value, y: Value, k: nat)
    requires !x.Ref? && !y.Ref? && k == 4
    ensures var ws := AllWorlds(x, y); Step(ws[k], env) == ws[k + 1]
  {
    var ws := AllWorlds(x, y);
    assert ws[4].stack[1..] == [];
  }

  lemma AllMoves5(env: Env, x: Value, y: Value, k: nat)
    requires !x.Ref? && !y.Ref? && k == 5
    ensures var ws := AllWorlds(x, y); Step(ws[k], env) == ws[k + 1]
  {
    var ws := AllWorlds(x, y);
  }

  lemma AllMoves6(env: Env, x: Value, y: Value, k: nat)
    requires !x.Ref? && !y.Ref? && k == 6
    ensures var ws := AllWorlds(x, y); Step(ws[k], env) == ws[k + 1]
  {
    var ws := AllWorlds(x, y);
    var h1 := Handler(4, Some(AllFulfilled(0, 1)), Some(AllRejected(0)));
    var ps := [Record(Fulfilled, x, []), Record(Fulfilled, y, []), Fresh, Record(Fulfilled, Undef, []), Fresh];
    var w6 := World(ps, [], [Fire(h1, Fulfil, y), Recheck(1, h1)], [AllState(2, false, 1, [x, Undef])], []);
    assert ws[6] == w6;
    SecondArrivalResolvesAll(env, w6, x, y);
  }

  /** The move of that trace in which the second input's arrival completes
      the `all`: the combined promise is settled with both values, then the
      closure's own then-promise with `undefined`. */
  lemma SecondArrivalResolvesAll(env: Env, w: World, x: Value, y: Value)
    requires !y.Ref? && w.alls == [AllState(2, false, 1, [x, Undef])]
    requires w.stack != [] && w.stack[0] == Fire(Handler(4, Some(AllFulfilled(0, 1)), Some(AllRejected(0))), Fulfil, y)
    ensures var r := Step(w, env);
            && r.ps == w.ps && r.queue == w.queue
            && r.alls == [AllState(2, true, 2, [x, y])]
            && r.stack == [Settle(2, Fulfil, Arr([x, y])), Settle(4, Fulfil, Undef)] + w.stack[1..]
  {
    assert [x, Undef][1 := y] == [x, y];
  }

  lemma AllMoves7(env: Env, x: Value, y: Value, k: nat)
    requires !x.Ref? && !y.Ref? && k == 7
    ensures var ws := AllWorlds(x, y); Step(ws[k], env) == ws[k + 1]
  {
    var ws := AllWorlds(x, y);
    var h1 := Handler(4, Some(AllFulfilled(0, 1)), Some(AllRejected(0)));
    assert ws[7].stack[1..] == [Settle(4, Fulfil, Undef), Recheck(1, h1)];
  }

  lemma AllMoves8(env: Env, x: Value, y: Value, k: nat)
    requires !x.Ref? && !y.Ref? && k == 8
    ensures var ws := AllWorlds(x, y); Step(ws[k], env) == ws[k + 1]
  {
    var ws := AllWorlds(x, y);
    var h1 := Handler(4, Some(AllFulfilled(0, 1)), Some(AllRejected(0)));
    assert ws[8].stack[1..] == [Settle(4, Fulfil, Undef), Recheck(1, h1)];
  }

  lemma AllMoves9(env: Env, x: Value, y: Value, k: nat)
    requires !x.Ref? && !y.Ref? && k == 9
    ensures var ws := AllWorlds(x, y); Step(ws[k], env) == ws[k + 1]
  {
    var ws := AllWorlds(x, y);
    var h1 := Handler(4, Some(AllFulfilled(0, 1)), Some(AllRejected(0)));
    assert ws[9].stack[1..] == [Recheck(1, h1)];
  }

  lemma AllMoves10(env: Env, x: Value, y: Value, k: nat)
    requires !x.Ref? && !y.Ref? && k == 10
    ensures var ws := AllWorlds(x, y); Step(ws[k], env) == ws[k + 1]
  {
    var ws := AllWorlds(x, y);
    var h1 := Handler(4, Some(AllFulfilled(0, 1)), Some(AllRejected(0)));
    assert ws[10].stack[1..] == [Recheck(1, h1)];
  }

  lemma AllMoves11(env: Env, x: Value, y: Value, k: nat)
    requires !x.Ref? && !y.Ref? && k == 11
    ensures var ws := AllWorlds(x, y); Step(ws[k], env) == ws[k + 1]
  {
    var ws := AllWorlds(x, y);
    assert ws[11].stack[1..] == [];
  }

  lemma AllWrap(x: Value, y: Value)
    requires !x.Ref? && !y.Ref?
    ensures Wrap(Empty, [x, y]) == (World([Record(Fulfilled, x, []), Record(Fulfilled, y, [])], [], [], [], []), [0, 1])
  {
    var px := Record(Fulfilled, x, []);
    var py := Record(Fulfilled, y, []);
    var w0 := World([px], [], [], [], []);
    var w1 := World([px, py], [], [], [], []);
    assert PromiseResolve(Empty, x) == Made(w0, 0);
    assert PromiseResolve(w0, y) == Made(w1, 1);
    assert Wrap(w1, []) == (w1, []);
    assert Wrap(w0, [y]) == (w1, [1]) by {
      assert [y][1..] == [] && [1] + [] == [1];
    }
    assert [x, y][1..] == [y] && [0] + [1] == [0, 1];
  }

  lemma AllSubscribe(x: Value, y: Value)
    ensures var w := World([Record(Fulfilled, x, []), Record(Fulfilled, y, []), Fresh], [], [], [FreshAll(2, 2)], []);
            Subscribe(w, [0, 1], AllOf(0), 0) == AllWorlds(x, y)[0]
  {
    assert [0, 1][1..] == [1] && [1][1..] == [];
  }

  lemma AllStart(x: Value, y: Value)
    requires !x.Ref? && !y.Ref?
    ensures var m := All(Empty, [x, y]);
            m.id == 2 && m.w == AllWorlds(x, y)[0]
  {
    AllWrap(x, y);
    AllSubscribe(x, y);
  }

  /** `Promise.all([x, y])` over plain values: both are wrapped, and the
      combined promise is fulfilled with `[x, y]` once both slots arrived. */
  lemma AllOfTwoPlainValues(env: Env, x: Value, y: Value, n: nat)
    requires !x.Ref? && !y.Ref? && n >= 12
    ensures var m := All(Empty, [x, y]);
            var r := Run(m.w, env, n);
            && m.id == 2 && |r.ps| == 5
            && r.ps[m.id] == Record(Fulfilled, Arr([x, y]), [])
            && r.alls == [AllState(m.id, true, 2, [x, y])]
            && Idle(r)
  {
    AllStart(x, y);
    var ws := AllWorlds(x, y);
    forall k | 0 <= k < |ws| - 1
      ensures Step(ws[k], env) == ws[k + 1]
    {
      AllMoves(env, x, y, k);
    }
    SettlesInto(ws, env, n);
  }

  /** The worlds `Promise.race([Promise.reject(e), x])` passes through. */
  function RaceWorlds(e: Value, x: Value): (ws: seq<World>)
    ensures |ws| == 12
  {
    var h0 := Handler(3, Some(RaceFulfilled(0)), Some(RaceRejected(0)));
    var h1 := Handler(4, Some(RaceFulfilled(0)), Some(RaceRejected(0)));
    var pe := Record(Rejected, e, []);
    var px := Record(Fulfilled, x, []);
    var u := Record(Fulfilled, Undef, []);
    var open := [RaceState(2, false)];
    var done := [RaceState(2, true)];
    [ World([pe, px, Fresh, Fresh, Fresh], [Register(0, h0), Register(1, h1)], [], [], open),
      World([pe, px, Fresh, Fresh, Fresh], [Register(1, h1)], [Fire(h0, Reject, e)], [], open),
      World([pe, px, Fresh, Fresh, Fresh], [Register(1, h1)], [Settle(2, Reject, e), Settle(3, Fulfil, Undef)], [], done),
      World([pe, px, pe, Fresh, Fresh], [Register(1, h1)], [Drain(2, [], Reject), Settle(3, Fulfil, Undef)], [], done),
      World([pe, px, pe, Fresh, Fresh], [Register(1, h1)], [Settle(3, Fulfil, Undef)], [], done),
      World([pe, px, pe, u, Fresh], [Register(1, h1)], [Drain(3, [], Fulfil)], [], done),
      World([pe, px, pe, u, Fresh], [Register(1, h1)], [], [], done),
      World([pe, px, pe, u, Fresh], [], [Fire(h1, Fulfil, x), Recheck(1, h1)], [], done),
      World([pe, px, pe, u, Fresh], [], [Settle(4, Fulfil, Undef), Recheck(1, h1)], [], done),
      World([pe, px, pe, u, u], [], [Drain(4, [], Fulfil), Recheck(1, h1)], [], done),
      World([pe, px, pe, u, u], [], [Recheck(1, h1)], [], done),
      World([pe, px, pe, u, u], [], [], [], done) ]
  }

  /** Every move of the trace, one lemma per move. */
  lemma RaceMoves(env: Env, e: Value, x: Value, k: nat)
    requires !x.Ref? && k < 11
    ensures var ws := RaceWorlds(e, x); Step(ws[k], env) == ws[k + 1]
  {
    if k == 0 {
      RaceMoves0(env, e, x, k);
    } else if k == 1 {
      RaceMoves1(env, e, x, k);
    } else if k == 2 {
      RaceMoves2(env, e, x, k);
    } else if k == 3 {
      RaceMoves3(env, e, x, k);
    } else if k == 4 {
      RaceMoves4(env, e, x, k);
    } else if k == 5 {
      RaceMoves5(env, e, x, k);
    } else if k == 6 {
      RaceMoves6(env, e, x, k);
    } else if k == 7 {
      RaceMoves7(env, e, x, k);
    } else if k == 8 {
      RaceMoves8(env, e, x, k);
    } else if k == 9 {
      RaceMoves9(env, e, x, k);
    } else {
      RaceMoves10(env, e, x, k);
    }
  }

  lemma RaceMoves0(env: Env, e: Value, x: Value, k: nat)
    requires !x.Ref? && k == 0
    ensures var ws := RaceWorlds(e, x); Step(ws[k], env) == ws[k + 1]
  {
    var ws := RaceWorlds(e, x);
  }

  lemma RaceMoves1(env: Env, e: Value, x: Value, k: nat)
    requires !x.Ref? && k == 1
    ensures var ws := RaceWorlds(e, x); Step(ws[k], env) == ws[k + 1]
  {
    var ws := RaceWorlds(e, x);
    assert ws[1].stack[1..] == [];
  }

  lemma RaceMoves2(env: Env, e: Value, x: Value, k: nat)
    requires !x.Ref? && k == 2
    ensures var ws := RaceWorlds(e, x); Step(ws[k], env) == ws[k + 1]
  {
    var ws := RaceWorlds(e, x);
    assert ws[2].stack[1..] == [Settle(3, Fulfil, Undef)];
  }

  lemma RaceMoves3(env: Env, e: Value, x: Value, k: nat)
    requires !x.Ref? && k == 3
    ensures var ws := RaceWorlds(e, x); Step(ws[k], env) == ws[k + 1]
  {
    var ws := RaceWorlds(e, x);
    assert ws[3].stack[1..] == [Settle(3, Fulfil, Undef)];
  }

  lemma RaceMoves4(env: Env, e: Value, x: Value, k: nat)
    requires !x.Ref? && k == 4
    ensures var ws := RaceWorlds(e, x); Step(ws[k], env) == ws[k + 1]
  {
    var ws := RaceWorlds(e, x);
    assert ws[4].stack[1..] == [];
  }

  lemma RaceMoves5(env: Env, e: Value, x: Value, k: nat)
    requires !x.Ref? && k == 5
    ensures var ws := RaceWorlds(e, x); Step(ws[k], env) == ws[k + 1]
  {
    var ws := RaceWorlds(e, x);
    assert ws[5].stack[1..] == [];
  }

  lemma RaceMoves6(env: Env, e: Value, x: Value, k: nat)
    requires !x.Ref? && k == 6
    ensures var ws := RaceWorlds(e, x); Step(ws[k], env) == ws[k + 1]
  {
    var ws := RaceWorlds(e, x);
  }

  lemma RaceMoves7(env: Env, e: Value, x: Value, k: nat)
    requires !x.Ref? && k == 7
    ensures var ws := RaceWorlds(e, x); Step(ws[k], env) == ws[k + 1]
  {
    var ws := RaceWorlds(e, x);
    var h1 := Handler(4, Some(RaceFulfilled(0)), Some(RaceRejected(0)));
    assert ws[7].stack[1..] == [Recheck(1, h1)];
  }

  lemma RaceMoves8(env: Env, e: Value, x: Value, k: nat)
    requires !x.Ref? && k == 8
    ensures var ws := RaceWorlds(e, x); Step(ws[k], env) == ws[k + 1]
  {
    var ws := RaceWorlds(e, x);
    var h1 := Handler(4, Some(RaceFulfilled(0)), Some(RaceRejected(0)));
    assert ws[8].stack[1..] == [Recheck(1, h1)];
  }

  lemma RaceMoves9(env: Env, e: Value, x: Value, k: nat)
    requires !x.Ref? && k == 9
    ensures var ws := RaceWorlds(e, x); Step(ws[k], env) == ws[k + 1]
  {
    var ws := RaceWorlds(e, x);
    var h1 := Handler(4, Some(RaceFulfilled(0)), Some(RaceRejected(0)));
    assert ws[9].stack[1..] == [Recheck(1, h1)];
  }

  lemma RaceMoves10(env: Env, e: Value, x: Value, k: nat)
    requires !x.Ref? && k == 10
    ensures var ws := RaceWorlds(e, x); Step(ws[k], env) == ws[k + 1]
  {
    var ws := RaceWorlds(e, x);
    assert ws[10].stack[1..] == [];
  }

  lemma RaceWrap(e: Value, x: Value)
    requires !x.Ref?
    ensures var pe := Record(Rejected, e, []);
            Wrap(World([pe], [], [], [], []), [Ref(0), x])
            == (World([pe, Record(Fulfilled, x, [])], [], [], [], []), [0, 1])
  {
    var pe := Record(Rejected, e, []);
    var w0 := World([pe], [], [], [], []);
    var w1 := World([pe, Record(Fulfilled, x, [])], [], [], [], []);
    assert PromiseResolve(w0, x) == Made(w1, 1);
    assert Wrap(w1, []) == (w1, []);
    assert Wrap(w0, [x]) == (w1, [1]) by {
      assert [x][1..] == [] && [1] + [] == [1];
    }
    assert [Ref(0), x][1..] == [x] && [0] + [1] == [0, 1];
  }

  lemma RaceSubscribe(e: Value, x: Value)
    ensures var w := World([Record(Rejected, e, []), Record(Fulfilled, x, []), Fresh], [], [], [], [RaceState(2, false)]);
            Subscribe(w, [0, 1], RaceOf(0), 0) == RaceWorlds(e, x)[0]
  {
    assert [0, 1][1..] == [1] && [1][1..] == [];
  }

  lemma RaceStart(e: Value, x: Value)
    requires !x.Ref?
    ensures var p := PromiseReject(Empty, e);
            var m := Race(p.w, [Ref(p.id), x]);
            m.id == 2 && m.w == RaceWorlds(e, x)[0]
  {
    var pe := Record(Rejected, e, []);
    assert PromiseReject(Empty, e) == Made(World([pe], [], [], [], []), 0) by {
      assert [] + [pe] == [pe];
    }
    RaceWrap(e, x);
    RaceSubscribe(e, x);
  }

  /** `Promise.race([Promise.reject(e), x])`: the rejection arrives first and
      rejects the combined promise; the later fulfilment only settles its own
      then-promise and leaves the combined one as it was. */
  lemma RaceFirstRejectionWins(env: Env, e: Value, x: Value, n: nat)
    requires !x.Ref? && n >= 11
    ensures var p := PromiseReject(Empty, e);
            var m := Race(p.w, [Ref(p.id), x]);
            var r := Run(m.w, env, n);
            && m.id == 2 && |r.ps| == 5
            && r.ps[m.id] == Record(Rejected, e, [])
            && r.races == [RaceState(m.id, true)]
            && Idle(r)
  {
    RaceStart(e, x);
    var ws := RaceWorlds(e, x);
    forall k | 0 <= k < |ws| - 1
      ensures Step(ws[k], env) == ws[k + 1]
    {
      RaceMoves(env, e, x, k);
    }
    SettlesInto(ws, env, n);
  }
}
