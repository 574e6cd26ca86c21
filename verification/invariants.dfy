/**
 Properties every reachable world keeps: a settled promise's handler list is
 being drained or is empty, so it is empty whenever the call stack is; a
 settled promise never returns to pending; timers run in FIFO order.
 */
module Invariants {
  import opened Types
  import opened Aggregators
  import opened Promises

  /** Some frame of the call stack is still draining `p`'s handler list. */
  ghost predicate Draining(stack: seq<Frame>, p: PromiseId)
  {
    exists j :: 0 <= j < |stack| && stack[j].Drain? && stack[j].p == p
  }

  /** A settled promise with a non-empty handler list is in the middle of
      its `forEach`. */
  ghost predicate HandlersInert(w: World)
  {
    forall p :: 0 <= p < |w.ps| && w.ps[p].status != Pending && w.ps[p].handlers != [] ==> Draining(w.stack, p)
  }

  /** Frames below the top survive a move: a drain that was under way still is. */
  lemma DrainingSurvives(old_stack: seq<Frame>, new_stack: seq<Frame>, p: PromiseId)
    requires old_stack != [] && Draining(old_stack, p)
    requires !(old_stack[0].Drain? && old_stack[0].p == p)
    requires |new_stack| >= |old_stack| - 1
    requires new_stack[|new_stack| - (|old_stack| - 1)..] == old_stack[1..]
    ensures Draining(new_stack, p)
  {
    var j :| 0 <= j < |old_stack| && old_stack[j].Drain? && old_stack[j].p == p;
    var k := |new_stack| - (|old_stack| - 1) + (j - 1);
    assert new_stack[k] == old_stack[1..][j - 1];
  }

  /** Every move of the thread keeps the invariant. */
  lemma StepKeepsHandlersInert(w: World, env: Env)
    requires HandlersInert(w)
    ensures HandlersInert(Step(w, env))
  {
    var r := Step(w, env);
    if w.stack != [] {
      forall p | 0 <= p < |r.ps| && r.ps[p].status != Pending && r.ps[p].handlers != []
        ensures Draining(r.stack, p)
      {
        MicroKeepsDrain(w, env, p);
      }
    }
  }

  lemma MicroKeepsDrain(w: World, env: Env, p: PromiseId)
    requires HandlersInert(w) && w.stack != []
    requires var r := Micro(w, env); p < |r.ps| && r.ps[p].status != Pending && r.ps[p].handlers != []
    ensures Draining(Micro(w, env).stack, p)
  {
    var r := Micro(w, env);
    var top := w.stack[0];
    MicroFrames(w, env);
    if top.Drain? && top.p == p {
      // The last visit of a walk empties the list, so this is not the last
      // visit and the walk stays on the stack.
      DrainMoves(w, env);
      assert r.stack[1].Drain? && r.stack[1].p == p;
    } else if top.Settle? && top.p == p {
      SettleMoves(w, env);
    } else {
      MicroKeepsOthers(w, env, p);
      DrainingSurvives(w.stack, r.stack, p);
    }
  }

  /** A visit of a walk either ends it, emptying the list and keeping status
      and value, or calls the next handler with the promise's current value
      and keeps walking over the entries after it. */
  lemma DrainMoves(w: World, env: Env)
    requires w.stack != [] && w.stack[0].Drain? && w.stack[0].p < |w.ps|
    ensures var d := w.stack[0];
            var r := Micro(w, env);
            && (d.rest == [] ==>
                  && r.ps == w.ps[d.p := Record(w.ps[d.p].status, w.ps[d.p].value, [])]
                  && r.stack == w.stack[1..])
            && (d.rest != [] ==>
                  && r.ps == w.ps
                  && r.stack == [Fire(d.rest[0], d.side, w.ps[d.p].value), Drain(d.p, d.rest[1..], d.side)] + w.stack[1..])
  {
  }

  /** A settle call starts the walk over the list it finds. */
  lemma SettleMoves(w: World, env: Env)
    requires w.stack != [] && w.stack[0].Settle? && w.stack[0].p < |w.ps|
    ensures var s := w.stack[0];
            var r := Micro(w, env);
            r.stack != [] && r.stack[0] == Drain(s.p, w.ps[s.p].handlers, s.side)
  {
  }

  /** The second test of `enqueueOrExecuteHandler`, run after the fulfilment
      adapter returned: it calls the rejection adapter exactly when the parent
      is rejected by then, and otherwise does nothing. */
  lemma RecheckMoves(w: World, env: Env)
    requires w.stack != [] && w.stack[0].Recheck? && w.stack[0].p < |w.ps|
    ensures var c := w.stack[0];
            var r := Micro(w, env);
            && r.ps == w.ps && r.queue == w.queue
            && (w.ps[c.p].status == Rejected ==> r.stack == [Fire(c.h, Reject, w.ps[c.p].value)] + w.stack[1..])
            && (w.ps[c.p].status != Rejected ==> r.stack == w.stack[1..])
  {
  }

  /** A move whose frame neither settles nor drains `p` leaves `p`'s record alone. */
  lemma MicroKeepsOthers(w: World, env: Env, p: PromiseId)
    requires w.stack != [] && p < |w.ps|
    requires !(w.stack[0].Drain? && w.stack[0].p == p) && !(w.stack[0].Settle? && w.stack[0].p == p)
    ensures p < |Micro(w, env).ps| && Micro(w, env).ps[p] == w.ps[p]
  {
    var top := w.stack[0];
    if top.Fire? {
      var r := Micro(w, env);
      AdapterFrames(w.(stack := w.stack[1..]), top.h, top.side, top.v, env);
      assert r.ps[..|w.ps|] == w.ps;
    }
  }

  /** An outside settle call keeps the invariant. */
  lemma DeliverKeepsHandlersInert(w: World, p: PromiseId, side: Side, v: Value)
    requires w.stack == [] && HandlersInert(w)
    ensures HandlersInert(Deliver(w, p, side, v))
  {
  }

  /** A fresh record (constructor, `then`, `all`, `race`) has no handlers, so
      adding it keeps the invariant. */
  lemma GrowKeepsHandlersInert(w: World, r: World)
    requires HandlersInert(w) && r.stack == w.stack
    requires |r.ps| >= |w.ps| && r.ps[..|w.ps|] == w.ps
    requires forall j :: |w.ps| <= j < |r.ps| ==> r.ps[j].handlers == []
    ensures HandlersInert(r)
  {
    forall p | 0 <= p < |r.ps| && r.ps[p].status != Pending && r.ps[p].handlers != []
      ensures Draining(r.stack, p)
    {
      assert p < |w.ps|;
      assert r.ps[p] == w.ps[p];
    }
  }

  /** The things a program can do to the world: call the public operations,
      let an outside timer settle a promise through a retained capability
      (only between turns), or let the thread move. */
  datatype Op =
    | Construct(script: seq<ExecStep>)
    | ThenOp(p: PromiseId, onF: Option<Callback>, onR: Option<Callback>)
    | CatchOp(p: PromiseId, f: Callback)
    | AllOp(vals: seq<Value>)
    | RaceOp(vals: seq<Value>)
    | DeliverOp(p: PromiseId, side: Side, v: Value)
    | StepOp

  function Apply(w: World, op: Op, env: Env): World
  {
    match op
    case Construct(script) => NewPromise(w, script).w
    case ThenOp(p, onF, onR) => Then(w, p, onF, onR).w
    case CatchOp(p, f) => Catch(w, p, f).w
    case AllOp(vals) => All(w, vals).w
    case RaceOp(vals) => Race(w, vals).w
    case DeliverOp(p, side, v) => if w.stack == [] then Deliver(w, p, side, v) else w
    case StepOp => Step(w, env)
  }

  /** The world reached from the empty world by `ops`. */
  function Replay(ops: seq<Op>, env: Env): World
    decreases |ops|
  {
    if ops == [] then Empty
    else Apply(Replay(ops[..|ops| - 1], env), ops[|ops| - 1], env)
  }

  lemma ApplyKeepsHandlersInert(w: World, op: Op, env: Env)
    requires HandlersInert(w)
    ensures HandlersInert(Apply(w, op, env))
  {
    match op
    case Construct(script) => GrowKeepsHandlersInert(w, NewPromise(w, script).w);
    case ThenOp(p, onF, onR) => GrowKeepsHandlersInert(w, Then(w, p, onF, onR).w);
    case CatchOp(p, f) => GrowKeepsHandlersInert(w, Catch(w, p, f).w);
    case AllOp(vals) =>
      AllFacts(w, vals);
      GrowKeepsHandlersInert(w, All(w, vals).w);
    case RaceOp(vals) =>
      RaceFacts(w, vals);
      GrowKeepsHandlersInert(w, Race(w, vals).w);
    case DeliverOp(p, side, v) =>
      if w.stack == [] {
        DeliverKeepsHandlersInert(w, p, side, v);
      }
    case StepOp => StepKeepsHandlersInert(w, env);
  }

  lemma {:induction false} ReplayHandlersInert(ops: seq<Op>, env: Env)
    ensures HandlersInert(Replay(ops, env))
    decreases |ops|
  {
    if ops != [] {
      ReplayHandlersInert(ops[..|ops| - 1], env);
      ApplyKeepsHandlersInert(Replay(ops[..|ops| - 1], env), ops[|ops| - 1], env);
    }
  }

  /** Between turns, in every reachable world, a settled promise holds no
      handlers: its list was emptied when the walk over it ended. */
  lemma SettledHandlersEmptyWhenIdle(ops: seq<Op>, env: Env, p: PromiseId)
    requires var w := Replay(ops, env); w.stack == [] && p < |w.ps| && w.ps[p].status != Pending
    ensures Replay(ops, env).ps[p].handlers == []
  {
    ReplayHandlersInert(ops, env);
  }

  /** A settled promise never becomes pending again (although, with no guard
      in `fulfill`/`reject`, it may change from one settled state to the other). */
  lemma StepNeverUnsettles(w: World, env: Env, p: PromiseId)
    requires p < |w.ps| && w.ps[p].status != Pending
    ensures p < |Step(w, env).ps| && Step(w, env).ps[p].status != Pending
  {
    var r := Step(w, env);
    if w.stack != [] && w.stack[0].Fire? {
      var top := w.stack[0];
      AdapterFrames(w.(stack := w.stack[1..]), top.h, top.side, top.v, env);
      assert r.ps[..|w.ps|] == w.ps;
      assert r.ps[p] == w.ps[p];
    }
  }

  /** Timers run in the order they were set: a move either runs the oldest
      one (and sets none) or only appends at most one new one. */
  lemma StepQueueIsFifo(w: World, env: Env)
    ensures var r := Step(w, env);
            if w.stack == [] && w.queue != [] then r.queue == w.queue[1..]
            else w.queue <= r.queue && |r.queue| <= |w.queue| + 1
  {
    if w.stack != [] {
      MicroFrames(w, env);
    }
  }
}
