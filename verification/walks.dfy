/**
 The `forEach` of `fulfill` and `reject` followed across the whole cascade it
 starts: each handler queued when the settle call began is called exactly
 once, in the order it was registered, whatever the handlers themselves set
 off in between, and the list is emptied once the walk is over.
 */
module Walks {
  import opened Types
  import opened Promises
  import opened Invariants

  /** The walk of `p`'s list `hs` sits directly above the caller's frames
      `below`, with `hs[k..]` still to visit; every frame above it was started
      by the handlers already visited. */
  ghost predicate Walking(w: World, p: PromiseId, hs: seq<Handler>, side: Side, below: seq<Frame>, k: nat)
  {
    && p < |w.ps| && k <= |hs|
    && |w.stack| > |below| && w.stack[|w.stack| - |below|..] == below
    && w.stack[|w.stack| - |below| - 1] == Drain(p, hs[k..], side)
  }

  /** One move of the thread, as a function value. */
  function Mover(env: Env): World -> World
  {
    w => Step(w, env)
  }

  /** The handlers the walk directly above `below` visits during `n` moves
      `next`, up to the move that ends it. */
  function WalkLog(next: World -> World, w: World, n: nat, below: seq<Frame>): seq<Handler>
    decreases n
  {
    if n == 0 || |w.stack| <= |below| then []
    else
      var visit := if |w.stack| == |below| + 1 && w.stack[0].Drain? && w.stack[0].rest != []
                   then [w.stack[0].rest[0]] else [];
      visit + WalkLog(next, next(w), n - 1, below)
  }

  /** At most `n` moves `next`, stopping as soon as only the frames `below`
      are left. */
  function RunWithin(next: World -> World, w: World, n: nat, below: seq<Frame>): World
    decreases n
  {
    if n == 0 || |w.stack| <= |below| then w else RunWithin(next, next(w), n - 1, below)
  }

  /** A walk survives any change of world that keeps the frames below the
      top one and does not shrink the promise table. */
  lemma WalkSurvives(w: World, r: World, p: PromiseId, hs: seq<Handler>, side: Side, below: seq<Frame>, k: nat)
    requires Walking(w, p, hs, side, below, k) && |w.stack| > |below| + 1
    requires |r.ps| >= |w.ps|
    requires |r.stack| >= |w.stack| - 1 && r.stack[|r.stack| - (|w.stack| - 1)..] == w.stack[1..]
    ensures Walking(r, p, hs, side, below, k)
  {
    var m := |r.stack| - (|w.stack| - 1);
    var j := |w.stack| - 1 - |below|;
    assert r.stack[|r.stack| - |below|..] == r.stack[m..][j..];
    assert w.stack[1..][j..] == w.stack[|w.stack| - |below|..];
    assert r.stack[|r.stack| - |below| - 1] == r.stack[m..][j - 1];
  }

  /** A move above the walk, made by work a handler started, leaves the walk
      where it is. */
  lemma WalkWaits(w: World, env: Env, p: PromiseId, hs: seq<Handler>, side: Side, below: seq<Frame>, k: nat)
    requires Walking(w, p, hs, side, below, k) && |w.stack| > |below| + 1
    ensures Walking(Step(w, env), p, hs, side, below, k)
  {
    MicroFrames(w, env);
    WalkSurvives(w, Micro(w, env), p, hs, side, below, k);
  }

  /** A visit of the walk calls the next handler with `p`'s current value;
      the visit after the last handler empties the list and returns to the
      caller. */
  lemma WalkVisits(w: World, env: Env, p: PromiseId, hs: seq<Handler>, side: Side, below: seq<Frame>, k: nat)
    requires Walking(w, p, hs, side, below, k) && |w.stack| == |below| + 1
    ensures var r := Step(w, env);
            && (k < |hs| ==>
                  && r.stack == [Fire(hs[k], side, w.ps[p].value), Drain(p, hs[k + 1..], side)] + below
                  && r.ps == w.ps
                  && Walking(r, p, hs, side, below, k + 1))
            && (k == |hs| ==>
                  r.stack == below && r.ps == w.ps[p := Record(w.ps[p].status, w.ps[p].value, [])])
  {
    assert w.stack[0] == Drain(p, hs[k..], side);
    assert w.stack[1..] == below;
    DrainMoves(w, env);
    var r := Micro(w, env);
    if k < |hs| {
      assert hs[k..][0] == hs[k] && hs[k..][1..] == hs[k + 1..];
      assert r.stack[2..] == below;
    }
  }

  /** What a move does to a walk: work above it leaves it in place, a visit
      advances it by one handler, and the visit past the end returns to the
      caller with the list emptied. */
  ghost predicate MovesWalk(next: World -> World, p: PromiseId, hs: seq<Handler>, side: Side, below: seq<Frame>)
  {
    forall w, k: nat {:trigger next(w), Walking(w, p, hs, side, below, k)} | Walking(w, p, hs, side, below, k) ::
      && (|w.stack| > |below| + 1 ==> Walking(next(w), p, hs, side, below, k))
      && (|w.stack| == |below| + 1 && k < |hs| ==> Walking(next(w), p, hs, side, below, k + 1))
      && (|w.stack| == |below| + 1 && k == |hs| ==>
            next(w).stack == below && p < |next(w).ps| && next(w).ps[p].handlers == [])
  }

  lemma StepMovesWalk(env: Env, p: PromiseId, hs: seq<Handler>, side: Side, below: seq<Frame>)
    ensures MovesWalk(Mover(env), p, hs, side, below)
  {
    forall w, k: nat | Walking(w, p, hs, side, below, k)
      ensures && (|w.stack| > |below| + 1 ==> Walking(Mover(env)(w), p, hs, side, below, k))
              && (|w.stack| == |below| + 1 && k < |hs| ==> Walking(Mover(env)(w), p, hs, side, below, k + 1))
              && (|w.stack| == |below| + 1 && k == |hs| ==>
                    Mover(env)(w).stack == below && p < |Mover(env)(w).ps| && Mover(env)(w).ps[p].handlers == [])
    {
      assert Mover(env)(w) == Step(w, env);
      if |w.stack| > |below| + 1 {
        WalkWaits(w, env, p, hs, side, below, k);
      } else {
        WalkVisits(w, env, p, hs, side, below, k);
      }
    }
  }

  /** The log of a run whose first move is a visit of handler `hs[k]`. */
  lemma LogAfterVisit(next: World -> World, w: World, n: nat, p: PromiseId, hs: seq<Handler>, side: Side, below: seq<Frame>, k: nat)
    requires n > 0 && k < |hs| && |w.stack| == |below| + 1 && w.stack[0] == Drain(p, hs[k..], side)
    requires var rest := WalkLog(next, next(w), n - 1, below);
             k + 1 + |rest| <= |hs| && rest == hs[k + 1..k + 1 + |rest|]
    ensures var log := WalkLog(next, w, n, below);
            && k + |log| <= |hs| && log == hs[k..k + |log|]
            && |log| == |WalkLog(next, next(w), n - 1, below)| + 1
            && RunWithin(next, w, n, below) == RunWithin(next, next(w), n - 1, below)
  {
    var rest := WalkLog(next, next(w), n - 1, below);
    assert WalkLog(next, w, n, below) == [hs[k]] + rest;
    assert [hs[k]] + hs[k + 1..k + 1 + |rest|] == hs[k..k + 1 + |rest|];
  }

  /** The log of a run whose first move is made above the walk. */
  lemma LogAfterWait(next: World -> World, w: World, n: nat, below: seq<Frame>)
    requires n > 0 && |w.stack| > |below| + 1
    ensures WalkLog(next, w, n, below) == WalkLog(next, next(w), n - 1, below)
    ensures RunWithin(next, w, n, below) == RunWithin(next, next(w), n - 1, below)
  {
  }

  /** The log of a run whose first move ends the walk. */
  lemma LogAtEnd(next: World -> World, w: World, n: nat, p: PromiseId, hs: seq<Handler>, side: Side, below: seq<Frame>)
    requires n > 0 && |w.stack| == |below| + 1 && w.stack[0] == Drain(p, hs[|hs|..], side)
    requires |next(w).stack| <= |below|
    ensures WalkLog(next, w, n, below) == [] && RunWithin(next, w, n, below) == next(w)
  {
  }

  /** One move from a walk, read off `MovesWalk`. */
  lemma MoveOnce(next: World -> World, w: World, p: PromiseId, hs: seq<Handler>, side: Side, below: seq<Frame>, k: nat)
    requires MovesWalk(next, p, hs, side, below) && Walking(w, p, hs, side, below, k)
    ensures |w.stack| > |below| + 1 ==> Walking(next(w), p, hs, side, below, k)
    ensures |w.stack| == |below| + 1 ==> w.stack[0] == Drain(p, hs[k..], side)
    ensures |w.stack| == |below| + 1 && k < |hs| ==> Walking(next(w), p, hs, side, below, k + 1)
    ensures |w.stack| == |below| + 1 && k == |hs| ==>
              next(w).stack == below && p < |next(w).ps| && next(w).ps[p].handlers == []
  {
  }

  /** What `WalkRuns` promises for a walk at `w` with `hs[k..]` to visit,
      followed for `n` moves. */
  ghost predicate WalkOutcome(next: World -> World, w: World, n: nat, p: PromiseId, hs: seq<Handler>, side: Side, below: seq<Frame>, k: nat)
  {
    var log := WalkLog(next, w, n, below);
    var r := RunWithin(next, w, n, below);
    && k + |log| <= |hs| && log == hs[k..k + |log|]
    && (|r.stack| > |below| ==> Walking(r, p, hs, side, below, k + |log|))
    && (|r.stack| <= |below| ==>
          log == hs[k..] && r.stack == below && p < |r.ps| && r.ps[p].handlers == [])
  }

  /** Followed over any number of moves, the walk has visited a prefix of
      `hs[k..]`, in order, and is still under way; or it has visited all of
      `hs[k..]`, returned to the caller and left `p`'s list empty. */
  lemma {:induction false} WalkRuns(next: World -> World, w: World, n: nat, p: PromiseId, hs: seq<Handler>, side: Side, below: seq<Frame>, k: nat)
    requires MovesWalk(next, p, hs, side, below) && Walking(w, p, hs, side, below, k)
    ensures var log := WalkLog(next, w, n, below);
            var r := RunWithin(next, w, n, below);
            && k + |log| <= |hs| && log == hs[k..k + |log|]
            && (|r.stack| > |below| ==> Walking(r, p, hs, side, below, k + |log|))
            && (|r.stack| <= |below| ==>
                  log == hs[k..] && r.stack == below && p < |r.ps| && r.ps[p].handlers == [])
    decreases n, 1
  {
    if n > 0 {
      MoveOnce(next, w, p, hs, side, below, k);
      if |w.stack| > |below| + 1 {
        WalkRunsWaiting(next, w, n, p, hs, side, below, k);
      } else if k < |hs| {
        WalkRunsVisiting(next, w, n, p, hs, side, below, k);
      } else {
        LogAtEnd(next, w, n, p, hs, side, below);
      }
    }
  }

  lemma {:induction false} WalkRunsWaiting(next: World -> World, w: World, n: nat, p: PromiseId, hs: seq<Handler>, side: Side, below: seq<Frame>, k: nat)
    requires MovesWalk(next, p, hs, side, below) && n > 0 && |w.stack| > |below| + 1
    requires Walking(next(w), p, hs, side, below, k)
    ensures WalkOutcome(next, w, n, p, hs, side, below, k)
    decreases n, 0
  {
    WalkRuns(next, next(w), n - 1, p, hs, side, below, k);
    LogAfterWait(next, w, n, below);
  }

  lemma {:induction false} WalkRunsVisiting(next: World -> World, w: World, n: nat, p: PromiseId, hs: seq<Handler>, side: Side, below: seq<Frame>, k: nat)
    requires MovesWalk(next, p, hs, side, below) && n > 0 && k < |hs|
    requires |w.stack| == |below| + 1 && w.stack[0] == Drain(p, hs[k..], side)
    requires Walking(next(w), p, hs, side, below, k + 1)
    ensures WalkOutcome(next, w, n, p, hs, side, below, k)
    decreases n, 0
  {
    WalkRuns(next, next(w), n - 1, p, hs, side, below, k + 1);
    LogAfterVisit(next, w, n, p, hs, side, below, k);
  }

  /** `fulfill(v)` / `reject(v)` on `p`: status and value are written, and
      the handlers queued at that moment are then called one by one, each
      exactly once and in registration order; when the walk is over the
      caller's frames are back on top and `p`'s list is empty. */
  lemma SettleCallsEveryHandler(w: World, env: Env, p: PromiseId, side: Side, v: Value, n: nat)
    requires w.stack != [] && w.stack[0] == Settle(p, side, v) && p < |w.ps|
    ensures var hs := w.ps[p].handlers;
            var below := w.stack[1..];
            var w1 := Step(w, env);
            && w1.ps == w.ps[p := Record(StatusOf(side), v, hs)]
            && var log := WalkLog(Mover(env), w1, n, below);
               var r := RunWithin(Mover(env), w1, n, below);
               && |log| <= |hs| && log == hs[..|log|]
               && (|r.stack| <= |below| ==> log == hs && r.stack == below && p < |r.ps| && r.ps[p].handlers == [])
  {
    var hs := w.ps[p].handlers;
    var below := w.stack[1..];
    var w1 := Step(w, env);
    SettleMoves(w, env);
    assert w1.stack == [Drain(p, hs, side)] + below;
    assert hs[0..] == hs;
    assert Walking(w1, p, hs, side, below, 0);
    StepMovesWalk(env, p, hs, side, below);
    WalkRuns(Mover(env), w1, n, p, hs, side, below, 0);
    var log := WalkLog(Mover(env), w1, n, below);
    assert hs[0..0 + |log|] == hs[..|log|];
  }
}
