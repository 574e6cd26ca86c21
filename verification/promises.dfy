/**
 The promise world: every promise object, the queue of zero-delay timers set
 by `then`, and the synchronous call stack of the settle cascade. Each public
 operation of the core is a pure function from world to world; `Step` is one
 move of the single JavaScript thread.
 */
module Promises {
  import opened Types
  import opened Aggregators

  datatype World = World(
    ps: seq<Record>,          // promise id -> status, value, handlers
    queue: seq<Task>,         // pending zero-delay timers, oldest first
    stack: seq<Frame>,        // synchronous call stack, innermost first
    alls: seq<AllState>,      // the variables of each `all` executor
    races: seq<RaceState>)    // the variables of each `race` executor

  const Empty: World := World([], [], [], [], [])

  /** A world together with the promise an operation returned. */
  datatype Made = Made(w: World, id: PromiseId)

  function Alloc(w: World, rec: Record): (r: Made)
  {
    Made(w.(ps := w.ps + [rec]), |w.ps|)
  }

  function Push(w: World, fs: seq<Frame>): (r: World)
  {
    w.(stack := fs + w.stack)
  }

  /** The `value` field of `p`, read by `fulfill`/`reject` for every handler. */
  function ValueAt(w: World, p: PromiseId): Value
  {
    if p < |w.ps| then w.ps[p].value else Undef
  }

  // ------------------------------------------------------- construction

  /** What an executor does synchronously with its two capabilities: call
      `resolve(v)`, call `reject(v)`, or throw `v` (which ends it). */
  datatype ExecStep = CallResolve(v: Value) | CallReject(v: Value) | Raise(v: Value)

  /** The steps of an executor that actually run: all of them up to and
      including the first throw. */
  function Executed(script: seq<ExecStep>): (r: seq<ExecStep>)
    ensures |r| <= |script| && r == script[..|r|]
    ensures forall k :: 0 <= k < |r| - 1 ==> !r[k].Raise?
    ensures |r| < |script| ==> r != [] && r[|r| - 1].Raise?
    decreases |script|
  {
    if script == [] then []
    else if script[0].Raise? then [script[0]]
    else [script[0]] + Executed(script[1..])
  }

  /** `run`: the executor's capabilities call `fulfill` / `reject` on the new
      promise with no guard, and a throw is caught and passed to `reject`.
      The last call that ran decides status and value. */
  function RunExecutor(rec: Record, script: seq<ExecStep>): (r: Record)
    requires rec.handlers == []
    ensures r.handlers == []
    ensures Executed(script) == [] ==> r == rec
    ensures Executed(script) != [] ==>
              var last := Executed(script)[|Executed(script)| - 1];
              r.value == last.v && r.status == (if last.CallResolve? then Fulfilled else Rejected)
    decreases |script|
  {
    if script == [] then rec
    else
      match script[0]
      case CallResolve(v) => RunExecutor(Record(Fulfilled, v, []), script[1..])
      case CallReject(v) => RunExecutor(Record(Rejected, v, []), script[1..])
      case Raise(e) => Record(Rejected, e, [])
  }

  /** `new Promise(executor)`: a fresh record (pending, `null`, no handlers)
      to which the executor's synchronous steps are applied. */
  function NewPromise(w: World, script: seq<ExecStep>): (r: Made)
    ensures r.id == |w.ps| && r.w.ps == w.ps + [RunExecutor(Fresh, script)]
    ensures r.w.queue == w.queue && r.w.stack == w.stack
    ensures r.w.alls == w.alls && r.w.races == w.races
  {
    Alloc(w, RunExecutor(Fresh, script))
  }

  /** `Promise.resolve(v)`: fulfilled with `v` itself, even when `v` is a promise. */
  function PromiseResolve(w: World, v: Value): (r: Made)
    ensures r.id == |w.ps| && r.w.ps == w.ps + [Record(Fulfilled, v, [])]
    ensures r.w.queue == w.queue && r.w.stack == w.stack
    ensures r.w.alls == w.alls && r.w.races == w.races
  {
    NewPromise(w, [CallResolve(v)])
  }

  /** `Promise.reject(e)`: rejected with `e`. */
  function PromiseReject(w: World, e: Value): (r: Made)
    ensures r.id == |w.ps| && r.w.ps == w.ps + [Record(Rejected, e, [])]
    ensures r.w.queue == w.queue && r.w.stack == w.stack
    ensures r.w.alls == w.alls && r.w.races == w.races
  {
    NewPromise(w, [CallReject(e)])
  }

  // ------------------------------------------------------- then / catch

  /** `p.then(onF, onR)`: a fresh pending promise whose executor only sets a
      zero-delay timer; the parent is not touched until that timer runs. */
  function Then(w: World, p: PromiseId, onF: Option<Callback>, onR: Option<Callback>): (r: Made)
    ensures r.id == |w.ps| && r.w.ps == w.ps + [Fresh]
    ensures r.w.queue == w.queue + [Register(p, Handler(r.id, onF, onR))]
    ensures r.w.stack == w.stack && r.w.alls == w.alls && r.w.races == w.races
  {
    var m := Alloc(w, Fresh);
    Made(m.w.(queue := m.w.queue + [Register(p, Handler(m.id, onF, onR))]), m.id)
  }

  /** `p.catch(f)` (also spelled `rescue`): `then` with no fulfilment callback. */
  function Catch(w: World, p: PromiseId, f: Callback): (r: Made)
    ensures r.id == |w.ps| && r.w.ps == w.ps + [Fresh]
    ensures r.w.queue == w.queue + [Register(p, Handler(r.id, None, Some(f)))]
    ensures r.w.stack == w.stack && r.w.alls == w.alls && r.w.races == w.races
  {
    Then(w, p, None, Some(f))
  }

  /** `enqueueOrExecuteHandler`: append to a pending promise's list, or call
      the adapter matching the settled status at once. After a fulfilment
      call the status is checked again (`Recheck`). */
  function EnqueueOrExecute(w: World, p: PromiseId, h: Handler): (r: World)
    ensures r.queue == w.queue && r.alls == w.alls && r.races == w.races && |r.ps| == |w.ps|
    ensures p >= |w.ps| ==> r == w
    ensures p < |w.ps| && w.ps[p].status == Pending ==>
              && r.ps == w.ps[p := Record(Pending, w.ps[p].value, w.ps[p].handlers + [h])]
              && r.stack == w.stack
    ensures p < |w.ps| && w.ps[p].status == Fulfilled ==>
              r.ps == w.ps && r.stack == [Fire(h, Fulfil, w.ps[p].value), Recheck(p, h)] + w.stack
    ensures p < |w.ps| && w.ps[p].status == Rejected ==>
              r.ps == w.ps && r.stack == [Fire(h, Reject, w.ps[p].value)] + w.stack
  {
    if p >= |w.ps| then w
    else
      var rec := w.ps[p];
      match rec.status
      case Pending => w.(ps := w.ps[p := rec.(handlers := rec.handlers + [h])])
      case Fulfilled => Push(w, [Fire(h, Fulfil, rec.value), Recheck(p, h)])
      case Rejected => Push(w, [Fire(h, Reject, rec.value)])
  }

  // ------------------------------------------------------- the adapters

  /** The `resolve` or `reject` call of the adapter for an outcome of a user callback. */
  function Conclude(t: PromiseId, o: Outcome): (f: Frame)
    ensures o.Ok? ==> f == Settle(t, Fulfil, o.v)
    ensures o.Throw? ==> f == Settle(t, Reject, o.e)
  {
    match o
    case Ok(x) => Settle(t, Fulfil, x)
    case Throw(e) => Settle(t, Reject, e)
  }

  /** The record a settled then-promise ends with for a callback outcome. */
  function SettledBy(o: Outcome): (r: Record)
    ensures r.handlers == [] && r.status != Pending
    ensures o.Ok? <==> r.status == Fulfilled
    ensures r.value == (if o.Ok? then o.v else o.e)
  {
    match o
    case Ok(x) => Record(Fulfilled, x, [])
    case Throw(e) => Record(Rejected, e, [])
  }

  function EffectFrames(result: PromiseId, e: Effect): seq<Frame>
  {
    match e
    case NoEffect => []
    case SettleResult(side, v) => [Settle(result, side, v)]
  }

  /** One call of an `all` closure on aggregator `a`: the updated world and the
      settle call it makes on the combined promise, if any. */
  function CallAll(w: World, a: nat, ev: AllEvent): (r: (World, seq<Frame>))
    ensures r.0 == w.(alls := r.0.alls) && |r.0.alls| == |w.alls|
    ensures a < |w.alls| ==>
              var (s, e) := AllOn(w.alls[a], ev);
              r.0.alls == w.alls[a := s] && r.1 == EffectFrames(w.alls[a].result, e)
  {
    if a < |w.alls| then
      var (s, e) := AllOn(w.alls[a], ev);
      (w.(alls := w.alls[a := s]), EffectFrames(w.alls[a].result, e))
    else (w, [])
  }

  /** One call of a `race` closure on aggregator `a`. */
  function CallRace(w: World, a: nat, ev: Arrival): (r: (World, seq<Frame>))
    ensures r.0 == w.(races := r.0.races) && |r.0.races| == |w.races|
    ensures a < |w.races| ==>
              var (s, e) := RaceOn(w.races[a], ev);
              r.0.races == w.races[a := s] && r.1 == EffectFrames(w.races[a].result, e)
  {
    if a < |w.races| then
      var (s, e) := RaceOn(w.races[a], ev);
      (w.(races := w.races[a := s]), EffectFrames(w.races[a].result, e))
    else (w, [])
  }

  /** A combinator closure returns `undefined`, so after it ran the adapter
      fulfils its own target with `undefined`. */
  function AfterClosure(r: (World, seq<Frame>), t: PromiseId): World
  {
    Push(r.0, r.1 + [Settle(t, Fulfil, Undef)])
  }

  /** The adapter calls callback `cb` with `v` and settles `t` with the outcome. */
  function Invoke(w: World, cb: Callback, v: Value, t: PromiseId, env: Env): (r: World)
  {
    match cb
    case User(f) => Push(w, [Conclude(t, env(f, v))])
    case AllFulfilled(a, i) => AfterClosure(CallAll(w, a, Slot(i, v)), t)
    case AllRejected(a) => AfterClosure(CallAll(w, a, Fail(v)), t)
    case RaceFulfilled(a) => AfterClosure(CallRace(w, a, Arrival(Fulfil, v)), t)
    case RaceRejected(a) => AfterClosure(CallRace(w, a, Arrival(Reject, v)), t)
  }

  /** The two closures `then` hands to `enqueueOrExecuteHandler`, called with
      `v`. On fulfilment a promise value is unwrapped one level by calling its
      `then` with the same callbacks; a missing callback forwards; a present
      one settles the target with its outcome, and a rejection callback that
      returns recovers (fulfils). */
  function Adapter(w: World, h: Handler, side: Side, v: Value, env: Env): (r: World)
  {
    match side
    case Fulfil =>
      if v.Ref? then
        var m := Then(w, v.id, h.onFulfilled, h.onRejected);
        Push(m.w, [Settle(h.target, Fulfil, Ref(m.id))])
      else if h.onFulfilled.None? then Push(w, [Settle(h.target, Fulfil, v)])
      else Invoke(w, h.onFulfilled.value, v, h.target, env)
    case Reject =>
      if h.onRejected.None? then Push(w, [Settle(h.target, Reject, v)])
      else Invoke(w, h.onRejected.value, v, h.target, env)
  }

  // ------------------------------------------------------- one move

  /** Run the innermost frame of the synchronous call stack. */
  function Micro(w: World, env: Env): (r: World)
    requires w.stack != []
  {
    var rest := w.stack[1..];
    var w0 := w.(stack := rest);
    match w.stack[0]
    case Settle(p, side, v) =>
      if p < |w.ps| then
        var hs := w.ps[p].handlers;
        Push(w0.(ps := w.ps[p := Record(StatusOf(side), v, hs)]), [Drain(p, hs, side)])
      else w0
    case Drain(p, hs, side) =>
      if hs == [] then
        if p < |w.ps| then w0.(ps := w.ps[p := w.ps[p].(handlers := [])]) else w0
      else Push(w0, [Fire(hs[0], side, ValueAt(w, p)), Drain(p, hs[1..], side)])
    case Fire(h, side, v) => Adapter(w0, h, side, v, env)
    case Recheck(p, h) =>
      if p < |w.ps| && w.ps[p].status == Rejected then Push(w0, [Fire(h, Reject, w.ps[p].value)])
      else w0
  }

  /** A user callback or a combinator closure only pushes frames: the
      promise table and the timers are untouched. */
  lemma InvokeFrames(w: World, cb: Callback, v: Value, t: PromiseId, env: Env)
    ensures var r := Invoke(w, cb, v, t, env);
            && r.ps == w.ps && r.queue == w.queue
            && |r.stack| > |w.stack| && r.stack[|r.stack| - |w.stack|..] == w.stack
  {
  }

  /** An adapter pushes at least one frame over the caller's stack, may add
      fresh promises (the one-level unwrap calls `then`) and sets at most one
      timer. */
  lemma AdapterFrames(w: World, h: Handler, side: Side, v: Value, env: Env)
    ensures var r := Adapter(w, h, side, v, env);
            && |r.ps| >= |w.ps| && r.ps[..|w.ps|] == w.ps
            && (forall j :: |w.ps| <= j < |r.ps| ==> r.ps[j] == Fresh)
            && w.queue <= r.queue && |r.queue| <= |w.queue| + 1
            && |r.stack| > |w.stack| && r.stack[|r.stack| - |w.stack|..] == w.stack
  {
    if side == Fulfil && !v.Ref? && h.onFulfilled.Some? {
      InvokeFrames(w, h.onFulfilled.value, v, h.target, env);
    } else if side == Reject && h.onRejected.Some? {
      InvokeFrames(w, h.onRejected.value, v, h.target, env);
    }
  }

  /** A move of the call stack replaces the innermost frame and leaves the
      frames below it in place; promises are only added (as fresh records) and
      at most one timer is set. */
  lemma MicroFrames(w: World, env: Env)
    requires w.stack != []
    ensures var r := Micro(w, env);
            && |r.stack| >= |w.stack| - 1 && r.stack[|r.stack| - (|w.stack| - 1)..] == w.stack[1..]
            && |r.ps| >= |w.ps|
            && (forall j :: |w.ps| <= j < |r.ps| ==> r.ps[j] == Fresh)
            && w.queue <= r.queue && |r.queue| <= |w.queue| + 1
  {
    var r := Micro(w, env);
    var rest := w.stack[1..];
    match w.stack[0]
    case Settle(p, side, v) =>
      assert r.ps == w.ps || (p < |w.ps| && r.ps == w.ps[p := Record(StatusOf(side), v, w.ps[p].handlers)]);
      assert r.stack[|r.stack| - |rest|..] == rest;
    case Drain(p, hs, side) =>
      assert r.stack[|r.stack| - |rest|..] == rest;
    case Fire(h, side, v) =>
      AdapterFrames(w.(stack := rest), h, side, v, env);
    case Recheck(p, h) =>
      assert r.stack[|r.stack| - |rest|..] == rest;
  }

  /** The event loop takes the oldest timer, with an empty call stack. */
  function RunTask(w: World): (r: World)
    requires w.stack == [] && w.queue != []
    ensures r.queue == w.queue[1..]
  {
    var t := w.queue[0];
    EnqueueOrExecute(w.(queue := w.queue[1..]), t.parent, t.h)
  }

  /** An outside event (a timer of the caller) invokes a retained `resolve`
      or `reject` capability of `p`. */
  function Deliver(w: World, p: PromiseId, side: Side, v: Value): (r: World)
    requires w.stack == []
    ensures r == w.(stack := [Settle(p, side, v)])
  {
    Push(w, [Settle(p, side, v)])
  }

  /** One move of the thread: the call stack first, then the oldest timer;
      an idle world stays as it is. */
  function Step(w: World, env: Env): World
  {
    if w.stack != [] then Micro(w, env)
    else if w.queue != [] then RunTask(w)
    else w
  }

  function Run(w: World, env: Env, n: nat): World
    decreases n
  {
    if n == 0 then w else Run(Step(w, env), env, n - 1)
  }

  // ------------------------------------------------------- all / race

  /** The `forEach` that keeps promise inputs and wraps the others with
      `Promise.resolve`. */
  function Wrap(w: World, vals: seq<Value>): (r: (World, seq<PromiseId>))
    ensures |r.1| == |vals|
    decreases |vals|
  {
    if vals == [] then (w, [])
    else
      var m := if vals[0].Ref? then Made(w, vals[0].id) else PromiseResolve(w, vals[0]);
      var (w', ids) := Wrap(m.w, vals[1..]);
      (w', [m.id] + ids)
  }

  /** Input i is represented by itself when it is a promise, and otherwise by
      a new promise fulfilled with it; nothing else changes. */
  lemma {:induction false} WrapFacts(w: World, vals: seq<Value>)
    ensures var r := Wrap(w, vals);
            && |r.0.ps| >= |w.ps| && r.0.ps[..|w.ps|] == w.ps
            && (forall j :: |w.ps| <= j < |r.0.ps| ==> r.0.ps[j] == Record(Fulfilled, r.0.ps[j].value, []))
            && (forall i :: 0 <= i < |vals| && vals[i].Ref? ==> r.1[i] == vals[i].id)
            && (forall i :: 0 <= i < |vals| && !vals[i].Ref? ==>
                  |w.ps| <= r.1[i] < |r.0.ps| && r.0.ps[r.1[i]] == Record(Fulfilled, vals[i], []))
            && r.0.queue == w.queue && r.0.stack == w.stack && r.0.alls == w.alls && r.0.races == w.races
    decreases |vals|
  {
    if vals != [] {
      var m := if vals[0].Ref? then Made(w, vals[0].id) else PromiseResolve(w, vals[0]);
      var rest := Wrap(m.w, vals[1..]);
      WrapFacts(m.w, vals[1..]);
      var r := Wrap(w, vals);
      assert r == (rest.0, [m.id] + rest.1);
      assert r.0.ps[..|m.w.ps|] == m.w.ps;
      assert m.w.ps[..|w.ps|] == w.ps;
      forall i | 0 <= i < |vals|
        ensures vals[i].Ref? ==> r.1[i] == vals[i].id
        ensures !vals[i].Ref? ==> |w.ps| <= r.1[i] < |r.0.ps| && r.0.ps[r.1[i]] == Record(Fulfilled, vals[i], [])
      {
        if i == 0 {
          if !vals[0].Ref? {
            assert r.0.ps[m.id] == r.0.ps[..|m.w.ps|][m.id];
          }
        } else {
          assert vals[1..][i - 1] == vals[i];
          assert r.1[i] == rest.1[i - 1];
        }
      }
      forall j | |w.ps| <= j < |r.0.ps|
        ensures r.0.ps[j] == Record(Fulfilled, r.0.ps[j].value, [])
      {
        if j < |m.w.ps| {
          assert r.0.ps[j] == r.0.ps[..|m.w.ps|][j];
        }
      }
    }
  }

  datatype Combinator = AllOf(agg: nat) | RaceOf(agg: nat)

  function OnFulfilledFor(c: Combinator, i: nat): Callback
  {
    match c
    case AllOf(a) => AllFulfilled(a, i)
    case RaceOf(a) => RaceFulfilled(a)
  }

  function OnRejectedFor(c: Combinator): Callback
  {
    match c
    case AllOf(a) => AllRejected(a)
    case RaceOf(a) => RaceRejected(a)
  }

  /** The executor's loop `promises[i].then(onFulfilled_i, onRejected)`,
      starting at index `i0`. */
  function Subscribe(w: World, ids: seq<PromiseId>, c: Combinator, i0: nat): (r: World)
    decreases |ids|
  {
    if ids == [] then w
    else
      var m := Then(w, ids[0], Some(OnFulfilledFor(c, i0)), Some(OnRejectedFor(c)));
      Subscribe(m.w, ids[1..], c, i0 + 1)
  }

  /** One fresh then-promise and one timer per input, in input order; timer j
      registers closure pair `i0 + j` of the combinator on input j. */
  lemma {:induction false} SubscribeFacts(w: World, ids: seq<PromiseId>, c: Combinator, i0: nat)
    ensures var r := Subscribe(w, ids, c, i0);
            && |r.ps| == |w.ps| + |ids| && r.ps[..|w.ps|] == w.ps
            && (forall j :: |w.ps| <= j < |r.ps| ==> r.ps[j] == Fresh)
            && |r.queue| == |w.queue| + |ids| && r.queue[..|w.queue|] == w.queue
            && (forall j :: 0 <= j < |ids| ==>
                  r.queue[|w.queue| + j]
                  == Register(ids[j], Handler(|w.ps| + j, Some(OnFulfilledFor(c, i0 + j)), Some(OnRejectedFor(c)))))
            && r.stack == w.stack && r.alls == w.alls && r.races == w.races
    decreases |ids|
  {
    if ids != [] {
      var m := Then(w, ids[0], Some(OnFulfilledFor(c, i0)), Some(OnRejectedFor(c)));
      SubscribeFacts(m.w, ids[1..], c, i0 + 1);
      var r := Subscribe(w, ids, c, i0);
      assert r == Subscribe(m.w, ids[1..], c, i0 + 1);
      assert r.ps[..|m.w.ps|] == m.w.ps;
      assert r.queue[..|m.w.queue|] == m.w.queue;
      forall j | |w.ps| <= j < |r.ps|
        ensures r.ps[j] == Fresh
      {
        if j < |m.w.ps| {
          assert r.ps[j] == r.ps[..|m.w.ps|][j];
        }
      }
      forall j | 0 <= j < |ids|
        ensures r.queue[|w.queue| + j]
                == Register(ids[j], Handler(|w.ps| + j, Some(OnFulfilledFor(c, i0 + j)), Some(OnRejectedFor(c))))
      {
        if j == 0 {
          assert r.queue[|w.queue|] == r.queue[..|m.w.queue|][|w.queue|];
        } else {
          assert ids[1..][j - 1] == ids[j];
        }
      }
    }
  }

  /** Task `t` of a combinator registers callbacks `onF`/`onR` on the promise
      standing for input value `v`: `v` itself when it is a promise, otherwise a
      promise created at or after id `lo` and fulfilled with `v`. */
  ghost predicate Subscribed(w: World, t: Task, v: Value, lo: nat, onF: Callback, onR: Callback)
  {
    && t.h.onFulfilled == Some(onF) && t.h.onRejected == Some(onR)
    && lo <= t.h.target < |w.ps| && w.ps[t.h.target] == Fresh
    && (v.Ref? ==> t.parent == v.id)
    && (!v.Ref? ==> lo <= t.parent < |w.ps| && w.ps[t.parent] == Record(Fulfilled, v, []))
  }

  /** What `all` and `race` have after wrapping `vals` into `ids` (world `w1`)
      and allocating the combined promise (world `w2`). */
  ghost predicate Wrapped(w: World, vals: seq<Value>, w1: World, ids: seq<PromiseId>, w2: World)
  {
    && |ids| == |vals|
    && |w1.ps| >= |w.ps| && w1.ps[..|w.ps|] == w.ps
    && (forall j :: |w.ps| <= j < |w1.ps| ==> w1.ps[j].handlers == [])
    && (forall i :: 0 <= i < |vals| && vals[i].Ref? ==> ids[i] == vals[i].id)
    && (forall i :: 0 <= i < |vals| && !vals[i].Ref? ==>
          |w.ps| <= ids[i] < |w1.ps| && w1.ps[ids[i]] == Record(Fulfilled, vals[i], []))
    && w2.ps == w1.ps + [Fresh] && w2.queue == w.queue && w2.stack == w.stack
  }

  /** The promise table after the registrations of `all` or `race` were set up. */
  lemma CombinatorRecords(w: World, vals: seq<Value>, w1: World, ids: seq<PromiseId>, w2: World, c: Combinator)
    requires Wrapped(w, vals, w1, ids, w2)
    ensures var r := Subscribe(w2, ids, c, 0);
            && |r.ps| > |w1.ps| && r.ps[..|w.ps|] == w.ps && r.ps[|w1.ps|] == Fresh
            && (forall j :: |w.ps| <= j < |r.ps| ==> r.ps[j].handlers == [])
            && r.stack == w.stack && r.alls == w2.alls && r.races == w2.races
  {
    SubscribeFacts(w2, ids, c, 0);
    var r := Subscribe(w2, ids, c, 0);
    assert r.ps[..|w2.ps|] == w2.ps;
    assert r.ps[..|w.ps|] == w.ps by {
      assert r.ps[..|w.ps|] == w2.ps[..|w.ps|];
      assert w2.ps[..|w.ps|] == w1.ps[..|w.ps|];
    }
    assert r.ps[|w1.ps|] == w2.ps[|w1.ps|];
    forall j | |w.ps| <= j < |r.ps|
      ensures r.ps[j].handlers == []
    {
      if j < |w2.ps| {
        assert r.ps[j] == w2.ps[j];
      }
    }
  }

  /** The timers of `all` or `race`: timer i registers closure pair i on the
      promise standing for input i. */
  lemma CombinatorTasks(w: World, vals: seq<Value>, w1: World, ids: seq<PromiseId>, w2: World, c: Combinator)
    requires Wrapped(w, vals, w1, ids, w2)
    ensures var r := Subscribe(w2, ids, c, 0);
            && |r.queue| == |w.queue| + |vals| && r.queue[..|w.queue|] == w.queue
            && forall i :: 0 <= i < |vals| ==>
                 Subscribed(r, r.queue[|w.queue| + i], vals[i], |w.ps|, OnFulfilledFor(c, i), OnRejectedFor(c))
  {
    SubscribeFacts(w2, ids, c, 0);
    var r := Subscribe(w2, ids, c, 0);
    assert r.ps[..|w2.ps|] == w2.ps;
    forall i | 0 <= i < |vals|
      ensures Subscribed(r, r.queue[|w.queue| + i], vals[i], |w.ps|, OnFulfilledFor(c, i), OnRejectedFor(c))
    {
      var t := r.queue[|w.queue| + i];
      assert t == Register(ids[i], Handler(|w2.ps| + i, Some(OnFulfilledFor(c, i)), Some(OnRejectedFor(c))));
      if !vals[i].Ref? {
        assert r.ps[ids[i]] == w2.ps[ids[i]];
      }
    }
  }

  /** `Promise.all(vals)`. */
  function All(w: World, vals: seq<Value>): (r: Made)
  {
    var (w1, ids) := Wrap(w, vals);
    var m := Alloc(w1, Fresh);
    if ids == [] then
      Made(m.w.(ps := m.w.ps[m.id := RunExecutor(Fresh, [CallResolve(Undef)])]), m.id)
    else
      var a := |m.w.alls|;
      Made(Subscribe(m.w.(alls := m.w.alls + [FreshAll(m.id, |ids|)]), ids, AllOf(a), 0), m.id)
  }

  /** `Promise.all(vals)` makes a new promise; with no inputs it is fulfilled
      with `undefined` at once, otherwise it is pending, a fresh aggregator of
      `|vals|` slots belongs to it, and one deferred registration per input
      (in input order) will attach slot i's closures to input i. */
  lemma AllFacts(w: World, vals: seq<Value>)
    ensures var r := All(w, vals);
            && |w.ps| <= r.id < |r.w.ps| && r.w.ps[..|w.ps|] == w.ps
            && (forall j :: |w.ps| <= j < |r.w.ps| ==> r.w.ps[j].handlers == [])
            && r.w.stack == w.stack && r.w.races == w.races
            && (vals == [] ==>
                  && r.w.ps[r.id] == Record(Fulfilled, Undef, [])
                  && r.w.queue == w.queue && r.w.alls == w.alls)
            && (vals != [] ==>
                  && r.w.ps[r.id] == Fresh
                  && r.w.alls == w.alls + [FreshAll(r.id, |vals|)]
                  && |r.w.queue| == |w.queue| + |vals| && r.w.queue[..|w.queue|] == w.queue
                  && forall i :: 0 <= i < |vals| ==>
                       Subscribed(r.w, r.w.queue[|w.queue| + i], vals[i], |w.ps|,
                                  AllFulfilled(|w.alls|, i), AllRejected(|w.alls|)))
  {
    var (w1, ids) := Wrap(w, vals);
    WrapFacts(w, vals);
    if vals == [] {
      assert Executed([CallResolve(Undef)]) == [CallResolve(Undef)];
    } else {
      var w2 := w1.(ps := w1.ps + [Fresh], alls := w1.alls + [FreshAll(|w1.ps|, |ids|)]);
      assert Wrapped(w, vals, w1, ids, w2);
      CombinatorRecords(w, vals, w1, ids, w2, AllOf(|w.alls|));
      CombinatorTasks(w, vals, w1, ids, w2, AllOf(|w.alls|));
    }
  }

  /** `Promise.race(vals)`: like `all`, with one shared pair of closures over
      a fresh `settled` flag. */
  function Race(w: World, vals: seq<Value>): (r: Made)
  {
    var (w1, ids) := Wrap(w, vals);
    var m := Alloc(w1, Fresh);
    if ids == [] then
      Made(m.w.(ps := m.w.ps[m.id := RunExecutor(Fresh, [CallResolve(Undef)])]), m.id)
    else
      var a := |m.w.races|;
      Made(Subscribe(m.w.(races := m.w.races + [RaceState(m.id, false)]), ids, RaceOf(a), 0), m.id)
  }

  /** `Promise.race(vals)` sets up like `all`, with a fresh `settled` flag
      and the same pair of closures for every input. */
  lemma RaceFacts(w: World, vals: seq<Value>)
    ensures var r := Race(w, vals);
            && |w.ps| <= r.id < |r.w.ps| && r.w.ps[..|w.ps|] == w.ps
            && (forall j :: |w.ps| <= j < |r.w.ps| ==> r.w.ps[j].handlers == [])
            && r.w.stack == w.stack && r.w.alls == w.alls
            && (vals == [] ==>
                  && r.w.ps[r.id] == Record(Fulfilled, Undef, [])
                  && r.w.queue == w.queue && r.w.races == w.races)
            && (vals != [] ==>
                  && r.w.ps[r.id] == Fresh
                  && r.w.races == w.races + [RaceState(r.id, false)]
                  && |r.w.queue| == |w.queue| + |vals| && r.w.queue[..|w.queue|] == w.queue
                  && forall i :: 0 <= i < |vals| ==>
                       Subscribed(r.w, r.w.queue[|w.queue| + i], vals[i], |w.ps|,
                                  RaceFulfilled(|w.races|), RaceRejected(|w.races|)))
  {
    var (w1, ids) := Wrap(w, vals);
    WrapFacts(w, vals);
    if vals == [] {
      assert Executed([CallResolve(Undef)]) == [CallResolve(Undef)];
    } else {
      var w2 := w1.(ps := w1.ps + [Fresh], races := w1.races + [RaceState(|w1.ps|, false)]);
      assert Wrapped(w, vals, w1, ids, w2);
      CombinatorRecords(w, vals, w1, ids, w2, RaceOf(|w.races|));
      CombinatorTasks(w, vals, w1, ids, w2, RaceOf(|w.races|));
    }
  }
}
