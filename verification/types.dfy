/**
 The plain data a promise world is built from: values, statuses, handler
 entries, the frames of the synchronous call stack and the deferred tasks.
 */
module Types {

  /** A promise is named by its position in the world's promise table. */
  type PromiseId = nat

  /** The three states of a promise (yakusoku encodes them as 0, 1 and 2). */
  datatype Status = Pending | Fulfilled | Rejected

  /** The JavaScript values the core tells apart. `Ref` is an object for which
      `instanceof Promise` holds; `Arr` is the array `all` fulfils with;
      `Null` is the value a promise holds before it is settled. */
  datatype Value = Undef | Null | Atom(n: int) | Ref(id: PromiseId) | Arr(elems: seq<Value>)

  datatype Option<T> = None | Some(value: T)

  /** What a user callback does when it is called: return a value or throw one. */
  datatype Outcome = Ok(v: Value) | Throw(e: Value)

  /** User callbacks are opaque pure functions, named by a number. */
  type Env = (nat, Value) -> Outcome

  /** Which of the two settle routines is meant: `fulfill` or `reject`. */
  datatype Side = Fulfil | Reject

  /** The status a settle routine writes. */
  function StatusOf(side: Side): (s: Status)
    ensures s != Pending
    ensures s == Fulfilled <==> side == Fulfil
  {
    if side == Fulfil then Fulfilled else Rejected
  }

  /** The callbacks a `then` adapter can hold: a user function, or one of the
      closures `all` and `race` build over their aggregator (named by index). */
  datatype Callback =
    | User(fn: nat)
    | AllFulfilled(agg: nat, index: nat)
    | AllRejected(agg: nat)
    | RaceFulfilled(agg: nat)
    | RaceRejected(agg: nat)

  /** One entry of a promise's handler list: the adapter pair `then` installs,
      which settles `target` (the promise `then` returned). */
  datatype Handler = Handler(target: PromiseId, onFulfilled: Option<Callback>, onRejected: Option<Callback>)

  /** The fields `status`, `value` and `handlers` of one promise object. */
  datatype Record = Record(status: Status, value: Value, handlers: seq<Handler>)

  /** The record the constructor sets up before it runs the executor. */
  const Fresh: Record := Record(Pending, Null, [])

  /** One activation on the synchronous call stack.
      - Settle: a call of `fulfill(v)` or `reject(v)` on `p`;
      - Drain: the `forEach` over `p`'s handler list, with the entries still to visit;
      - Fire: one adapter callback of `h` called with `v`;
      - Recheck: the second `if` of `enqueueOrExecuteHandler`, evaluated after the
        fulfilment adapter returned. */
  datatype Frame =
    | Settle(p: PromiseId, side: Side, v: Value)
    | Drain(p: PromiseId, rest: seq<Handler>, side: Side)
    | Fire(h: Handler, side: Side, v: Value)
    | Recheck(p: PromiseId, h: Handler)

  /** The zero-delay timer `then` sets: register `h` on `parent` when it runs. */
  datatype Task = Register(parent: PromiseId, h: Handler)
}
