/** The values that travel between the modules of the reactor: fiber states,
    events, callbacks, and the entries of the run queue. */
module Base {

  datatype Option<+T> = None | Some(value: T)

  /** A fiber is named by the id its constructor draws from a global counter. */
  type FiberId = nat

  /** One in-progress hooked call (do_io or connect): the identity of its `timer_info`. */
  type CallId = nat

  /** Fiber::State. */
  datatype FiberState = INIT | HOLD | EXEC | TERM | READY | EXCEPT

  /** IOManager::Event. */
  datatype Event = READ | WRITE

  /** A mask over the two event bits, with the bit operations the table needs. */
  datatype Mask = Mask(read: bool, write: bool) {
    predicate Has(ev: Event) {
      match ev case READ => read case WRITE => write
    }

    /** events | ev */
    function With(ev: Event): Mask {
      match ev case READ => Mask(true, write) case WRITE => Mask(read, true)
    }

    /** events & ~other */
    function Minus(other: Mask): Mask {
      Mask(read && !other.read, write && !other.write)
    }

    function Without(ev: Event): Mask {
      Minus(NONE.With(ev))
    }

    /** (events & other) != NONE */
    predicate Meets(other: Mask) {
      (read && other.read) || (write && other.write)
    }

    predicate Within(other: Mask) {
      (read ==> other.read) && (write ==> other.write)
    }

    function Size(): nat {
      (if read then 1 else 0) + (if write then 1 else 0)
    }
  }

  const NONE := Mask(false, false)

  /** The closures that the library stores: what a user passed, the bound
      `schedule(fiber)` of a hooked sleep, and the guarded timeout of a hooked call. */
  datatype Callback =
    | User(id: nat)
    | Wake(sleeper: FiberId)
    | Timeout(call: CallId)

  /** What a run-queue entry carries. Every FiberAndThread constructor fills the
      fiber or the callback, never both. */
  datatype Task =
    | Resume(fiber: FiberId)
    | Call(cb: Callback)

  /** FiberAndThread; `thread` is -1 for "any thread". */
  datatype Entry = Entry(task: Task, thread: int)

  predicate Finished(s: FiberState) {
    s == TERM || s == EXCEPT
  }

  /** What Fiber::reset and the destructor assert. */
  predicate Disposable(s: FiberState) {
    s == TERM || s == INIT || s == EXCEPT
  }

  /** Suspended or not started: fit to be swapped in. */
  predicate AtRest(s: FiberState) {
    s == INIT || s == READY || s == HOLD
  }

  /** A fiber executes, is at rest, or is over. What may be thrown away has not begun or is over. */
  lemma States(s: FiberState)
    ensures AtRest(s) <==> s != EXEC && s != TERM && s != EXCEPT
    ensures Finished(s) <==> s != EXEC && !AtRest(s)
    ensures Disposable(s) <==> s == INIT || Finished(s)
  {
  }
}
