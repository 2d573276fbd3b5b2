/** The hooked system calls from their caller's side: do_io and connect against an oracle
    of what the raw calls return and how each wait ends, and the sleeping calls. */
module HookedCalls {

  /** What one raw call returns: a count, EINTR, EAGAIN, or another errno. */
  datatype Raw = Result(n: int) | Interrupted | WouldBlock | Failed(errno: int)

  /** One round of waiting: whether addEvent succeeds, and whether `cancelled` is set when
      the fiber runs again. */
  datatype Round = Round(added: bool, cancelled: bool)

  /** What the call does, in order. */
  datatype Act = RawCall(raw: Raw) | ArmTimer | AddEvent(ok: bool) | Yield | CancelTimer

  datatype Outcome =
    | Returned(n: int)
    | RawError(errno: int)  // the raw call's own -1
    | NotAdded              // -1 after a failed addEvent
    | TimedOut              // -1 with ETIMEDOUT
    | Waiting               // the oracle ends before the call does

  datatype Io = Io(outcome: Outcome, trace: seq<Act>)

  function After(acts: seq<Act>, io: Io): Io {
    Io(io.outcome, acts + io.trace)
  }

  function If(timed: bool, act: Act): seq<Act> {
    if timed then [act] else []
  }

  /** The wait of one round: timer, event, yield, and the timer taken back. */
  function WaitActs(timed: bool, round: Round): seq<Act> {
    If(timed, ArmTimer)
    + (if round.added then [AddEvent(true), Yield] else [AddEvent(false)]) + If(timed, CancelTimer)
  }

  /** One round, from the EAGAIN to the point where the fiber decides how to go on. */
  function RoundActs(timed: bool, round: Round): seq<Act> {
    [RawCall(WouldBlock)] + WaitActs(timed, round)
  }

  /** do_io from the label `retry` on; `timed` says that the timeout is finite. */
  function DoIo(raws: seq<Raw>, rounds: seq<Round>, timed: bool): Io
    decreases |raws|
  {
    if raws == [] then Io(Waiting, [])
    else
      match raws[0]
      case Result(n) => Io(Returned(n), [RawCall(raws[0])])
      case Failed(errno) => Io(RawError(errno), [RawCall(raws[0])])
      case Interrupted => After([RawCall(Interrupted)], DoIo(raws[1..], rounds, timed))
      case WouldBlock =>
        if rounds == [] then Io(Waiting, [RawCall(WouldBlock)])
        else if !rounds[0].added then Io(NotAdded, RoundActs(timed, rounds[0]))
        else if rounds[0].cancelled then Io(TimedOut, RoundActs(timed, rounds[0]))
        else After(RoundActs(timed, rounds[0]), DoIo(raws[1..], rounds[1..], timed))
  }

  // ----- The loop -----

  lemma AfterAfter(a: seq<Act>, b: seq<Act>, io: Io)
    ensures After(a, After(b, io)) == After(a + b, io)
  {
    assert a + (b + io.trace) == (a + b) + io.trace;
  }

  /** The retry loop with its inner EINTR loop, and the two cursors of the oracle. `timer` is
      the round's own timer pointer; every act is appended where the code performs it. */
  method DoIoLoop(raws: seq<Raw>, rounds: seq<Round>, timed: bool) returns (outcome: Outcome, trace: seq<Act>)
    ensures DoIo(raws, rounds, timed) == Io(outcome, trace)
  {
    hide DoIo, RoundActs;
    var i, j := 0, 0;
    trace := [];
    assert raws[0..] == raws && rounds[0..] == rounds;
    while i < |raws|
      invariant 0 <= i <= |raws| && 0 <= j <= |rounds|
      invariant DoIo(raws, rounds, timed) == After(trace, DoIo(raws[i..], rounds[j..], timed))
      decreases |raws| - i
    {
      while i < |raws| && raws[i] == Interrupted
        invariant 0 <= i <= |raws|
        invariant DoIo(raws, rounds, timed) == After(trace, DoIo(raws[i..], rounds[j..], timed))
        decreases |raws| - i
      {
        Interrupts(raws, rounds, timed, i, j, trace);
        trace := trace + [RawCall(raws[i])];
        i := i + 1;
      }
      if i == |raws| {
        break;
      }
      if raws[i] != WouldBlock {
        Ends(raws, rounds, timed, i, j, trace);
        trace := trace + [RawCall(raws[i])];
        return if raws[i].Result? then Returned(raws[i].n) else RawError(raws[i].errno), trace;
      }
      Rounds(raws, rounds, timed, i, j, trace);
      ghost var before := trace;
      trace := trace + [RawCall(WouldBlock)];
      if j == |rounds| {
        return Waiting, trace;
      }
      RoundInPieces(before, timed, rounds[j]);
      var timer := false;
      if timed {
        trace := trace + [ArmTimer];
        timer := true;
      }
      trace := trace + [AddEvent(rounds[j].added)];
      if !rounds[j].added {
        if timer {
          trace := trace + [CancelTimer];
        }
        return NotAdded, trace;
      }
      trace := trace + [Yield];
      if timer {
        trace := trace + [CancelTimer];
      }
      if rounds[j].cancelled {
        return TimedOut, trace;
      }
      i, j := i + 1, j + 1;
    }
    Exhausted(raws, rounds, timed, i, j, trace);
    outcome := Waiting;
  }

  lemma Exhausted(raws: seq<Raw>, rounds: seq<Round>, timed: bool, i: nat, j: nat, trace: seq<Act>)
    requires i == |raws| && j <= |rounds|
    ensures After(trace, DoIo(raws[i..], rounds[j..], timed)) == Io(Waiting, trace)
  {
    assert raws[i..] == [];
    assert trace + [] == trace;
  }

  /** The acts of a round one by one, on each of its four paths. */
  lemma RoundInPieces(before: seq<Act>, timed: bool, round: Round)
    ensures before + RoundActs(timed, round) == WaitFrom(before + [RawCall(WouldBlock)], timed, round)
  {
    WaitInPieces(before + [RawCall(WouldBlock)], timed, round);
    var b, w := [RawCall(WouldBlock)], WaitActs(timed, round);
    hide WaitActs, WaitFrom;
    assert before + (b + w) == before + b + w;
  }

  function WaitFrom(trace: seq<Act>, timed: bool, round: Round): seq<Act> {
    match (timed, round.added)
    case (true, true) => trace + [ArmTimer] + [AddEvent(true)] + [Yield] + [CancelTimer]
    case (true, false) => trace + [ArmTimer] + [AddEvent(false)] + [CancelTimer]
    case (false, true) => trace + [AddEvent(true)] + [Yield]
    case (false, false) => trace + [AddEvent(false)]
  }

  lemma WaitInPieces(trace: seq<Act>, timed: bool, round: Round)
    ensures trace + WaitActs(timed, round) == WaitFrom(trace, timed, round)
  {
  }

  lemma Interrupts(raws: seq<Raw>, rounds: seq<Round>, timed: bool, i: nat, j: nat, trace: seq<Act>)
    requires i < |raws| && j <= |rounds| && raws[i] == Interrupted
    ensures After(trace, DoIo(raws[i..], rounds[j..], timed))
      == After(trace + [RawCall(Interrupted)], DoIo(raws[i + 1..], rounds[j..], timed))
  {
    assert raws[i..][1..] == raws[i + 1..];
    AfterAfter(trace, [RawCall(Interrupted)], DoIo(raws[i + 1..], rounds[j..], timed));
  }

  lemma Ends(raws: seq<Raw>, rounds: seq<Round>, timed: bool, i: nat, j: nat, trace: seq<Act>)
    requires i < |raws| && j <= |rounds| && (raws[i].Result? || raws[i].Failed?)
    ensures After(trace, DoIo(raws[i..], rounds[j..], timed))
      == Io(if raws[i].Result? then Returned(raws[i].n) else RawError(raws[i].errno), trace + [RawCall(raws[i])])
  {
  }

  lemma Rounds(raws: seq<Raw>, rounds: seq<Round>, timed: bool, i: nat, j: nat, trace: seq<Act>)
    requires i < |raws| && j <= |rounds| && raws[i] == WouldBlock
    ensures After(trace, DoIo(raws[i..], rounds[j..], timed)) ==
      if j == |rounds| then Io(Waiting, trace + [RawCall(WouldBlock)])
      else if !rounds[j].added then Io(NotAdded, trace + RoundActs(timed, rounds[j]))
      else if rounds[j].cancelled then Io(TimedOut, trace + RoundActs(timed, rounds[j]))
      else After(trace + RoundActs(timed, rounds[j]), DoIo(raws[i + 1..], rounds[j + 1..], timed))
  {
    assert raws[i..][1..] == raws[i + 1..];
    if j < |rounds| {
      assert rounds[j..][1..] == rounds[j + 1..] && rounds[j..][0] == rounds[j];
      AfterAfter(trace, RoundActs(timed, rounds[j]), DoIo(raws[i + 1..], rounds[j + 1..], timed));
    }
  }

  // ----- What the caller can rely on -----

  /** A raw call that did no I/O. */
  predicate NoEffect(raw: Raw) {
    raw == Interrupted || raw == WouldBlock
  }

  /** The raw calls of a trace, in order. */
  function RawCalls(trace: seq<Act>): seq<Raw> {
    if trace == [] then [] else RawOf(trace[0]) + RawCalls(trace[1..])
  }

  function RawOf(act: Act): seq<Raw> {
    if act.RawCall? then [act.raw] else []
  }

  lemma Assoc(a: seq<Raw>, b: seq<Raw>, c: seq<Raw>)
    ensures a + (b + c) == a + b + c
  {
  }

  lemma {:induction false} RawCallsAppend(a: seq<Act>, b: seq<Act>)
    ensures RawCalls(a + b) == RawCalls(a) + RawCalls(b)
  {
    if a == [] {
      assert a + b == b;
    } else {
      assert (a + b)[1..] == a[1..] + b;
      RawCallsAppend(a[1..], b);
      Assoc(RawOf(a[0]), RawCalls(a[1..]), RawCalls(b));
      hide RawOf;
    }
  }

  lemma {:induction false} NoRawCalls(acts: seq<Act>)
    requires forall act <- acts :: !act.RawCall?
    ensures RawCalls(acts) == []
  {
    if acts != [] {
      NoRawCalls(acts[1..]);
    }
  }

  lemma RoundRaws(timed: bool, round: Round)
    ensures RawCalls(RoundActs(timed, round)) == [WouldBlock]
  {
    NoRawCalls(WaitActs(timed, round));
    assert RoundActs(timed, round)[1..] == WaitActs(timed, round);
  }

  /** The raw calls made are a front part of what the oracle offers. All but the last did
      nothing. The last is the returned count's own, or the raw error's own; when the call
      times out, fails to add its event, or still waits, even the last did nothing. So on
      success exactly one raw call had an effect, and on ETIMEDOUT none. */
  lemma {:induction false} OneEffect(raws: seq<Raw>, rounds: seq<Round>, timed: bool)
    ensures var Io(outcome, trace) := DoIo(raws, rounds, timed);
      && RawCalls(trace) <= raws
      && (match outcome
          case Returned(n) => EndsWith(RawCalls(trace), Result(n))
          case RawError(errno) => EndsWith(RawCalls(trace), Failed(errno))
          case _ => forall raw <- RawCalls(trace) :: NoEffect(raw))
    decreases |raws|
  {
    if raws != [] {
      match raws[0]
      case Result(_) => OneRaw(raws[0], raws);
      case Failed(_) => OneRaw(raws[0], raws);
      case Interrupted =>
        OneEffect(raws[1..], rounds, timed);
        OneRaw(Interrupted, raws);
        Prepended([RawCall(Interrupted)], Interrupted, raws, DoIo(raws[1..], rounds, timed));
      case WouldBlock =>
        OneRaw(WouldBlock, raws);
        if rounds != [] {
          RoundRaws(timed, rounds[0]);
          OneEffect(raws[1..], rounds[1..], timed);
          Prepended(RoundActs(timed, rounds[0]), WouldBlock, raws, DoIo(raws[1..], rounds[1..], timed));
        }
    }
  }

  /** Only the last of the calls had an effect, and it is this one. */
  predicate EndsWith(calls: seq<Raw>, last: Raw) {
    calls != [] && calls[|calls| - 1] == last && forall raw <- calls[..|calls| - 1] :: NoEffect(raw)
  }

  lemma OneRaw(raw: Raw, raws: seq<Raw>)
    requires raws != [] && raws[0] == raw
    ensures RawCalls([RawCall(raw)]) == [raw] <= raws
  {
    assert [RawCall(raw)][1..] == [];
  }

  lemma Prepended(acts: seq<Act>, raw: Raw, raws: seq<Raw>, io: Io)
    requires RawCalls(acts) == [raw] && NoEffect(raw) && raws != [] && raws[0] == raw
    requires RawCalls(io.trace) <= raws[1..]
    ensures RawCalls(After(acts, io).trace) == [raw] + RawCalls(io.trace) <= raws
    ensures forall last :: EndsWith(RawCalls(io.trace), last) ==> EndsWith([raw] + RawCalls(io.trace), last)
  {
    RawCallsAppend(acts, io.trace);
    var calls := RawCalls(io.trace);
    if calls != [] {
      assert ([raw] + calls)[..|calls|] == [raw] + calls[..|calls| - 1];
    }
    assert raws == [raw] + raws[1..];
  }

  /** What the call holds at a point of its trace: its timer, and its event. Broken after an
      act that the rest does not allow: a raw call while something is held, a second timer or
      event, a yield with no event to come back for, a cancel with no timer or before the
      event is gone. */
  datatype Held = Held(timer: bool, event: bool) | Broken

  const Nothing := Held(false, false)

  function Step(h: Held, act: Act): Held {
    match act
    case RawCall(_) => if h == Nothing then h else Broken
    case ArmTimer => if h == Nothing then Held(true, false) else Broken
    case AddEvent(ok) => if h.Held? && !h.event then Held(h.timer, ok) else Broken
    case Yield => if h.Held? && h.event then Held(h.timer, false) else Broken
    case CancelTimer => if h == Held(true, false) then Nothing else Broken
  }

  function HeldAfter(h: Held, trace: seq<Act>): Held
    decreases |trace|
  {
    if trace == [] then h else HeldAfter(Step(h, trace[0]), trace[1..])
  }

  lemma {:induction false} HeldAppend(h: Held, a: seq<Act>, b: seq<Act>)
    ensures HeldAfter(h, a + b) == HeldAfter(HeldAfter(h, a), b)
    decreases |a|
  {
    if a == [] {
      assert a + b == b;
    } else {
      assert (a + b)[1..] == a[1..] + b;
      HeldAppend(Step(h, a[0]), a[1..], b);
    }
  }

  lemma WaitLeaves(timed: bool, round: Round)
    ensures HeldAfter(Nothing, WaitActs(timed, round)) == Nothing
  {
    WaitInPieces([], timed, round);
    forall h, acts: seq<Act>, act ensures HeldAfter(h, acts + [act]) == Step(HeldAfter(h, acts), act) {
      HeldAppend(h, acts, [act]);
      assert [act][1..] == [];
    }
    assert [] + WaitActs(timed, round) == WaitActs(timed, round);
    hide WaitActs;
  }

  lemma RawLeaves(raw: Raw, rest: seq<Act>)
    ensures HeldAfter(Nothing, [RawCall(raw)] + rest) == HeldAfter(Nothing, rest)
  {
    assert ([RawCall(raw)] + rest)[1..] == rest;
  }

  /** Whatever the oracle does, the acts of a call are in order at every point of its trace,
      and a call that is over holds nothing: every timer it armed is cancelled, and it has
      come back from every event it added. */
  lemma {:induction false} ResourceNeutral(raws: seq<Raw>, rounds: seq<Round>, timed: bool)
    ensures HeldAfter(Nothing, DoIo(raws, rounds, timed).trace) == Nothing
    decreases |raws|
  {
    if raws != [] {
      RawLeaves(raws[0], []);
      assert [RawCall(raws[0])] + [] == [RawCall(raws[0])];
      match raws[0]
      case Result(_) =>
      case Failed(_) =>
      case Interrupted =>
        ResourceNeutral(raws[1..], rounds, timed);
        RawLeaves(Interrupted, DoIo(raws[1..], rounds, timed).trace);
      case WouldBlock =>
        if rounds != [] {
          RawLeaves(WouldBlock, WaitActs(timed, rounds[0]));
          WaitLeaves(timed, rounds[0]);
          ResourceNeutral(raws[1..], rounds[1..], timed);
          HeldAppend(Nothing, RoundActs(timed, rounds[0]), DoIo(raws[1..], rounds[1..], timed).trace);
        }
    }
  }

  // ----- When it ends, and how -----

  /** The raw results but for the EINTRs, which are tried again at once. */
  function Tries(raws: seq<Raw>): seq<Raw> {
    if raws == [] then [] else (if raws[0] == Interrupted then [] else [raws[0]]) + Tries(raws[1..])
  }

  /** What the try after g rounds of waiting makes of the call: a count or an errno is returned as
      it is; on EAGAIN the next round decides, and a failed addEvent takes precedence over
      `cancelled`. */
  predicate Decides(outcome: Outcome, tries: seq<Raw>, rounds: seq<Round>, g: nat)
    requires g <= |tries| && g <= |rounds|
  {
    && (g == |tries| ==> outcome == Waiting)
    && (g < |tries| && tries[g].Result? ==> outcome == Returned(tries[g].n))
    && (g < |tries| && tries[g].Failed? ==> outcome == RawError(tries[g].errno))
    && (g < |tries| && tries[g] == WouldBlock && g == |rounds| ==> outcome == Waiting)
    && (g < |tries| && tries[g] == WouldBlock && g < |rounds| && !rounds[g].added ==> outcome == NotAdded)
    && (g < |tries| && tries[g] == WouldBlock && g < |rounds| && rounds[g] == Round(true, true) ==> outcome == TimedOut)
  }

  lemma {:induction false} EndsExactly(raws: seq<Raw>, rounds: seq<Round>, timed: bool, g: nat)
    requires g <= |Tries(raws)| && g <= |rounds|
    requires forall k :: 0 <= k < g ==> Tries(raws)[k] == WouldBlock && rounds[k] == Round(true, false)
    ensures Decides(DoIo(raws, rounds, timed).outcome, Tries(raws), rounds, g)
    decreases |raws|
  {
    if raws != [] {
      var rest := Tries(raws[1..]);
      if raws[0] == Interrupted {
        assert Tries(raws) == rest;
        EndsExactly(raws[1..], rounds, timed, g);
        hide Decides;
      } else if raws[0] == WouldBlock && g > 0 {
        assert Tries(raws) == [WouldBlock] + rest && rounds == [rounds[0]] + rounds[1..];
        assert rounds[0] == Round(true, false);
        forall k | 0 <= k < g - 1 ensures rest[k] == WouldBlock && rounds[1..][k] == Round(true, false) {
          assert rest[k] == Tries(raws)[k + 1];
        }
        EndsExactly(raws[1..], rounds[1..], timed, g - 1);
        hide Tries;
        OneOn(DoIo(raws[1..], rounds[1..], timed).outcome, WouldBlock, rest, rounds[0], rounds[1..], g - 1);
        hide Decides;
      }
    }
  }

  lemma OneOn(outcome: Outcome, raw: Raw, tries: seq<Raw>, round: Round, rounds: seq<Round>, g: nat)
    requires g <= |tries| && g <= |rounds| && Decides(outcome, tries, rounds, g)
    ensures Decides(outcome, [raw] + tries, [round] + rounds, g + 1)
  {
  }

  /** How often the acts do what: every EAGAIN begins a round, but for `open` of them with which the
      oracle ends; a round adds the event once, arms and cancels a timer once if the timeout is
      finite, and yields once if the event was added. */
  predicate Tallies(acts: multiset<Act>, timed: bool, open: nat) {
    && acts[RawCall(WouldBlock)] == acts[AddEvent(true)] + acts[AddEvent(false)] + open
    && acts[Yield] == acts[AddEvent(true)]
    && acts[ArmTimer] == acts[CancelTimer]
    && acts[ArmTimer] == if timed then acts[AddEvent(true)] + acts[AddEvent(false)] else 0
  }

  predicate Tallied(io: Io, timed: bool) {
    && (Tallies(multiset(io.trace), timed, 0) || (io.outcome == Waiting && Tallies(multiset(io.trace), timed, 1)))
    && multiset(io.trace)[AddEvent(false)] == if io.outcome == NotAdded then 1 else 0
  }

  lemma RoundTallies(timed: bool, round: Round)
    ensures Tallies(multiset(RoundActs(timed, round)), timed, 0)
    ensures multiset(RoundActs(timed, round))[AddEvent(false)] == if round.added then 0 else 1
  {
    WaitInPieces([RawCall(WouldBlock)], timed, round);
    hide WaitActs;
  }

  lemma AfterTallied(acts: seq<Act>, io: Io, timed: bool)
    requires Tallies(multiset(acts), timed, 0) && multiset(acts)[AddEvent(false)] == 0 && Tallied(io, timed)
    ensures Tallied(After(acts, io), timed)
  {
    assert multiset(acts + io.trace) == multiset(acts) + multiset(io.trace);
  }

  lemma RawTallied(raw: Raw, outcome: Outcome, timed: bool)
    requires outcome != NotAdded && (raw == WouldBlock ==> outcome == Waiting)
    ensures Tallied(Io(outcome, [RawCall(raw)]), timed)
  {
  }

  lemma {:induction false} TraceTallied(raws: seq<Raw>, rounds: seq<Round>, timed: bool)
    ensures Tallied(DoIo(raws, rounds, timed), timed)
    decreases |raws|
  {
    if raws != [] {
      match raws[0]
      case Result(n) => RawTallied(raws[0], Returned(n), timed);
      case Failed(errno) => RawTallied(raws[0], RawError(errno), timed);
      case Interrupted =>
        TraceTallied(raws[1..], rounds, timed);
        AfterTallied([RawCall(Interrupted)], DoIo(raws[1..], rounds, timed), timed);
        hide Tallied;
      case WouldBlock =>
        if rounds == [] {
          RawTallied(WouldBlock, Waiting, timed);
          hide Tallied;
        } else {
          RoundTallies(timed, rounds[0]);
          hide RoundActs, Tallies;
          if rounds[0] == Round(true, false) {
            TraceTallied(raws[1..], rounds[1..], timed);
            AfterTallied(RoundActs(timed, rounds[0]), DoIo(raws[1..], rounds[1..], timed), timed);
            hide Tallied;
          }
        }
    }
  }

  // ----- The way in -----

  const EINTR := 4
  const EBADF := 9
  const EAGAIN := 11
  const EINPROGRESS := 115

  /** What FdMgr knows of the descriptor. */
  datatype Desc = Unknown | Known(closed: bool, socket: bool, userNonblock: bool)

  /** The raw call's result as it is. */
  function Plainly(raw: Raw): Outcome {
    match raw
    case Result(n) => Returned(n)
    case Failed(errno) => RawError(errno)
    case Interrupted => RawError(EINTR)
    case WouldBlock => RawError(EAGAIN)
  }

  /** The raw call alone. */
  function Direct(raws: seq<Raw>): Io {
    if raws == [] then Io(Waiting, []) else Io(Plainly(raws[0]), [RawCall(raws[0])])
  }

  /** All of do_io. */
  function Call(hooked: bool, d: Desc, raws: seq<Raw>, rounds: seq<Round>, timed: bool): Io {
    if !hooked || d.Unknown? then Direct(raws)
    else if d.closed then Io(RawError(EBADF), [])
    else if !d.socket && d.userNonblock then Direct(raws)
    else DoIo(raws, rounds, timed)
  }

  /** Without the hook, or on a descriptor that FdMgr does not know, and on a file that the user
      made non-blocking, the raw call's own result is the result, whatever it is; a closed
      descriptor gives EBADF (9) with no raw call at all; all others go through the loop. */
  lemma CallExactly(hooked: bool, d: Desc, raw: Raw, more: seq<Raw>, rounds: seq<Round>, timed: bool)
    ensures var io := Call(hooked, d, [raw] + more, rounds, timed);
      if hooked && d.Known? && d.closed then
        io == Io(RawError(9), [])
      else if hooked && d.Known? && (d.socket || !d.userNonblock) then
        io == DoIo([raw] + more, rounds, timed)
      else
        && io.trace == [RawCall(raw)]
        && (raw == Interrupted ==> io.outcome == RawError(4)) && (raw == WouldBlock ==> io.outcome == RawError(11))
        && (raw.Result? ==> io.outcome == Returned(raw.n)) && (raw.Failed? ==> io.outcome == RawError(raw.errno))
  {
    assert ([raw] + more)[0] == raw;
  }

  /** What O_NONBLOCK promises, EAGAIN at once, holds of the descriptors that are not sockets
      only: the test for the user's bit asks for both. On a socket the fiber waits. */
  lemma NonblockingExactly(d: Desc, raws: seq<Raw>, rounds: seq<Round>, timed: bool)
    requires d.Known? && !d.closed && d.userNonblock && raws != [] && raws[0] == WouldBlock
    ensures Call(true, d, raws, rounds, timed) == Io(RawError(EAGAIN), [RawCall(WouldBlock)]) <==> !d.socket
    ensures d.socket && rounds != [] && rounds[0].added ==> Yield in Call(true, d, raws, rounds, timed).trace
  {
    if d.socket && rounds != [] {
      RoundInPieces([], timed, rounds[0]);
      assert [] + RoundActs(timed, rounds[0]) == RoundActs(timed, rounds[0]);
      var round := RoundActs(timed, rounds[0]);
      assert rounds[0].added ==> round[if timed then 3 else 2] == Yield;
      assert |round| > 1 && round <= DoIo(raws, rounds, timed).trace;
    }
  }

  // ----- connect -----

  /** connect on a blocking managed socket: the raw connect, one round of waiting, then what
      getsockopt(SO_ERROR) says (None when it fails itself). A failed addEvent is logged, and
      the call goes on to getsockopt all the same. */
  function Connect(raw: Raw, round: Round, soError: int, soOk: bool): Outcome {
    if raw == Result(0) then Returned(0)
    else if raw.Failed? && raw.errno == EINPROGRESS then
      if round.added && round.cancelled then TimedOut
      else if !soOk then RawError(soError)
      else if soError == 0 then Returned(0)
      else RawError(soError)
    else Plainly(raw)
  }

  function ConnectActs(raw: Raw, round: Round, timed: bool): seq<Act> {
    [RawCall(raw)] + if raw == Failed(EINPROGRESS) then WaitActs(timed, round) else []
  }

  /** connect_with_timeout, branch by branch, each act where the code performs it. */
  method ConnectWithTimeout(raw: Raw, round: Round, timed: bool, soError: int, soOk: bool)
    returns (outcome: Outcome, trace: seq<Act>)
    ensures outcome == Connect(raw, round, soError, soOk)
    ensures trace == ConnectActs(raw, round, timed)
    ensures raw == Failed(115) ==> (outcome == TimedOut <==> round.added && round.cancelled)
    ensures raw == Failed(115) && outcome != TimedOut ==>
      outcome == if soOk && soError == 0 then Returned(0) else RawError(soError)
    ensures raw.Failed? && raw.errno != 115 ==> outcome == RawError(raw.errno)
    ensures raw.Result? ==> outcome == Returned(raw.n)
  {
    trace := [RawCall(raw)];
    if raw == Result(0) {
      return Returned(0), trace;
    }
    if raw != Failed(EINPROGRESS) {
      return Plainly(raw), trace;
    }
    WaitInPieces(trace, timed, round);
    var timer := false;
    if timed {
      trace := trace + [ArmTimer];
      timer := true;
    }
    trace := trace + [AddEvent(round.added)];
    if round.added {
      trace := trace + [Yield];
      if timer {
        trace := trace + [CancelTimer];
      }
      if round.cancelled {
        return TimedOut, trace;
      }
    } else if timer {
      trace := trace + [CancelTimer];
    }
    if !soOk {
      return RawError(soError), trace;
    }
    if soError == 0 {
      return Returned(0), trace;
    }
    outcome := RawError(soError);
  }

  /** A connect that is not in progress (EINPROGRESS is 115) ends as its raw call does, count or
      errno, with no wait; EINTR is 4 and EAGAIN 11. */
  lemma ConnectAtOnce(raw: Raw, round: Round, timed: bool, soError: int, soOk: bool)
    requires raw != Failed(115)
    ensures ConnectActs(raw, round, timed) == [RawCall(raw)]
    ensures var outcome := Connect(raw, round, soError, soOk);
      match raw
      case Result(n) => outcome == Returned(n)
      case Failed(errno) => outcome == RawError(errno)
      case Interrupted => outcome == RawError(4)
      case WouldBlock => outcome == RawError(11)
  {
  }

  /** One in progress times out exactly if its event was added and `cancelled` is set when the fiber
      comes back. Else a refusal is reported with its own errno, whatever that is, and so is a
      failure of getsockopt itself; with neither it is a success. */
  lemma ConnectAfterWait(round: Round, soError: int, soOk: bool)
    ensures Connect(Failed(115), round, soError, soOk) == TimedOut <==> round.added && round.cancelled
    ensures !(round.added && round.cancelled) ==>
      && (forall errno :: errno != 0 ==> Connect(Failed(115), round, SoError(Refused(errno)), true) == RawError(errno))
      && (!soOk ==> Connect(Failed(115), round, soError, soOk) == RawError(soError))
      && Connect(Failed(115), round, SoError(Made), true) == Returned(0)
  {
  }

  lemma ConnectNeutral(raw: Raw, round: Round, timed: bool)
    ensures HeldAfter(Nothing, ConnectActs(raw, round, timed)) == Nothing
  {
    RawLeaves(raw, if raw == Failed(EINPROGRESS) then WaitActs(timed, round) else []);
    WaitLeaves(timed, round);
  }

  /** The connection when getsockopt looks at it. */
  datatype Peer = InProgress | Made | Refused(errno: int)

  /** SO_ERROR knows of a refusal only: an attempt that is still going on reads as no error. */
  function SoError(peer: Peer): int {
    match peer
    case Refused(errno) => errno
    case _ => 0
  }

  /** connect reports success for a connection that is not made exactly when the attempt is
      still going on once the call looks at it: getsockopt works, and the call's own timeout has
      not ended the wait. ConnectRuns.FalseSuccessExactly says which wakes come that early. */
  lemma ConnectFalseSuccess(raw: Raw, round: Round, peer: Peer, soOk: bool)
    requires raw == Result(0) || raw.Failed?
    requires (raw == Result(0) ==> peer == Made) && (peer.Refused? ==> peer.errno != 0)
    ensures Connect(raw, round, SoError(peer), soOk) == Returned(0) && peer != Made
      <==> raw == Failed(EINPROGRESS) && peer == InProgress && soOk && !(round.added && round.cancelled)
  {
  }

  /** And it reports a failure for a connection that is made exactly when the raw call fails by
      itself (EISCONN, or a signal), when its timeout fired, be it after the wake, or when
      getsockopt failed. */
  lemma ConnectFalseFailure(raw: Raw, round: Round, soOk: bool)
    ensures Connect(raw, round, SoError(Made), soOk) != Returned(0) <==>
      if raw == Failed(EINPROGRESS) then (round.added && round.cancelled) || !soOk else raw != Result(0)
  {
  }

  // ----- sleep -----

  const U32 := 0x1_0000_0000

  /** seconds * 1000 in unsigned int. */
  function SleepMs(seconds: nat): nat {
    seconds * 1000 % U32
  }

  /** sleep sleeps its full time exactly for arguments up to 4294967 seconds; beyond that
      the product wraps. */
  lemma SleepFullTimeExactly(seconds: nat)
    requires seconds < U32
    ensures SleepMs(seconds) == seconds * 1000 <==> seconds <= 4_294_967
    ensures SleepMs(seconds) == seconds * 1000 % 4_294_967_296
  {
  }
}
