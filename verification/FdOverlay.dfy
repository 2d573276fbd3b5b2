/** The O_NONBLOCK bit that users see on a managed socket: kept beside the kernel's, which
    stays set, and mixed into the results of fcntl; and the table of descriptors that says
    which sockets are managed. */
module FdOverlay {
  /** An int of status flags: the O_NONBLOCK bit (0x800), and the 31 others. */
  datatype Flags = Flags(nonblock: bool, others: bv32)

  /** What a failing fcntl returns, as a word of flags: -1 has every bit set. */
  const FAILED := Flags(true, 0xFFFF_F7FF)

  const SUCCESS := Flags(false, 0)

  /** F_SETFL by POSIX.1-2017: of the other bits only those in `settable` are taken over. */
  function SetFl(flags: Flags, arg: Flags, settable: bv32): Flags {
    Flags(arg.nonblock, TakeOver(flags.others, arg.others, settable))
  }

  function TakeOver(others: bv32, arg: bv32, settable: bv32): bv32 {
    (others & !settable) | (arg & settable)
  }

  /** `ok` is false when the kernel's own fcntl fails. */
  datatype Op = SetFlags(arg: Flags, ok: bool) | GetFlags(ok: bool)

  // ----- A plain descriptor -----

  function PlainStep(flags: Flags, op: Op, settable: bv32): (Flags, Flags) {
    match op
    case GetFlags(ok) => (flags, if ok then flags else FAILED)
    case SetFlags(arg, ok) => if ok then (SetFl(flags, arg, settable), SUCCESS) else (flags, FAILED)
  }

  // ----- The hooked one -----

  /** A managed socket: the kernel's flags, m_userNonblock and m_sysNonblock. */
  datatype Socket = Socket(kernel: Flags, user: bool, sys: bool)

  function HookedStep(s: Socket, op: Op, settable: bv32): (Socket, Flags) {
    match op
    case GetFlags(ok) => (s, (if ok then s.kernel else FAILED).(nonblock := s.user))
    case SetFlags(arg, ok) =>
      var s' := s.(user := arg.nonblock);
      if ok then (s'.(kernel := SetFl(s.kernel, arg.(nonblock := s.sys), settable)), SUCCESS) else (s', FAILED)
  }

  /** FdCtx::init on a socket that was created with these flags. */
  function Adopt(flags: Flags): Socket {
    Socket(flags.(nonblock := true), false, true)
  }

  // ----- Word by word -----

  /** The int itself: O_NONBLOCK is 0x800. */
  function Word(f: Flags): bv32 {
    if f.nonblock then f.others | 0x800 else f.others & 0xFFFF_F7FF
  }

  /** Of two words, `mine` where the bits of `choice` are set, and `other` elsewhere. */
  predicate Mixed(word: bv32, choice: bv32, mine: bv32, other: bv32) {
    word & choice == mine & choice && word & !choice == other & !choice
  }

  lemma TakenOver(others: bv32, arg: bv32, settable: bv32)
    ensures Mixed(TakeOver(others, arg, settable), settable, arg, others)
  {
  }

  /** The results of calls that fail, without and with the mask that clears the bit, and of an F_SETFL
      that works. */
  lemma Words()
    ensures Word(FAILED) == 0xFFFF_FFFF && Word(FAILED.(nonblock := false)) == 0xFFFF_F7FF && Word(SUCCESS) == 0
  {
  }

  /** A plain descriptor: F_GETFL gives its flags; F_SETFL takes the O_NONBLOCK bit and the other
      settable ones from its argument and returns 0; what fails gives -1 and changes nothing. */
  lemma PlainExactly(flags: Flags, arg: Flags, settable: bv32)
    ensures PlainStep(flags, GetFlags(true), settable) == (flags, flags)
    ensures PlainStep(flags, GetFlags(false), settable) == PlainStep(flags, SetFlags(arg, false), settable)
    ensures PlainStep(flags, GetFlags(false), settable) == (flags, FAILED) && Word(FAILED) == 0xFFFF_FFFF
    ensures var (flags', r) := PlainStep(flags, SetFlags(arg, true), settable);
      && r == Flags(false, 0) && flags'.nonblock == arg.nonblock
      && Mixed(flags'.others, settable, arg.others, flags.others)
  {
    TakenOver(flags.others, arg.others, settable);
    Words();
    hide TakeOver, Mixed, Word;
  }

  /** The hooked F_GETFL gives the kernel's word with the user's bit in it, be it the -1 of a
      failure. */
  lemma HookedGetExactly(s: Socket, ok: bool, settable: bv32)
    ensures var (s', r) := HookedStep(s, GetFlags(ok), settable);
      s' == s && r == Flags(s.user, if ok then s.kernel.others else FAILED.others)
  {
  }

  /** The hooked F_SETFL notes the user's bit first, and asks the kernel for the rest, with
      O_NONBLOCK set as the system wants it; the result is the kernel's. */
  lemma HookedSetExactly(s: Socket, arg: Flags, ok: bool, settable: bv32)
    ensures var (s', r) := HookedStep(s, SetFlags(arg, ok), settable);
      && s'.user == arg.nonblock && s'.sys == s.sys && r == (if ok then SUCCESS else FAILED)
      && (!ok ==> s'.kernel == s.kernel)
      && (ok ==> s'.kernel.nonblock == s.sys && Mixed(s'.kernel.others, settable, arg.others, s.kernel.others))
  {
    TakenOver(s.kernel.others, arg.others, settable);
    hide TakeOver, Mixed;
  }

  // ----- Simulation -----

  /** What the user sees is what a plain descriptor would show. */
  predicate Agrees(s: Socket, plain: Flags) {
    plain == s.kernel.(nonblock := s.user)
  }

  /** A failing F_SETFL changes the user's bit all the same: the overlay stays right exactly
      if the call did not ask for a change of that bit. */
  lemma FailedSetAgreesExactly(s: Socket, plain: Flags, arg: Flags, settable: bv32)
    requires Agrees(s, plain)
    ensures Agrees(HookedStep(s, SetFlags(arg, false), settable).0, plain) <==> arg.nonblock == s.user
  {
  }

  /** A failing F_GETFL is reported as such exactly when the user's bit is set: else the mask
      turns -1 into another number. */
  lemma FailedGetExactly(s: Socket, settable: bv32)
    ensures HookedStep(s, GetFlags(false), settable).1 == FAILED <==> s.user
  {
  }

  // ----- Histories -----

  function PlainResults(flags: Flags, ops: seq<Op>, settable: bv32): seq<Flags>
    decreases |ops|
  {
    if ops == [] then []
    else
      var (flags', r) := PlainStep(flags, ops[0], settable);
      [r] + PlainResults(flags', ops[1..], settable)
  }

  function HookedResults(s: Socket, ops: seq<Op>, settable: bv32): seq<Flags>
    decreases |ops|
  {
    if ops == [] then []
    else
      var (s', r) := HookedStep(s, ops[0], settable);
      [r] + HookedResults(s', ops[1..], settable)
  }

  function After(s: Socket, ops: seq<Op>, settable: bv32): Socket
    decreases |ops|
  {
    if ops == [] then s else After(HookedStep(s, ops[0], settable).0, ops[1..], settable)
  }

  /** No call of the history shows a difference. `user` is the bit that was last asked for,
      `plain` the one that was last set with success: an F_GETFL that works shows where they
      differ, and one that fails shows when the first is clear. */
  predicate InStep(user: bool, plain: bool, ops: seq<Op>)
    decreases |ops|
  {
    ops == [] ||
    match ops[0]
    case GetFlags(ok) => (if ok then user == plain else user) && InStep(user, plain, ops[1..])
    case SetFlags(arg, ok) => InStep(arg.nonblock, if ok then arg.nonblock else plain, ops[1..])
  }

  /** Apart from the O_NONBLOCK bit the kernel holds what a plain descriptor would. */
  predicate Tracks(s: Socket, plain: Flags) {
    s.kernel.others == plain.others && s.sys && s.kernel.nonblock
  }

  lemma StepTracks(s: Socket, plain: Flags, op: Op, settable: bv32)
    requires Tracks(s, plain)
    ensures var (s', r) := HookedStep(s, op, settable); var (plain', r') := PlainStep(plain, op, settable);
      && Tracks(s', plain')
      && (InStep(s.user, plain.nonblock, [op]) <==> r == r')
      && s'.user == (if op.SetFlags? then op.arg.nonblock else s.user)
      && plain'.nonblock == if op.SetFlags? && op.ok then op.arg.nonblock else plain.nonblock
  {
    hide TakeOver;
  }

  lemma FirstInStep(user: bool, plain: bool, ops: seq<Op>)
    requires ops != []
    ensures InStep(user, plain, ops) <==>
      && InStep(user, plain, [ops[0]])
      && InStep(if ops[0].SetFlags? then ops[0].arg.nonblock else user,
                if ops[0].SetFlags? && ops[0].ok then ops[0].arg.nonblock else plain, ops[1..])
  {
    assert [ops[0]][1..] == [];
  }

  lemma Heads(r: Flags, rest: seq<Flags>, r': Flags, rest': seq<Flags>)
    ensures [r] + rest == [r'] + rest' <==> r == r' && rest == rest'
  {
    assert ([r] + rest)[0] == r && ([r'] + rest')[0] == r';
    assert ([r] + rest)[1..] == rest && ([r'] + rest')[1..] == rest';
  }

  lemma {:induction false} TracksAll(s: Socket, plain: Flags, ops: seq<Op>, settable: bv32)
    requires Tracks(s, plain)
    ensures HookedResults(s, ops, settable) == PlainResults(plain, ops, settable)
      <==> InStep(s.user, plain.nonblock, ops)
    ensures After(s, ops, settable).kernel.nonblock
    decreases |ops|
  {
    if ops != [] {
      var (s', r) := HookedStep(s, ops[0], settable);
      var (plain', r') := PlainStep(plain, ops[0], settable);
      StepTracks(s, plain, ops[0], settable);
      FirstInStep(s.user, plain.nonblock, ops);
      hide HookedStep, PlainStep, Tracks, InStep;
      TracksAll(s', plain', ops[1..], settable);
      Heads(r, HookedResults(s', ops[1..], settable), r', PlainResults(plain', ops[1..], settable));
    }
  }

  /** On a managed socket, a history of F_SETFL and F_GETFL, failures included, gives the
      results of a plain descriptor exactly if it is in step from the creation flags on; and
      the kernel's own flag stays non-blocking throughout any history. */
  lemma Overlay(flags: Flags, ops: seq<Op>, settable: bv32)
    ensures HookedResults(Adopt(flags), ops, settable) == PlainResults(flags, ops, settable)
      <==> InStep(false, flags.nonblock, ops)
    ensures After(Adopt(flags), ops, settable).kernel.nonblock
  {
    TracksAll(Adopt(flags), flags, ops, settable);
  }

  predicate AllOk(ops: seq<Op>) {
    forall op <- ops :: op.ok
  }

  lemma {:induction false} OkInStep(bit: bool, ops: seq<Op>)
    requires AllOk(ops)
    ensures InStep(bit, bit, ops)
    decreases |ops|
  {
    if ops != [] {
      assert ops[0] in ops;
      OkInStep(if ops[0].SetFlags? then ops[0].arg.nonblock else bit, ops[1..]);
    }
  }

  /** The creation flags matter only until the first F_SETFL: with calls that succeed, the
      results are a plain descriptor's exactly if the socket was created blocking or the
      user does not ask before setting. */
  lemma OverlayExactly(flags: Flags, ops: seq<Op>, settable: bv32)
    requires AllOk(ops)
    ensures HookedResults(Adopt(flags), ops, settable) == PlainResults(flags, ops, settable)
      <==> !flags.nonblock || ops == [] || ops[0].SetFlags?
  {
    Overlay(flags, ops, settable);
    if ops != [] {
      assert ops[0] in ops;
      OkInStep(if ops[0].SetFlags? then ops[0].arg.nonblock else false, ops[1..]);
    }
  }

  // ----- The kernel's side, and FdCtx -----

  /** The open descriptors of the process: their status flags, and which are sockets. */
  class Kernel {
    var flags: map<nat, Flags>
    var sockets: set<nat>
    const settable: bv32

    /** The flags of fd, if it is open. */
    function At(fd: nat): Flags
      reads this
    {
      if fd in flags then flags[fd] else FAILED
    }

    /** fcntl(fd, F_SETFL, arg); `ok` is false when it fails for a reason of its own. */
    method SetFlags(fd: nat, arg: Flags, ok: bool) returns (r: Flags)
      modifies this`flags
      ensures fd in old(flags) && ok ==> r == SUCCESS && flags == old(flags)[fd := SetFl(old(flags)[fd], arg, settable)]
      ensures !(fd in old(flags) && ok) ==> r == FAILED && flags == old(flags)
    {
      if fd in flags && ok {
        flags := flags[fd := SetFl(flags[fd], arg, settable)];
        r := SUCCESS;
      } else {
        r := FAILED;
      }
    }

    /** fcntl(fd, F_GETFL). */
    method GetFlags(fd: nat, ok: bool) returns (r: Flags)
      ensures r == if fd in flags && ok then flags[fd] else FAILED
    {
      r := if fd in flags && ok then flags[fd] else FAILED;
    }
  }

  /** (uint64_t)-1: no timeout. */
  const NO_TIMEOUT := 0xFFFF_FFFF_FFFF_FFFF

  class FdCtx {
    const fd: nat
    var isInit: bool
    var isSocket: bool
    var sysNonblock: bool
    var userNonblock: bool
    var isClosed: bool
    var recvTimeout: nat
    var sendTimeout: nat

    /** The constructor runs init: a socket is made non-blocking behind the user's back. */
    constructor (fd: nat, kernel: Kernel)
      modifies kernel`flags
      ensures this.fd == fd && isInit == (fd in old(kernel.flags))
      ensures isSocket == sysNonblock == (fd in old(kernel.flags) && fd in kernel.sockets)
      ensures !userNonblock && !isClosed && recvTimeout == NO_TIMEOUT && sendTimeout == NO_TIMEOUT
      ensures !isSocket ==> kernel.flags == old(kernel.flags)
      ensures isSocket ==> kernel.flags == old(kernel.flags)[fd := old(kernel.flags)[fd].(nonblock := true)]
    {
      this.fd := fd;
      isInit, isSocket, sysNonblock, userNonblock, isClosed := false, false, false, false, false;
      recvTimeout, sendTimeout := NO_TIMEOUT, NO_TIMEOUT;
      new;
      if fd in kernel.flags {
        isInit := true;
        isSocket := fd in kernel.sockets;
      }
      if isSocket {
        var flags := kernel.GetFlags(fd, true);
        if !flags.nonblock {
          var _ := kernel.SetFlags(fd, flags.(nonblock := true), true);
          SetBack(flags.others, kernel.settable);
        }
        sysNonblock := true;
      }
    }

    /** The socket as the overlay sees it. */
    function View(kernel: Kernel): Socket
      reads this, kernel
    {
      Socket(kernel.At(fd), userNonblock, sysNonblock)
    }
  }

  lemma SetBack(others: bv32, settable: bv32)
    ensures TakeOver(others, others, settable) == others
  {
  }

  // ----- FdManager, and the hooked fcntl -----

  class FdManager {
    var datas: seq<FdCtx?>

    constructor ()
      ensures |datas| == 64 && forall fd: nat :: Lookup(fd) == null
    {
      datas := seq(64, _ => null);
    }

    /** The context of fd, or null. */
    function Lookup(fd: nat): FdCtx?
      reads this
    {
      if fd < |datas| then datas[fd] else null
    }

    /** get: the context that is there, or a new one if asked for. */
    method Get(fd: nat, autoCreate: bool, kernel: Kernel) returns (ctx: FdCtx?)
      requires |datas| >= 64
      modifies this, kernel`flags
      ensures |datas| == if autoCreate && fd >= old(|datas|) then fd + fd / 2 else old(|datas|)
      ensures old(Lookup(fd)) != null || !autoCreate ==>
        ctx == old(Lookup(fd)) && datas == old(datas) && kernel.flags == old(kernel.flags)
      ensures old(Lookup(fd)) == null && autoCreate ==>
        && ctx != null && fresh(ctx) && ctx.fd == fd && Lookup(fd) == ctx
        && (forall g: nat :: g != fd ==> Lookup(g) == old(Lookup(g)))
        && (ctx.isSocket <==> fd in old(kernel.flags) && fd in kernel.sockets)
        && (ctx.isSocket ==>
              && kernel.flags == old(kernel.flags)[fd := old(kernel.flags)[fd].(nonblock := true)]
              && ctx.View(kernel) == Adopt(old(kernel.flags)[fd]) && !ctx.userNonblock && ctx.sysNonblock)
    {
      if fd < |datas| {
        if datas[fd] != null {
          return datas[fd];
        }
      }
      if autoCreate {
        ctx := new FdCtx(fd, kernel);
        if fd >= |datas| {
          datas := datas + seq(fd * 3 / 2 - |datas|, _ => null);
        }
        datas := datas[fd := ctx];
        return ctx;
      }
      return null;
    }

    method Del(fd: nat)
      modifies this
      ensures |datas| == old(|datas|) && Lookup(fd) == null
      ensures forall g: nat :: g != fd ==> Lookup(g) == old(Lookup(g))
    {
      if fd < |datas| {
        datas := datas[fd := null];
      }
    }

    /** The overlay applies to fd: it has the context of an open socket. */
    predicate Managed(fd: nat)
      reads this, Lookup(fd)
    {
      Lookup(fd) != null && !Lookup(fd).isClosed && Lookup(fd).isSocket
    }

    /** The hooked fcntl, F_SETFL and F_GETFL. On a descriptor that is not open, all calls of
        the kernel's fail. */
    method Fcntl(fd: nat, op: Op, kernel: Kernel) returns (r: Flags)
      requires |datas| >= 64
      requires Lookup(fd) != null ==> Lookup(fd).fd == fd
      modifies this, kernel`flags, Lookup(fd)
      ensures datas == old(datas)
      ensures var op' := op.(ok := op.ok && fd in old(kernel.flags));
        if old(Managed(fd))
        then Managed(fd)
          && (Lookup(fd).View(kernel), r) == HookedStep(old(Lookup(fd).View(kernel)), op', kernel.settable)
        else (kernel.At(fd), r) == PlainStep(old(kernel.At(fd)), op', kernel.settable)
      ensures forall g: nat ::
        (g in kernel.flags <==> g in old(kernel.flags)) && (g != fd ==> kernel.At(g) == old(kernel.At(g)))
    {
      match op
      case SetFlags(arg, ok) =>
        var ctx := Get(fd, false, kernel);
        if ctx == null || ctx.isClosed || !ctx.isSocket {
          r := kernel.SetFlags(fd, arg, ok);
          return;
        }
        ctx.userNonblock := arg.nonblock;
        var arg' := if ctx.sysNonblock then arg.(nonblock := true) else arg.(nonblock := false);
        r := kernel.SetFlags(fd, arg', ok);
      case GetFlags(ok) =>
        var arg := kernel.GetFlags(fd, ok);
        var ctx := Get(fd, false, kernel);
        if ctx == null || ctx.isClosed || !ctx.isSocket {
          return arg;
        }
        if ctx.userNonblock {
          return arg.(nonblock := true);
        } else {
          return arg.(nonblock := false);
        }
    }
  }
}
