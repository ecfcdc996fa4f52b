/**
  Start-up, wait_for_recv, the forwarding functions and the event loops as programs on the engine
  in memory. `script` holds what the environment will do; `log` records the steps taken, and the
  state in memory is always the one the state machine reaches by them from its initial state. So
  whatever is proved of every run of the state machine holds of these programs.
 */
module EventLoop {
  import opened Base
  import opened Engine
  import opened Machine
  import opened Ownership
  import opened OwnershipSteps
  import opened Invariant
  import opened EngineFrames
  import opened RunLog
  import opened Ledger
  import opened Sessions
  import opened CodedLedger
  import opened Causes
  import opened Devices
  import Stopping
  import U = Uring

  /** How wait_for_recv ends: with an operation, or with the loop to be left. */
  ghost predicate Returned(ph: Phase, op: Option<nat>) {
    if op.Some? then ph == Back(op.value) else ph.Stopped? && ph.last == None
  }

  /** The program did not leave its loop by the loop's guard. */
  ghost predicate Failing(log: seq<Label>) { log != [] && Run(false) !in log }

  /** An edge has its receive, and all the reads it was configured for or had operations for, on its device. */
  ghost predicate StartedUp(s: Sys, nOps: nat, nReads: nat, tunFd: int, udpFd: int) {
    0 < nOps && s.tunReads == Min(nReads, nOps - 1) && OnDevice(s.e, tunFd) && s.udp.Keys == {udpFd}
  }

  class Loop {
    const ctx: U.Context
    var peers: map<int, Addr>
    var script: seq<Label>
    ghost const start: Sys
    ghost const env: seq<Label>
    ghost var sys: Sys
    ghost var log: seq<Label>

    ghost predicate Valid()
      reads this, ctx, ctx.br, ctx.br.slots
    {
      && ctx.Valid() && sys.e == ctx.View() && sys.peers == peers && Reaches(start, log, sys)
      && Obeyed(env, script, log, sys.phase)
    }

    /** Turns that are left: kernel steps of the script, and completions. */
    ghost function Budget(): nat
      reads this, ctx
    {
      2 * |script| + |ctx.cq|
    }

    /** The program keeps running in the same part, and steps are only added. */
    twostate predicate Goes()
      reads this, ctx
    {
      sys.mode == old(sys.mode) && old(log) <= log && Budget() <= old(Budget())
    }

    constructor (nOps: nat, ringLog: nat, peers: map<int, Addr>, script: seq<Label>)
      requires ringLog <= 15
      ensures Valid() && fresh(ctx) && fresh(ctx.br) && fresh(ctx.br.slots)
      ensures sys == start == Initial(nOps, U.B.Pow2(ringLog), peers) && log == [] && this.peers == peers
      ensures this.script == script && env == script
      ensures sys.mode.Setup? && sys.phase == Top(None) && sys.udp == map[] && sys.tunReads == 0
    {
      ctx := new U.Context(nOps, ringLog);
      this.peers, this.script := peers, script;
      start := Initial(nOps, U.B.Pow2(ringLog), peers);
      sys, log := Initial(nOps, U.B.Pow2(ringLog), peers), [];
      env := script;
      ObeyedStart(script, Top(None));
    }

    /** A step of the program, with label `l`, is recorded. */
    ghost method Record(l: Label, next: Sys)
      requires Reaches(start, log + [l], next) && Obeyed(env, script, log, sys.phase) && !sys.phase.Stopped?
      requires !IsKernel(l) && Drawn(env, l)
      requires (l == WaitFails || l == Run(false) ==> next.phase.Stopped?) && (l == WaitFails ==> script == [])
      modifies this`sys, this`log
      ensures Reaches(start, log, sys) && Obeyed(env, script, log, sys.phase)
      ensures sys == next && log == old(log) + [l] && Failing(log) == (l != Run(false))
    {
      ObeyedRecord(env, script, log, sys.phase, l, next.phase);
      sys := next;
      log := log + [l];
    }

    // -------------------------------------------------------------- environment

    /** The kernel's memory operation for one of its steps. */
    method KernelWorks(l: Label)
      requires ctx.Valid() && IsKernel(l) && KernelSafe(ctx.View(), l)
      modifies ctx, ctx.br
      ensures ctx.Valid() && ctx.View() == KernelEngine(old(ctx.View()), l)
    {
      match l {
        case KRead(o, data) => ctx.KernelRead(o, data);
        case KComplete(o, res) => ctx.KernelComplete(o, res);
        case KRecv(o, name, payload, more) => ctx.KernelRecv(o, name, payload, more);
        case KNoBuffer(o, res, more) => ctx.KernelNoBuffer(o, res, more);
      }
    }

    /** The kernel takes its next step. */
    method KernelActs()
      requires Valid() && script != [] && IsKernel(script[0]) && !sys.phase.Stopped?
      modifies this`sys, this`log, this`script, ctx, ctx.br
      ensures Valid() && Goes() && sys.phase == old(sys.phase) && |script| < old(|script|)
    {
      ghost var next := KernelTo(start, log, sys, script[0]);
      ObeyedKernel(env, script, log, sys.phase);
      KernelWorks(script[0]);
      sys, log := next, log + [script[0]];
      script := script[1..];
    }

    /** The kernel acts as long as the script lets it. */
    method Interfere()
      requires Valid() && !sys.phase.Stopped?
      modifies this`sys, this`log, this`script, ctx, ctx.br
      ensures Valid() && Goes() && sys.phase == old(sys.phase)
      ensures script == [] || !IsKernel(script[0])
    {
      while script != [] && IsKernel(script[0])
        invariant Valid() && Goes() && sys.phase == old(sys.phase)
        decreases |script|
      {
        KernelActs();
      }
    }

    /** The environment's answer to the next call of the program. */
    method Choose() returns (l: Label)
      requires Valid()
      modifies this`script
      ensures Valid() && l.Act? && |script| <= old(|script|) && (l == GO || l in env)
      ensures if old(script) != [] && old(script)[0].Act? then l == old(script)[0] && script == old(script)[1..]
              else l == GO && script == old(script)
    {
      if script != [] && script[0].Act? {
        ObeyedSkip(env, script, log, sys.phase);
        l := script[0];
        script := script[1..];
      } else {
        l := GO;
      }
    }

    // -------------------------------------------------------------- start-up

    /** A multishot operation is allocated and its request submitted, in memory. */
    method ArmsNew(fd: int, out: Outcome, ghost lost: multiset<nat>) returns (n: Option<nat>, ok: bool)
      requires ctx.Valid() && Own(ctx.View(), multiset{}, lost)
      modifies ctx
      ensures ctx.Valid()
      ensures var (e1, r) := AllocBuf(old(ctx.View()), UdpRecv, fd, true, None);
        && n == r
        && if r.None? then ctx.View() == e1 && !ok else (ctx.View(), ok) == Arm(e1, r.value, out)
    {
      n := ctx.AllocBuf(UdpRecv, fd, true, None, multiset{}, lost);
      ok := false;
      if n.Some? {
        ok := ctx.Arm(n.value, out);
      }
    }

    /** iouring_submit_multishot_recvmsg. */
    method SubmitsMultishot(fd: int, out: Outcome) returns (ok: bool)
      requires Valid() && sys.phase.Top? && sys.mode.Setup? && fd !in sys.udp && Drawn(env, ArmUdp(fd, out))
      modifies this`sys, this`log, ctx
      ensures Valid() && Goes() && sys.tunReads == old(sys.tunReads)
      ensures ok <==> old(ctx.freeOps) != [] && out == Accepted
      ensures if ok then sys.phase == old(sys.phase) && sys.udp.Keys == old(sys.udp.Keys) + {fd}
              else Returned(sys.phase, None)
      ensures ok ==> sys.udp[fd] in ctx.armed && ctx.freeOps == old(ctx.freeOps)[1..]
      ensures log == old(log) + [ArmUdp(fd, out)]
      ensures !ok ==> Failing(log)
    {
      ghost var next := FirstArmTo(start, log, sys, fd, out);
      var n;
      n, ok := ArmsNew(fd, out, sys.lost);
      Record(ArmUdp(fd, out), next);
    }

    /** One turn of the loop of iouring_initial_tun_reads, in memory. */
    method ReadsNew(fd: int, out: Outcome, ghost lost: multiset<nat>) returns (k: nat, ok: bool)
      requires ctx.Valid() && Own(ctx.View(), multiset{}, lost)
      modifies ctx, ctx.br, ctx.br.slots
      ensures ctx.Valid() && (ctx.View(), k, ok) == FirstReadEngine(old(ctx.View()), fd, out)
    {
      AllocNew(ctx.View(), TunRead, fd, multiset{}, lost);
      var n := ctx.AllocBuf(TunRead, fd, false, None, multiset{}, lost);
      if n.None? {
        return 0, true;
      }
      ghost var e := ctx.View();
      ok := ctx.SubmitRead(n.value, out);
      if ok {
        return 1, true;
      }
      SameCounts(e, ctx.View(), multiset{} + multiset{n.value}, lost);
      var _ := ctx.Free(n.value, multiset{} + multiset{n.value}, lost);
      return 0, false;
    }

    method StartsRead(fd: int, out: Outcome) returns (k: nat, ok: bool)
      requires Valid() && sys.phase.Top? && sys.mode.Setup? && Drawn(env, StartRead(fd, out))
      modifies this`sys, this`log, ctx, ctx.br, ctx.br.slots
      ensures Valid() && Goes() && sys.udp == old(sys.udp)
      ensures ReadTurned(old(ctx.View()), fd, out, ctx.View(), k, ok) && ReadsCounted(old(sys), sys, fd, k)
      ensures ok == (old(sys.e.freeOps) == [] || out == Accepted)
      ensures k == if old(sys.e.freeOps) != [] && out == Accepted then 1 else 0
      ensures log == old(log) + [StartRead(fd, out)] && (!ok ==> Failing(log))
      ensures if ok then sys.phase == old(sys.phase) else Returned(sys.phase, None)
    {
      ghost var next := FirstReadTo(start, log, sys, fd, out);
      k, ok := ReadsNew(fd, out, sys.lost);
      Record(StartRead(fd, out), next);
    }

    /** One turn of the loop of iouring_initial_tun_reads, after `k` reads were added since `s0`. */
    method ReadsMore(fd: int, ghost s0: Sys, ghost k: nat, ghost log0: seq<Label>) returns (ok: bool, ghost k': nat)
      requires Valid() && sys.phase.Top? && sys.mode.Setup? && ReadsCounted(s0, sys, fd, k) && ReadsOnly(log0, log, fd)
      modifies this`sys, this`log, this`script, ctx, ctx.br, ctx.br.slots
      ensures Valid() && Goes() && sys.udp == old(sys.udp)
      ensures if ok then sys.phase == old(sys.phase) else Returned(sys.phase, None) && RefusedRead(log, fd) && Failing(log)
      ensures ReadsCounted(s0, sys, fd, k') && ReadsOnly(log0, log, fd)
      ensures if ok then k' == Min(k + 1, |s0.e.freeOps|) else k' == k < |s0.e.freeOps|
    {
      ghost var s1 := sys;
      var l := Choose();
      var j;
      j, ok := StartsRead(fd, l.out);
      ReadsCountedMore(s0, s1, sys, fd, k, j);
      ReadsOnlyMore(log0, old(log), StartRead(fd, l.out), fd);
      k' := k + j;
    }

    /**
      iouring_initial_tun_reads: it submits as many reads as configured, or as there are free
      operations, each into a pool buffer; it fails only when the kernel refuses one.
     */
    method InitialTunReads(fd: int, count: nat, ghost log0: seq<Label>) returns (ok: bool)
      requires Valid() && sys.phase.Top? && sys.mode.Setup? && ReadsOnly(log0, log, fd)
      modifies this`sys, this`log, this`script, ctx, ctx.br, ctx.br.slots
      ensures Valid() && Goes() && sys.udp == old(sys.udp) && old(sys.tunReads) <= sys.tunReads
      ensures ReadsCounted(old(sys), sys, fd, sys.tunReads - old(sys.tunReads)) && ReadsOnly(log0, log, fd)
      ensures if ok then sys.tunReads - old(sys.tunReads) == Min(count, |old(sys.e.freeOps)|)
              else sys.tunReads - old(sys.tunReads) < Min(count, |old(sys.e.freeOps)|)
      ensures if ok then sys.phase == old(sys.phase) else Returned(sys.phase, None) && RefusedRead(log, fd) && Failing(log)
    {
      ghost var s0, k := sys, 0;
      NoReadsCounted(s0, fd);
      for i := 0 to count
        invariant Valid() && Goes() && sys.udp == s0.udp && sys.phase == s0.phase
        invariant k == Min(i, |s0.e.freeOps|) && ReadsCounted(s0, sys, fd, k) && ReadsOnly(log0, log, fd)
      {
        ok, k := ReadsMore(fd, s0, k, log0);
        if !ok {
          return;
        }
      }
      ok := true;
    }

    /** The receive and the reads of an edge are submitted. */
    method StartsUp(tunFd: int, udpFd: int, count: nat) returns (ok: bool)
      requires Valid() && sys.phase == Top(None) && sys.mode.Setup? && sys.udp == map[] && sys.tunReads == 0
      modifies this`sys, this`log, this`script, ctx, ctx.br, ctx.br.slots
      ensures Valid() && Goes()
      ensures if ok then sys.phase == Top(None) && sys.udp.Keys == {udpFd} else Returned(sys.phase, None) && Failing(log)
      ensures ok ==> old(sys.e.freeOps) != [] && sys.tunReads == Min(count, |old(sys.e.freeOps)| - 1)
      ensures ok ==> ReadsOnly(old(log), log, tunFd)
    {
      var l := Choose();
      NoReadsYet(log, tunFd);
      ReadsOnlyMore(log, log, ArmUdp(udpFd, l.out), tunFd);
      ok := SubmitsMultishot(udpFd, l.out);
      if ok {
        ok := InitialTunReads(tunFd, count, old(log));
      }
    }

    /** Start-up is over and an event loop begins. */
    method Enters(mode: Mode)
      requires Valid() && sys.phase.Top? && sys.mode.Setup? && !mode.Handshake?
      modifies this`sys, this`log
      ensures Valid() && old(log) <= log && sys == old(sys).(mode := mode) && script == old(script)
    {
      ghost var next := EnterTo(start, log, sys, mode);
      Record(Enter(mode), next);
    }

    // -------------------------------------------------------------- wait_for_recv

    /** The oldest completion is taken and decoded, in memory. */
    method TakeDecode() returns (t: Turned)
      requires ctx.Valid() && ctx.cq != [] && CqeSafe(ctx.View(), ctx.cq[0])
      modifies ctx
      ensures ctx.Valid() && (ctx.View(), t) == TakeEngine(old(ctx.View()))
    {
      var c := ctx.TakeCqe();
      if c.res < 0 {
        return Dead;
      }
      ctx.SetLen(c.op, c.res);
      if !ctx.ops[c.op].isMulti {
        return Single(c.op);
      }
      var ok := ctx.Decode(c.op, if c.MultiCqe? then c.buf else None);
      return if !ok then Broken(c.op) else if c.MultiCqe? && c.more then Decoded(c.op) else Ended(c.op);
    }

    method TakeTurn() returns (t: Turned)
      requires Valid() && sys.phase.Wait? && ctx.cq != []
      modifies this`sys, this`log, ctx
      ensures Valid() && Goes() && Budget() < old(Budget())
      ensures Follows(sys.phase, t) && Failing(log)
    {
      ghost var next := NextTo(start, log, sys);
      t := TakeDecode();
      Record(Next, next);
    }

    /** A finished send or write is released; a finished read starts to be replaced. */
    method Dispatches(o: nat) returns (isRead: bool, r: Option<nat>)
      requires Valid() && sys.phase == Got(o)
      modifies this`sys, this`log, ctx, ctx.br, ctx.br.slots
      ensures Valid() && Goes()
      ensures sys.phase == if !isRead then Wait else if r.None? then Bail(o, multiset{}) else Resub(o, r.value)
      ensures var e := old(ctx.View());
        if isRead then (ctx.View(), r) == AllocBuf(e, TunRead, e.At(o).fd, false, None) else ctx.View() == Free(e, o).0
      ensures isRead ==> (r.None? <==> old(ctx.freeOps) == [])
    {
      ghost var next := GotTo(start, log, sys, o, GO);
      AllocFails(sys.e, TunRead, ctx.ops[o].fd, None, multiset{o}, sys.lost);
      isRead := ctx.ops[o].opType == TunRead;
      if isRead {
        r := ctx.AllocBuf(TunRead, ctx.ops[o].fd, false, None, multiset{o}, sys.lost);
      } else {
        r := ctx.Free(o, multiset{o}, sys.lost);
      }
      Record(GO, next);
    }

    /** The new read is submitted. */
    method Resubmits(o: nat, n: nat) returns (ok: bool)
      requires Valid() && sys.phase == Resub(o, n)
      modifies this`sys, this`log, this`script, ctx, ctx.br
      ensures Valid() && Goes()
      ensures sys.phase == if ok then Back(o) else Bail(o, multiset{n})
    {
      Interfere();
      var l := Choose();
      ghost var next := ResubTo(start, log, sys, o, n, l);
      ok := ctx.SubmitRead(n, l.out);
      Record(l, next);
    }

    /** An ended multishot request is submitted again. */
    method Reactivates(o: nat) returns (ok: bool)
      requires Valid() && sys.phase == Rearm(o)
      modifies this`sys, this`log, this`script, ctx, ctx.br
      ensures Valid() && Goes()
      ensures sys.phase == if ok then Back(o) else Bail(o, multiset{})
    {
      Interfere();
      var l := Choose();
      ghost var next := RearmTo(start, log, sys, o, l);
      ok := ctx.Arm(o, l.out);
      Record(l, next);
    }

    /** The failure path of wait_for_recv releases the operation. */
    method GiveUp(o: nat)
      requires Valid() && sys.phase.Bail? && sys.phase.op == o
      modifies this`sys, this`log, ctx, ctx.br, ctx.br.slots
      ensures Valid() && Goes() && Returned(sys.phase, None) && Failing(log)
    {
      ghost var next := BailTo(start, log, sys, o, GO);
      var _ := ctx.Free(o, Hand(sys.e, sys.phase), sys.lost);
      Record(GO, next);
    }

    method WaitEnds()
      requires Valid() && sys.phase.Wait? && script == [] && ctx.cq == []
      modifies this`sys, this`log
      ensures Valid() && Goes() && Returned(sys.phase, None) && Failing(log)
    {
      ghost var next := WaitFailsTo(start, log, sys);
      Record(WaitFails, next);
    }

    /** A single-shot completion: whether the loop is done, and the operation it returns. */
    method ProceedSingle(o: nat) returns (done: bool, op: Option<nat>)
      requires Valid() && sys.phase == Got(o)
      modifies this`sys, this`log, this`script, ctx, ctx.br, ctx.br.slots
      ensures Valid() && Goes()
      ensures if done then Returned(sys.phase, op) && (op.None? ==> Failing(log)) else sys.phase.Wait?
    {
      var isRead, r := Dispatches(o);
      if !isRead {
        return false, None;
      }
      if r.Some? {
        var ok := Resubmits(o, r.value);
        if ok {
          return true, Some(o);
        }
      }
      GiveUp(o);
      return true, None;
    }

    /** The switch of wait_for_recv. */
    method Proceed(t: Turned) returns (done: bool, op: Option<nat>)
      requires Valid() && Follows(sys.phase, t) && Failing(log)
      modifies this`sys, this`log, this`script, ctx, ctx.br, ctx.br.slots
      ensures Valid() && Goes()
      ensures if done then Returned(sys.phase, op) && (op.None? ==> Failing(log)) else sys.phase.Wait?
    {
      match t {
        case Single(o) =>
          done, op := ProceedSingle(o);
        case Decoded(o) =>
          return true, Some(o);
        case Ended(o) =>
          var ok := Reactivates(o);
          if ok {
            return true, Some(o);
          }
          GiveUp(o);
          return true, None;
        case Broken(o) =>
          GiveUp(o);
          return true, None;
        case Dead =>
          return true, None;
      }
    }

    /** One turn of the loop of wait_for_recv. A used-up script stands for a wait call that fails. */
    method WaitTurn() returns (done: bool, op: Option<nat>)
      requires Valid() && sys.phase.Wait?
      modifies this`sys, this`log, this`script, ctx, ctx.br, ctx.br.slots
      ensures Valid() && Goes()
      ensures if done then Returned(sys.phase, op) && (op.None? ==> Failing(log)) else sys.phase.Wait?
      ensures !done || op.Some? ==> Budget() < old(Budget())
    {
      Interfere();
      if ctx.cq == [] {
        if script == [] {
          WaitEnds();
          return true, None;
        }
        ObeyedSkip(env, script, log, sys.phase);
        script := script[1..];  // a time-out
        return false, None;
      }
      var t := TakeTurn();
      done, op := Proceed(t);
    }

    /** wait_for_recv. */
    method WaitForRecv() returns (op: Option<nat>)
      requires Valid() && sys.phase.Wait?
      modifies this`sys, this`log, this`script, ctx, ctx.br, ctx.br.slots
      ensures Valid() && Goes() && Returned(sys.phase, op) && (op.None? ==> Failing(log))
      ensures op.Some? ==> Budget() < old(Budget())
    {
      var done := false;
      op := None;
      while !done
        invariant Valid() && Goes()
        invariant if done then Returned(sys.phase, op) && (op.None? ==> Failing(log)) else sys.phase.Wait?
        invariant done && op.Some? ==> Budget() < old(Budget())
        decreases !done, Budget()
      {
        done, op := WaitTurn();
      }
    }

    // -------------------------------------------------------------- forwarding functions

    /** The buffer of `o` moves to an operation for the other side, in memory. */
    method Transfers(o: nat, tunFd: int, udpFd: int, ghost hand: multiset<nat>, ghost lost: multiset<nat>)
        returns (n: Option<nat>)
      requires ctx.Valid() && Own(ctx.View(), hand, lost) && InUse(ctx.View(), o)
      modifies ctx
      ensures ctx.Valid()
      ensures var e := old(ctx.View());
        (ctx.View(), n) == AllocBuf(e, OutType(e, o), OutFd(e, o, tunFd, udpFd), false, Some(o))
    {
      var isRead := ctx.ops[o].opType == TunRead;
      n := ctx.AllocBuf(if isRead then UdpSend else TunWrite, if isRead then udpFd else tunFd, false, Some(o), hand, lost);
    }

    /** tun_to_udp and udp_to_tun up to the submission: the buffer moves to a new operation. */
    method MovesOn(o: nat, tunFd: int, udpFd: int) returns (n: Option<nat>)
      requires Valid() && sys.phase == Back(o) && sys.mode == Zero(tunFd, udpFd)
      modifies this`sys, this`log, this`peers, ctx
      ensures Valid() && Goes() && sys.phase == Outgoing(o, n)
      ensures var e := old(ctx.View());
        && (ctx.View(), n) == AllocBuf(e, OutType(e, o), OutFd(e, o, tunFd, udpFd), false, Some(o))
        && peers == if e.At(o).opType == TunRead then old(peers) else Pin(old(peers), udpFd, e.At(o).addr)
      ensures n.None? <==> old(ctx.freeOps) == []
    {
      BackTo(start, log, sys, o);
      ghost var next := RelayTo(start, log, sys, o, tunFd, udpFd, GO);
      peers := if ctx.ops[o].opType == UdpRecv then Pin(peers, udpFd, ctx.ops[o].addr) else peers;
      AllocFails(sys.e, OutType(sys.e, o), OutFd(sys.e, o, tunFd, udpFd), Some(o), Holding(sys.e, o), sys.lost);
      n := Transfers(o, tunFd, udpFd, Holding(sys.e, o), sys.lost);
      Record(GO, next);
    }

    /** A new operation is filled with the coded packet, or released when there is none. */
    method Recodes(t: OpType, fd: int, coded: Option<Bytes>, ghost hand: multiset<nat>, ghost lost: multiset<nat>)
        returns (n: Option<nat>)
      requires ctx.Valid() && Own(ctx.View(), hand, lost)
      modifies ctx, ctx.br, ctx.br.slots
      ensures ctx.Valid() && (ctx.View(), n) == RecodeEngine(old(ctx.View()), t, fd, coded)
      ensures n.None? <==> old(ctx.freeOps) == [] || !FitsBuffer(coded)
    {
      AllocFails(ctx.View(), t, fd, None, hand, lost);
      AllocNew(ctx.View(), t, fd, hand, lost);
      n := ctx.AllocBuf(t, fd, false, None, hand, lost);
      if n.None? {
        return;
      }
      if coded.None? || |coded.value| > BUF_SIZE {
        var _ := ctx.Free(n.value, hand + multiset{n.value}, lost);
        return None;
      }
      ctx.Fill(n.value, coded.value);
    }

    /** dtls_encrypt_and_send_udp and dtls_decrypt_and_write_tun up to the submission. */
    method CodesOn(o: nat, tunFd: int, udpFd: int, l: Label) returns (n: Option<nat>)
      requires Valid() && sys.phase == Back(o) && sys.mode == Dtls(tunFd, udpFd) && l.Act? && Drawn(env, l)
      modifies this`sys, this`log, ctx, ctx.br, ctx.br.slots
      ensures Valid() && Goes() && sys.phase == Outgoing(o, n)
      ensures var e := old(ctx.View());
        (ctx.View(), n) == RecodeEngine(e, OutType(e, o), OutFd(e, o, tunFd, udpFd), l.coded)
      ensures n.None? <==> old(ctx.freeOps) == [] || !FitsBuffer(l.coded)
    {
      BackTo(start, log, sys, o);
      ghost var next := RecodeTo(start, log, sys, o, tunFd, udpFd, l);
      var isRead := ctx.ops[o].opType == TunRead;
      n := Recodes(if isRead then UdpSend else TunWrite, if isRead then udpFd else tunFd, l.coded,
                   Holding(sys.e, o), sys.lost);
      Record(l, next);
    }

    /** The check of forwarder_run and forward_udp_packet up to the submission. */
    method ForwardsOn(o: nat, inFd: int, outFd: int, l: Label) returns (n: Option<nat>, left: bool)
      requires Valid() && sys.phase == Back(o) && sys.mode == Forward(inFd, outFd) && l.Act? && Drawn(env, l)
      modifies this`sys, this`log, ctx, ctx.br, ctx.br.slots
      ensures Valid() && Goes()
      ensures if left then n == None && Returned(sys.phase, None) && Failing(log) else sys.phase == Outgoing(o, n)
      ensures var e := old(ctx.View());
        && left == (e.At(o).opType != UdpRecv || !l.plain)
        && if left then ctx.View() == e
           else (ctx.View(), n) == RecodeEngine(e, UdpSend, if e.At(o).fd == inFd then outFd else inFd, l.coded)
      ensures !left ==> (n.None? <==> old(ctx.freeOps) == [] || !FitsBuffer(l.coded))
    {
      BackTo(start, log, sys, o);
      ghost var next := ForwardTo(start, log, sys, o, inFd, outFd, l);
      left := ctx.ops[o].opType != UdpRecv || !l.plain;
      if !left {
        n := Recodes(UdpSend, if ctx.ops[o].fd == inFd then outFd else inFd, l.coded, Holding(sys.e, o), sys.lost);
      } else {
        n := None;
      }
      Record(l, next);
    }

    /** A submission, and the release of an operation that was not accepted. */
    method Sends(n: nat, dest: Addr, out: Outcome, ghost hand: multiset<nat>, ghost lost: multiset<nat>)
        returns (ok: bool)
      requires ctx.Valid() && Own(ctx.View(), hand, lost) && n < |ctx.ops| && n in hand
      modifies ctx, ctx.br, ctx.br.slots
      ensures ctx.Valid() && (ctx.View(), ok) == SendEngine(old(ctx.View()), n, dest, out)
    {
      ghost var before := ctx.View();
      ok := ctx.SubmitOut(n, dest, out);
      if !ok {
        SameCounts(before, ctx.View(), hand, lost);
        var _ := ctx.Free(n, hand, lost);
      }
    }

    method Submits(o: nat, n: nat, l: Label) returns (ok: bool)
      requires Valid() && sys.phase == Send(Some(o), n) && l.Act? && Drawn(env, l)
      modifies this`sys, this`log, ctx, ctx.br, ctx.br.slots
      ensures Valid() && Goes() && sys.phase == Done(o, ok)
      ensures var e := old(ctx.View());
        (ctx.View(), ok) == SendEngine(e, n, DestOf(e, peers, n), l.out) && (ok <==> !Stopping.Refused(e, n, l.out))
    {
      ghost var next := SendTo(start, log, sys, o, n, l);
      var dest := if ctx.ops[n].opType == UdpSend then PeerOf(peers, ctx.ops[n].fd) else [];
      ok := Sends(n, dest, l.out, Hand(sys.e, sys.phase), sys.lost);
      Record(l, next);
    }

    /** The submission in the forwarding functions. */
    method SendsOn(o: nat, n: nat) returns (ok: bool)
      requires Valid() && sys.phase == Send(Some(o), n)
      modifies this`sys, this`log, this`script, ctx, ctx.br, ctx.br.slots
      ensures Valid() && Goes() && sys.phase == Done(o, ok)
    {
      Interfere();
      var l := Choose();
      ok := Submits(o, n, l);
    }

    // -------------------------------------------------------------- the event loops

    /** The io_op_free at the end of a turn of an edge loop, or of a successful turn of the forwarder. */
    method Finishes(o: nat, ok: bool) returns (last: Option<nat>)
      requires Valid() && sys.phase == Done(o, ok) && !sys.mode.Handshake? && (sys.mode.Forward? ==> ok)
      modifies this`sys, this`log, ctx, ctx.br, ctx.br.slots
      ensures Valid() && Goes() && Failing(log)
      ensures sys.phase == if ok then Top(last) else Stopped(last, multiset{})
    {
      ghost var next := FinishTo(start, log, sys, o, ok, GO);
      last := ctx.Free(o, Holding(sys.e, o), sys.lost);
      Record(GO, next);
    }

    /** forwarder_run leaves without releasing the operation. */
    method Abandons(o: nat)
      requires Valid() && sys.phase == Done(o, false) && sys.mode.Forward?
      modifies this`sys, this`log
      ensures Valid() && Goes() && Returned(sys.phase, None) && Failing(log)
    {
      ghost var next := FinishTo(start, log, sys, o, false, GO);
      Record(GO, next);
    }

    /** The guard of an event loop. */
    method Guard(go: bool)
      requires Valid() && sys.phase.Top? && !sys.mode.Setup?
      modifies this`sys, this`log
      ensures Valid() && Goes()
      ensures sys.phase == if go then Wait else Stopped(old(sys.phase.last), multiset{})
      ensures !go ==> !Failing(log) && !LeftByCause(start, log)
    {
      ghost var next := RunTo(start, log, sys, go);
      GuardIsNoCause(start, log, sys);
      Record(Run(go), next);
    }

    /** The switch of an edge loop. */
    method Handles(o: nat, mode: Mode) returns (n: Option<nat>)
      requires Valid() && sys.phase == Back(o) && sys.mode == mode && (mode.Zero? || mode.Dtls?)
      modifies this`sys, this`log, this`script, this`peers, ctx, ctx.br, ctx.br.slots
      ensures Valid() && Goes() && sys.phase == Outgoing(o, n)
    {
      if mode.Zero? {
        n := MovesOn(o, mode.tunFd, mode.udpFd);
      } else {
        var l := Choose();
        n := CodesOn(o, mode.tunFd, mode.udpFd, l);
      }
    }

    /** The head of a turn: the guard holds, and wait_for_recv is called. */
    method Awaits() returns (op: Option<nat>)
      requires Valid() && sys.phase.Top? && !sys.mode.Setup?
      modifies this`sys, this`log, this`script, ctx, ctx.br, ctx.br.slots
      ensures Valid() && Goes() && Returned(sys.phase, op) && (op.None? ==> Failing(log))
      ensures op.Some? ==> Budget() < old(Budget())
    {
      Guard(true);
      op := WaitForRecv();
    }

    /** The rest of a turn of an edge loop, after the outgoing operation was prepared. */
    method EdgeEnd(o: nat, n: Option<nat>) returns (ok: bool, last: Option<nat>)
      requires Valid() && sys.phase == Outgoing(o, n) && (sys.mode.Zero? || sys.mode.Dtls?)
      modifies this`sys, this`log, this`script, ctx, ctx.br, ctx.br.slots
      ensures Valid() && Goes() && Failing(log)
      ensures sys.phase == if ok then Top(last) else Stopped(last, multiset{})
    {
      ok := false;
      if n.Some? {
        ok := SendsOn(o, n.value);
      }
      last := Finishes(o, ok);
    }

    /** One turn of an edge loop: whether it goes on, and the loop's `op` afterwards. */
    method EdgeTurn(mode: Mode) returns (ok: bool, last: Option<nat>)
      requires Valid() && sys.phase.Top? && sys.mode == mode && (mode.Zero? || mode.Dtls?)
      modifies this`sys, this`log, this`script, this`peers, ctx, ctx.br, ctx.br.slots
      ensures Valid() && Goes()
      ensures if ok then sys.phase == Top(last) && Budget() < old(Budget())
              else sys.phase.Stopped? && sys.phase.last == last && Failing(log)
    {
      var op := Awaits();
      if op.None? {
        return false, None;
      }
      var n := Handles(op.value, mode);
      ok, last := EdgeEnd(op.value, n);
    }

    /** The loop of tun_udp_run and tun_udp_run_zero. */
    method EdgeLoop(mode: Mode) returns (ret: int, last: Option<nat>)
      requires Valid() && sys.phase == Top(None) && sys.mode == mode && (mode.Zero? || mode.Dtls?)
      modifies this`sys, this`log, this`script, this`peers, ctx, ctx.br, ctx.br.slots
      ensures Valid() && Goes() && sys.phase.Stopped? && sys.phase.last == last
      ensures ret == if Failing(log) then -1 else 0
      ensures ret == -1 <==> LeftByCause(start, log)
      ensures ret == 0 ==> script == [] || script[0] == Run(false)
    {
      ret, last := 0, None;
      while script != [] && script[0] != Run(false)
        invariant Valid() && Goes() && sys.phase == Top(last)
        decreases Budget()
      {
        var ok;
        ok, last := EdgeTurn(mode);
        if !ok {
          ReachedCause(start, log, sys);
          return -1, last;
        }
      }
      Guard(false);
    }

    /**
      tun_udp_run and tun_udp_run_zero: the result, which is -1 if and only if some step had a cause
      to leave the loop and 0 only when the environment asked to stop or has nothing left; and the
      operation passed to free() at the end, which cleanup will not free again. With plain
      packets, each was relayed once, byte for byte; with DTLS, each was coded once by the sessions.
     */
    method TunUdpRun(mode: Mode) returns (ret: int, last: Option<nat>)
      requires Valid() && sys.phase == Top(None) && sys.mode == mode && (mode.Zero? || mode.Dtls?)
      modifies this`sys, this`log, this`script, this`peers, ctx, ctx.br, ctx.br.slots
      ensures Valid() && Goes() && sys.phase.Stopped? && sys.phase.last == last
      ensures (ret == -1 <==> LeftByCause(start, log)) && (ret == -1 || ret == 0)
      ensures ret == 0 ==> script == [] || script[0] == Run(false)
      ensures mode.Zero? ==> RelaysExactly(mode, PeerOf(start.peers, mode.udpFd), sys)
      ensures mode.Dtls? ==>
        forall k0 | CodingRun(old(sys), k0, log[|old(log)|..]) :: CodesExactly(old(sys), k0, sys)
      ensures last.Some? ==> last.value !in sys.e.freeOps && sys.e.At(last.value).isMulti
      ensures SameReads(old(sys), sys)
    {
      ghost var s0, log0 := sys, log;
      ret, last := EdgeLoop(mode);
      ReachedSameReads(start, log0, s0, log, sys);
      ReachedShutdown(start, log, sys);
      if mode.Dtls? {
        forall k0 | CodingRun(s0, k0, log[|log0|..])
          ensures CodesExactly(s0, k0, sys)
        {
          ReachedCodes(start, log0, s0, log, sys, k0);
        }
      }
      if mode.Zero? {
        ReachedRelays(start, log, sys, mode);
      }
    }

    /** The rest of a turn of forwarder_run, which leaves without releasing the operation when it fails. */
    method ForwarderEnd(o: nat, n: Option<nat>) returns (ok: bool)
      requires Valid() && sys.phase == Outgoing(o, n) && sys.mode.Forward?
      modifies this`sys, this`log, this`script, ctx, ctx.br, ctx.br.slots
      ensures Valid() && Goes()
      ensures if ok then sys.phase.Top? else Returned(sys.phase, None) && Failing(log)
    {
      ok := false;
      if n.Some? {
        ok := SendsOn(o, n.value);
      }
      if ok {
        var _ := Finishes(o, true);
      } else {
        Abandons(o);
      }
    }

    /** One turn of the loop of forwarder_run. */
    method ForwarderTurn(inFd: int, outFd: int) returns (ok: bool)
      requires Valid() && sys.phase.Top? && sys.mode == Forward(inFd, outFd)
      modifies this`sys, this`log, this`script, ctx, ctx.br, ctx.br.slots
      ensures Valid() && Goes()
      ensures if ok then sys.phase.Top? && Budget() < old(Budget()) else Returned(sys.phase, None) && Failing(log)
    {
      var op := Awaits();
      if op.None? {
        return false;
      }
      var l := Choose();
      var n, left := ForwardsOn(op.value, inFd, outFd, l);
      if left {
        return false;
      }
      ok := ForwarderEnd(op.value, n);
    }

    /** forwarder_run: it never returns success. */
    method ForwarderRun(inFd: int, outFd: int) returns (ret: int)
      requires Valid() && sys.phase == Top(None) && sys.mode == Forward(inFd, outFd)
      modifies this`sys, this`log, this`script, ctx, ctx.br, ctx.br.slots
      ensures Valid() && Goes() && Returned(sys.phase, None) && ret == -1 && LeftByCause(start, log)
      ensures forall k0 | CodingRun(old(sys), k0, log[|old(log)|..]) :: CodesExactly(old(sys), k0, sys)
    {
      ForwarderLoop(inFd, outFd);
      ReachedCause(start, log, sys);
      forall k0 | CodingRun(old(sys), k0, log[|old(log)|..])
        ensures CodesExactly(old(sys), k0, sys)
      {
        ReachedCodes(start, old(log), old(sys), log, sys, k0);
      }
      return -1;
    }

    method ForwarderLoop(inFd: int, outFd: int)
      requires Valid() && sys.phase == Top(None) && sys.mode == Forward(inFd, outFd)
      modifies this`sys, this`log, this`script, ctx, ctx.br, ctx.br.slots
      ensures Valid() && Goes() && Returned(sys.phase, None) && Failing(log)
    {
      var ok := true;
      while ok
        invariant Valid() && Goes()
        invariant if ok then sys.phase.Top? else Returned(sys.phase, None) && Failing(log)
        decreases ok, Budget()
      {
        ok := ForwarderTurn(inFd, outFd);
      }
    }
  }
  /**
    The zero-copy edge from start-up to shutdown: every packet the kernel delivered first was
    submitted once, in order and unchanged, whatever the kernel and the environment did.
   */
  method EdgeZero(nOps: nat, ringLog: nat, nReads: nat, tunFd: int, udpFd: int, peers: map<int, Addr>, script: seq<Label>)
      returns (edge: Loop, ret: int)
    requires ringLog <= 15
    ensures edge.Valid() && edge.sys.phase.Stopped? && edge.env == script
    ensures (ret == -1 <==> LeftByCause(edge.start, edge.log)) && (ret == -1 || ret == 0)
    ensures ret == 0 ==> edge.script == [] || edge.script[0] == Run(false)
    ensures Obeys(script, edge.script, edge.log, edge.sys.phase)
    ensures if edge.sys.mode == Zero(tunFd, udpFd) then StartedUp(edge.sys, nOps, nReads, tunFd, udpFd) else ret == -1
    ensures RelaysExactly(Zero(tunFd, udpFd), PeerOf(peers, udpFd), edge.sys)
  {
    edge := new Loop(nOps, ringLog, peers, script);
    var ok := edge.StartsUp(tunFd, udpFd, nReads);
    if !ok {
      ReachedRelays(edge.start, edge.log, edge.sys, Zero(tunFd, udpFd));
      ReachedCause(edge.start, edge.log, edge.sys);
      return edge, -1;
    }
    ReachedDevice(edge.start, edge.log, edge.sys, tunFd);
    edge.Enters(Zero(tunFd, udpFd));
    var last;
    ret, last := edge.TunUdpRun(Zero(tunFd, udpFd));
  }
}
