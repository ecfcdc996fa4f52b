/**
  The io_uring engine: the two resource pools, the provided-buffer ring, the operations
  the program shares with the kernel, and the functions that move resources between them.
  Operations and pool buffers are named by their index in the memory they were allocated from.
 */
module Engine {
  import opened Base

  datatype OpType = TunRead | TunWrite | UdpRecv | UdpSend

  /** What the `buffer` pointer of an operation points into. */
  datatype Loc = NoBuffer | PoolBuffer(b: nat) | RingBuffer(i: nat)

  /** `io_op_t`. */
  datatype Op = Op(opType: OpType, fd: int, isMulti: bool, buffer: Loc, dataLen: int,
                   bufIdx: int, bufAddr: Option<nat>, addr: Addr)

  const BLANK := Op(TunRead, -1, false, NoBuffer, 0, -1, None, [])

  /** A request the kernel accepted: where it reads or writes memory, and the destination of a send. */
  datatype Sqe = Sqe(fd: int, loc: Loc, len: int, dest: Addr)

  /** A completion. Only requests with buffer selection carry a buffer index and the F_MORE flag. */
  datatype Cqe =
    | SingleCqe(op: nat, res: int)
    | MultiCqe(op: nat, res: int, buf: Option<nat>, more: bool)

  /** A slice of the multishot buffer area, as `iouring_multishot_recvmsg_out` decodes it. */
  datatype Slot = Slot(name: Addr, payload: Bytes)

  /** Bytes in front of the payload of a slice: the kernel's header and the name area. */
  const HEADER := 16 + 128

  /** Outcome of acquiring a submission entry and submitting it. */
  datatype Outcome =
    | Accepted   // the kernel took the request
    | NoSqe      // the submission queue was full, nothing was filled in
    | Stuck      // the entry was filled in, and the submit call failed

  datatype Engine = Engine(
    ops: seq<Op>,            // all operations ever allocated
    freeOps: seq<nat>,       // operation pool, first to be handed out first
    freeBufs: seq<nat>,      // pool of single-shot buffers
    ring: seq<nat>,          // ring buffers the kernel may consume, oldest first
    poolMem: seq<Bytes>,     // contents of the single-shot buffers
    slots: seq<Slot>,        // contents of the ring buffers
    inflight: map<nat, Sqe>, // single-shot requests held by the kernel
    armed: set<nat>,         // active multishot requests
    cq: seq<Cqe>,            // completions not yet seen by the program
    stale: seq<nat>          // operations named by filled but unsubmitted entries
  )
  {
    function At(o: nat): Op { if o < |ops| then ops[o] else BLANK }

    function Set(o: nat, op: Op): Engine {
      if o < |ops| then this.(ops := ops[o := op]) else this
    }

    function PoolAt(b: nat): Bytes { if b < |poolMem| then poolMem[b] else [] }

    function SlotAt(i: nat): Slot { if i < |slots| then slots[i] else Slot([], []) }

    function SetPool(b: nat, data: Bytes): Engine {
      if b < |poolMem| then this.(poolMem := poolMem[b := data]) else this
    }

    function SetSlot(i: nat, slot: Slot): Engine {
      if i < |slots| then this.(slots := slots[i := slot]) else this
    }

    /** The first `len` bytes that a buffer pointer reaches right now. */
    function Read(loc: Loc, len: int): Bytes {
      match loc
      case NoBuffer => []
      case PoolBuffer(b) => Prefix(PoolAt(b), len)
      case RingBuffer(i) => Prefix(SlotAt(i).payload, len)
    }
  }

  /** `iouring_init`: all operations and buffers free, every ring buffer offered to the kernel. */
  function Fresh(nOps: nat, nRing: nat): Engine {
    Engine(seq(nOps, _ => BLANK), seq(nOps, i => i), seq(nOps, i => i), seq(nRing, i => i),
           seq(nOps, _ => []), seq(nRing, _ => Slot([], [])), map[], {}, [], [])
  }

  // ---------------------------------------------------------------- pools and ring

  /** `iouring_put_io_op`. */
  function PutOp(e: Engine, o: nat): Engine { e.(freeOps := [o] + e.freeOps) }

  /** `iouring_put_buf_addr`. */
  function PutBuf(e: Engine, b: nat): Engine { e.(freeBufs := [b] + e.freeBufs) }

  /** `iouring_recycle_buffer`. */
  function Recycle(e: Engine, o: nat): Engine
    requires e.At(o).bufIdx >= 0
  {
    e.(ring := e.ring + [e.At(o).bufIdx]).Set(o, e.At(o).(bufIdx := -1))
  }

  /** `iouring_get_io_op` and the three assignments that follow it. */
  function TakeOp(e: Engine, t: OpType, fd: int, isMulti: bool): Engine
    requires e.freeOps != []
  {
    e.(freeOps := e.freeOps[1..]).Set(e.freeOps[0], BLANK.(opType := t, fd := fd, isMulti := isMulti))
  }

  /** `iouring_get_buf_addr`, handed to operation `n`. */
  function GiveBuf(e: Engine, n: nat): Engine
    requires e.freeBufs != []
  {
    var b := e.freeBufs[0];
    e.(freeBufs := e.freeBufs[1..]).Set(n, e.At(n).(bufAddr := Some(b), buffer := PoolBuffer(b)))
  }

  /** The buffer of operation `w` becomes the buffer of operation `n`. */
  function MoveBuf(e: Engine, w: nat, n: nat): Engine {
    var owner := e.At(w);
    if !owner.isMulti then
      var buffer := if owner.bufAddr.Some? then PoolBuffer(owner.bufAddr.value) else NoBuffer;
      e.Set(n, e.At(n).(dataLen := owner.dataLen, bufAddr := owner.bufAddr, buffer := buffer))
       .Set(w, owner.(bufAddr := None))
    else
      e.Set(n, e.At(n).(dataLen := owner.dataLen, bufIdx := owner.bufIdx, buffer := owner.buffer))
       .Set(w, owner.(bufIdx := DO_NOT_FREE))
  }

  /** `io_op_alloc_buf`. */
  function AllocBuf(e: Engine, t: OpType, fd: int, isMulti: bool, owner: Option<nat>): (Engine, Option<nat>) {
    if e.freeOps == [] then (e, None)
    else
      var n := e.freeOps[0];
      var e1 := TakeOp(e, t, fd, isMulti);
      if isMulti then (e1, Some(n))
      else if owner.Some? then (MoveBuf(e1, owner.value, n), Some(n))
      else if e1.freeBufs == [] then (PutOp(e1, n), None)
      else (GiveBuf(e1, n), Some(n))
  }

  /** `io_op_free`: the new engine and what the caller's operation pointer is afterwards. */
  function Free(e: Engine, o: nat): (Engine, Option<nat>) {
    var op := e.At(o);
    if op.isMulti then
      if op.bufIdx >= 0 then (Recycle(e, o), Some(o))
      else if op.bufIdx != DO_NOT_FREE then (PutOp(e, o), None)
      else (e, Some(o))
    else if op.bufAddr.Some? then (PutOp(PutBuf(e, op.bufAddr.value), o), None)
    else if op.bufIdx >= 0 then (PutOp(Recycle(e, o), o), None)
    else (PutOp(e, o), None)
  }

  // ---------------------------------------------------------------- submission

  /** The kernel takes request `r` for operation `o`, or the entry stays behind unsubmitted. */
  function Post(e: Engine, o: nat, r: Sqe, out: Outcome): (Engine, bool) {
    match out
    case Accepted => (e.(inflight := e.inflight[o := r]), true)
    case NoSqe => (e, false)
    case Stuck => (e.(stale := e.stale + [o]), false)
  }

  /** `iouring_submit_tun_read`. */
  function SubmitRead(e: Engine, o: nat, out: Outcome): (Engine, bool) {
    Post(e, o, Sqe(e.At(o).fd, e.At(o).buffer, BUF_SIZE, []), out)
  }

  /** `iouring_submit_udp_send` and `iouring_submit_tun_write` on data already in place. */
  function SubmitOut(e: Engine, o: nat, dest: Addr, out: Outcome): (Engine, bool) {
    var op := e.At(o);
    if op.dataLen <= 0 || op.fd < 0 || op.dataLen > BUF_SIZE then (e, false)
    else Post(e, o, Sqe(op.fd, op.buffer, op.dataLen, dest), out)
  }

  /** `iouring_submit_multishot_recvmsg_op`. */
  function Arm(e: Engine, o: nat, out: Outcome): (Engine, bool) {
    match out
    case Accepted => (e.(armed := e.armed + {o}), true)
    case NoSqe => (e, false)
    case Stuck => (e.(stale := e.stale + [o]), false)
  }

  // ---------------------------------------------------------------- completion

  /** `iouring_multishot_recvmsg_out` up to the point where it may re-arm. */
  function Decode(e: Engine, o: nat, buf: Option<nat>): (Engine, bool) {
    if buf.None? then (e, false)
    else
      var i := buf.value;
      var op := e.At(o).(bufIdx := i);
      if op.dataLen < HEADER then (e.Set(o, op), false)
      else
        var named := op.(addr := e.SlotAt(i).name);
        if named.addr == [] then (e.Set(o, named), false)
        else
          var full := named.(buffer := RingBuffer(i), dataLen := op.dataLen - HEADER);
          (e.Set(o, full), full.dataLen != 0)
  }

  // ---------------------------------------------------------------- kernel

  /** The kernel fills the buffer of a read and completes it. */
  function KernelRead(e: Engine, o: nat, data: Bytes): Engine {
    if o !in e.inflight || e.At(o).opType != TunRead || |data| > BUF_SIZE || !e.inflight[o].loc.PoolBuffer? then e
    else
      var b := e.inflight[o].loc.b;
      e.(inflight := e.inflight - {o}, cq := e.cq + [SingleCqe(o, |data|)])
       .SetPool(b, Overlay(e.PoolAt(b), data))
  }

  /** The kernel finishes a send or a write, or fails any request. */
  function KernelComplete(e: Engine, o: nat, res: int): Engine {
    if o !in e.inflight || (e.At(o).opType == TunRead && res >= 0) then e
    else e.(inflight := e.inflight - {o}, cq := e.cq + [SingleCqe(o, res)])
  }

  /** An active multishot request receives a datagram into the oldest buffer of the ring. */
  function KernelRecv(e: Engine, o: nat, name: Addr, payload: Bytes, more: bool): Engine {
    if o !in e.armed || e.ring == [] || HEADER + |payload| > BUF_SIZE || |name| > 128 then e
    else
      var i := e.ring[0];
      e.(ring := e.ring[1..],
         armed := if more then e.armed else e.armed - {o},
         cq := e.cq + [MultiCqe(o, HEADER + |payload|, Some(i), more)])
       .SetSlot(i, Slot(name, Overlay(e.SlotAt(i).payload, payload)))
  }

  /** A multishot request completes without selecting a buffer. */
  function KernelNoBuffer(e: Engine, o: nat, res: int, more: bool): Engine {
    if o !in e.armed then e
    else e.(armed := if more then e.armed else e.armed - {o},
            cq := e.cq + [MultiCqe(o, res, None, more)])
  }
}
