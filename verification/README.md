# A verified model of the zero-copy packet engine

The repository tunnels IP packets between a TUN device and UDP sockets with io_uring. Its edges either
relay plain packets without copying them (`edge_zero`) or encrypt them with DTLS (`edge`); a forwarder
connects two DTLS sessions. What makes the code hard is ownership: operations, single-shot buffers and
the ring of buffers shared with the kernel change hands in `io_op_alloc_buf` and `io_op_free`, while the
kernel completes requests at any time. This project models that engine, the programs that run on it and
the DTLS pipe around it, and proves what they keep in every run.

## How the model is built

- **Values.** `Engine` is the state of the engine (operations, free lists, ring, memory, requests with
  the kernel, completions) and one function per engine call. `Machine` cuts the programs at every engine
  call and adds the kernel as a second party that may act between any two steps. A label fixes every
  choice of the environment, so a statement about all label sequences is one about all runs, for all pool
  sizes, ring sizes and schedules. `Ownership` and `Invariant` hold the invariant; `OwnershipSteps`,
  `EngineFrames`, `WaitSteps`, `LoopSteps` and `InvariantSteps` prove that every step keeps it.
- **Memory.** `Uring` has the engine as the C code has it: free lists linked through `next` fields, operations
  updated in place, the ring in an array. Each method is proved against the engine function.
  `EventLoop` runs start-up, `wait_for_recv`, the forwarding functions and the event loops on it. Its
  state is at all times one the state machine reaches (`RunLog`), so every theorem below holds of it.
- **The relay by value.** `CopyRelay` is a relay whose packets are values: it copies them, replaces
  their bytes by coded ones, or sends chunks of a handshake. `CopySteps` and `RelaySteps` prove that
  every step of every program and of the kernel is one of its steps. From this follow the ledgers of
  the zero-copy edge (`ZeroCopy`, `Ledger`), of all programs (`Integrity`), of the DTLS edge and the
  forwarder (`Sessions`, `CodedLedger`, `Directions`), and of the handshake driver (`HandshakeLedger`,
  `HandshakeIntake`).
- **Causes.** `Causes` says of every step why it leaves the loop, or where it leads; `Turns` says it of a
  whole turn on one packet; `Devices` says what is read from where. `RunLog` carries this over to memory.
- **Parts.** `LinkedPool` is the free list with real nodes, `BufferRing` the ring with its mask and
  16-bit counters, `Layout` the bytes of a multishot buffer, `Connection` the handshake driver and the
  crypto pipe over any SSL. `Chain` connects runs of nodes by networks. `Stopping` says what a program
  leaves behind, `Examples` holds runs at which properties fail, and `ChainExample` is a chain of two
  edges written out state by state.

Main results: `ZeroCopy.ZeroCopyRefinesCopying` and `Ledger.EveryPacketRelayedOnce` (the zero-copy edge
behaves as a relay that copies), `CodedLedger.EveryPacketCodedOnce` (the coding nodes submit, in order and
to the other side, exactly what their sessions make of the packets they received), `Chain.EndToEnd` (any
number of forwarders), `InvariantSteps.ExecKeeps` and the theorems of `Guarantees`, `Stopping` and
`Progress` over all runs, `Connection.HandshakeOutput` and `Connection.WholeRecordsIff`, and
`EventLoop.EdgeZero` (the whole program in memory). The ledgers also hold of a program that does less; that
none does less than the code is `Causes.EveryStepExplained` (a loop is left only for the causes listed),
`Turns.PacketPassedIff` (a packet is passed on if and only if it can be) and `Connection.VerdictIff`.

## What the model assumes

The kernel accepts a request, or refuses it before or after the entry was filled; each completion carries
the operation of its request; a completion of a multishot receive names the buffer at the head of the
ring; `io_uring_submit` returns 1 or a negative value. Ring sizes are powers of two up to 32768, so that
they divide 65536 and an entry count fits the 16-bit tail. SSL is any machine that eats bytes of the read
BIO and appends records to the write BIO. Memory addresses are names of buffers.

For `Directions` and `Chain`: decryption undoes encryption, a record is at most 45 bytes longer than its
packet, a plaintext is no longer than its record, TUN packets are at most 1400 bytes, both BIOs are empty
when the loop begins, `SSL_read` produces no output, and the datagrams of the handshake decrypt to no packet.

## What the proofs brought to light

- Records can be split across datagrams (`Connection.SplitRecordExample`). `Connection.WholeRecordsIff`
  says exactly when a run of the handshake driver does not: at each turn the records that wait fit 1600
  bytes, or a record ends there.
- When `wait_for_recv` returns, a multishot request may be inactive because its end waits in the
  completion queue (`Examples.UnseenEndExample`); `Guarantees.ReceiveStaysArmed` shows that this is the
  only exception.
- The handshake driver leaves without `io_op_free` when a datagram arrives on the other socket
  (src/connection.c:214-218). Ring buffers are conserved if and only if that never happened
  (`Guarantees.RingBuffersConserved`); afterwards one is kept, and it is lost when that operation
  completes again (`Guarantees.RingAccounted`, `Guarantees.LostOnlyAfterDrop`, `Examples.LostBufferExample`).
- Shutdown frees only the operations on the free list and the last one of the loop. `Stopping.FreedAtShutdown`
  says which those are: not the ones that are with the kernel (`Examples.InFlightExample`), completed
  unseen, multishot other than the last, or in no place at all. An operation ends up in no place if and
  only if the program stops for a failed single-shot completion (src/packet_handler.c:27-30,
  `Examples.StrandedExample`), a read that could not be submitted again (src/iouring.c:720-739), a refused
  handshake send (src/connection.c:188-193), or a TUN read that a forwarder gets (`Stopping.StopsHolding`).
- A forwarder that gives up on a datagram keeps its ring buffer for good (`Stopping.ForwarderAbandons`,
  `Examples.AbandonedExample`).
- The documentation describes a connection table, idle cleanup and statistics that the source does not have.

## Model

| member | source | states |
|---|---|---|
| ZeroCopy.ZeroCopyRefinesCopying | src/tun_udp_run.c:44-85 | Main theorem: for all pool sizes, ring sizes and kernel schedules, the events of a run of the zero-copy edge (packets received, picked up, submitted, sent with the bytes the kernel reads) are the events of a run of a relay that copies packets by value. |
| ZeroCopy.StepRefines | src/packet_handler.c:146-186 | Each single step of program or kernel in a zero-copy run is a step of the copying relay with the same events. |
| Ledger.EveryPacketRelayedOnce | src/tun_udp_run.c:53-80 | Submitted messages are, in order and byte for byte, the packets received first, each to the other side; those to the peer go to the initial address or, without one, to the source of the first datagram before them; sent or failed plus in flight equals submitted for each message; at the loop head every packet picked up was submitted exactly once. |
| Integrity.SentAsSubmitted | src/packet_handler.c:85-186 | In every mode, also DTLS, forwarder and handshake: the kernel sends or gives up each exact message as often as it was submitted, minus those in flight, whatever happened to memory in between. |
| Integrity.TakenAsReceived | src/packet_handler.c:12-36 | In every mode and run the packets picked up are the packets received, in order; the others wait in completions, unchanged. |
| RelaySteps.StepShows | src/packet_handler.c:85-186 | In every mode each step of program or kernel is a step of the relay by value with the same events; only coding replaces the bytes of the packet in hand, by the codec's, and only a flight takes up a chunk. |
| CodedLedger.EveryPacketCodedOnce | src/tun_udp_run.c:7-42 | For the DTLS edge and the forwarder, every coding run and kernel schedule: packets are picked up in the order they came, and message i is exactly what the node's sessions make of packet i, to the other side's socket and peer; at the loop head every packet picked up was submitted exactly once. |
| Sessions.TunedIsCoding | src/packet_handler.c:92-101 | Every schedule has a run in which the codec answers as the sessions do. |
| HandshakeLedger.FlightsSubmitted | src/connection.c:177-231 | In every run of the handshake driver, from any state in which it begins: its peer is the address at the beginning or, without one, the source of the first datagram of its socket that it looked at; the messages submitted are the chunks it handed over, in order, each to the peer that the datagrams looked at before it left; only the last may be missing. |
| HandshakeLedger.HandshakeOnTheWire | src/connection.c:169-251 | When those chunks are the ones drained from the write BIO, the bytes submitted, then the chunk of a refused send, then the write BIO, are the bytes SSL produced. |
| HandshakeIntake.DatagramsHandled | src/connection.c:206-236 | In every run of the handshake driver the packets it looks at are the packets picked up, in order and unchanged, and the datagrams dropped are exactly those of other sockets. |
| HandshakeIntake.HandshakeFromTheWire | src/connection.c:214-233 | When the datagrams of the driver's turns are those, its own count of drops is the engine's, and so is its peer. |
| InvariantSteps.StepKeeps | src/iouring.c:652-718 | Every step of every program and of the kernel keeps the global invariant: each operation, pool buffer and ring buffer in one place, requests agree with the operations they name, multishot requests and reads accounted for. |
| InvariantSteps.ExecKeeps | src/tun_udp_run.c:17-37 | The invariant holds after every run. |
| InvariantSteps.InitialInv | src/iouring.c:190-209 | It holds after initialisation, for every pool and ring size. |
| Guarantees.EverythingHasOnePlace | src/iouring.c:82-98 | At a loop head each operation is exactly one of free, with the kernel, completed, or multishot; each pool buffer is free or owned by exactly one operation in use. |
| Guarantees.RingBuffersConserved | src/iouring.c:249-259 | At every loop head: each ring buffer is in the ring, in one unseen completion, or owned by one single-shot operation in flight or completed, if and only if no handshake datagram was ever dropped. |
| Guarantees.RingAccounted | src/iouring.c:293-329 | At every loop head, also after drops, each ring buffer is in exactly one of: ring, completion, single-shot operation, multishot operation that kept it, lost. |
| Examples.LostBufferExample | src/connection.c:214-218 | A handshake run that loses a ring buffer. |
| Guarantees.NoSharedMemory | src/iouring.c:681-687 | In every state two requests with the kernel use different buffers. |
| Guarantees.RequestOwnsMemory | src/iouring.c:249-259 | In every state the buffer of a request with the kernel exists, is not on the free list, not offered in the ring and not named by a completion. |
| Guarantees.AssertionsHold | src/iouring.c:693-706 | The assertions of `iouring_recycle_buffer` and `io_op_free` hold for every operation in use, in every state. |
| Guarantees.DatagramsFit | src/connection.c:144-145 | In every run a datagram returned by `wait_for_recv` has 1 to 1456 bytes and an address, so the assertions `encrypted_len < decrypted_size` and `op->addr_len > 0` hold. |
| Guarantees.ExactCount | src/iouring.c:190-201 | At a loop head free buffers minus free operations is the number of multishot operations plus writes riding on ring buffers. |
| Guarantees.AllocationFailsOnlyWithoutOps | src/iouring.c:652-691 | In every state allocation of every kind, also with any owner, gives the first free operation, and fails if and only if none is free: the branch for missing buffers is dead. |
| Causes.EveryStepExplained | src/packet_handler.c:7-83 | For every run, mode and step: the program leaves its loop if and only if one of the listed causes is given (no free operation where one is needed, a refused submission or one of wrong length, a useless completion, a codec without a fitting answer, a wrong type for the forwarder, a failed wait, the guard), and otherwise comes to exactly the next point. |
| Causes.StoppedForCause | src/tun_udp_run.c:17-41 | A program has left its loop if and only if some step of its run had such a cause. |
| Turns.PacketPassedIff | src/tun_udp_run.c:17-37 | For every run of an edge or forwarder and any kernel steps in between: the turn on a returned packet ends at the head of the loop, with exactly one message more, the one made of this packet, if and only if an operation is free, there are 1 to BUF_SIZE bytes, the socket is valid, the codec answered and the kernel accepted; otherwise the loop is left and nothing is submitted. The loop's `op` is then the multishot operation, or NULL. |
| Devices.ReadsStayOnDevice | src/iouring.c:720-739 | In every run whose start-up reads from one device, all reads, also those that replace finished ones, are on it; each request names the device or socket of its operation, and a read asks for BUF_SIZE bytes. |
| Counting.FreeBuffersExceedFreeOps | src/iouring.c:128-142 | Under the ownership law alone, free buffers exceed free operations by exactly the operations in use that own no pool buffer. |
| Guarantees.ReceiveStaysArmed | src/iouring.c:319-327 | Whenever `wait_for_recv` returns an operation, each socket has exactly one multishot operation, whose request is active or ended by exactly one unseen completion, and outstanding TUN reads number those submitted at start-up. |
| Examples.UnseenEndExample | src/packet_handler.c:40-48 | A run in which `wait_for_recv` returns while the socket's request has ended unseen. |
| Guarantees.NoStaleEntry | src/iouring.c:261-280 | While a program continues, no filled but unsubmitted entry names an operation. |
| Guarantees.FailuresConserve | src/packet_handler.c:91-110 | After any failure in a forwarding function of an edge, the one following `io_op_free` leaves every operation and pool buffer in one place and every ring buffer in one place or lost earlier. |
| Guarantees.ShutdownFreesOnce | src/tun_udp_run.c:35-40 | In every stopped state the operation passed to `free` is NULL or a multishot operation outside the list that cleanup walks, and that list has no repetitions. |
| Stopping.StopsHolding | src/packet_handler.c:27-30 | For every run and next step: the program stops with operations that are in no place if and only if the step strands some, and with exactly those. |
| Stopping.HeldAreStranded | src/forwarder.c:203-213 | In a stopped program the held operations are exactly those that are neither free, nor with the kernel, nor completed, nor multishot. |
| Stopping.FreedAtShutdown | src/iouring.c:72-80 | In every stopped state an operation is on the list that cleanup frees, or is the one passed to `free`, if and only if it is not with the kernel, not completed unseen, not in no place, and not a multishot operation other than the last. |
| Examples.InFlightExample | src/tun_udp_run.c:35-40 | A run that stops with a read in flight, which cleanup does not free. |
| Examples.StrandedExample | src/packet_handler.c:27-30 | A run that stops with the operation of a failed read in no place. |
| Stopping.ForwarderAbandons | src/forwarder.c:207-213 | A forwarder that gives up on a datagram stops with its ring buffer owned by the multishot operation, and whatever happens later the buffer is in no other place. |
| Examples.AbandonedExample | src/forwarder.c:207-213 | A run of the forwarder that stops with its only ring buffer abandoned. |
| Guarantees.DropsAccounted | src/connection.c:214-218 | Dropped datagrams are exactly the ring buffers lost plus the entries of buffers kept; while the program goes on each entry is a buffer its operation really owns; without drops none is lost. |
| Guarantees.LostOnlyAfterDrop | src/iouring.c:299 | A step loses a ring buffer if and only if it picks up a new datagram for an operation that kept one after a drop, and then exactly that buffer. |
| Exclusive.TwoOwners | src/iouring.c:674-688 | Two different operations in use never own the same pool buffer or ring buffer. |
| Exclusive.HeldNotOffered | src/iouring.c:249-259 | A ring buffer owned by an operation is neither in the ring nor in a completion. |
| Progress.WaitBounded | src/packet_handler.c:12-76 | A call of `wait_for_recv` takes at most one completion more than there were sends and writes in flight or completed when it began, whatever the kernel does meanwhile. |
| Progress.PeerPinned | src/connection.c:188-190 | Once a connection has an address it keeps it over every continuation of the program, and every later datagram on its socket is submitted to that address. |
| Progress.HandshakeGetsDatagrams | src/connection.c:213-226 | The driver's assertions that it received a datagram, and that it has an address, hold in every run. |
| OwnershipSteps.MoveBufKeeps | src/iouring.c:674-688 | Moving a buffer between operations keeps the ownership law. |
| OwnershipSteps.FreeKeeps | src/iouring.c:693-718 | `io_op_free` of a held or multishot operation keeps the ownership law in all of its branches. |
| EngineFrames.AllocMove | src/iouring.c:652-691 | Allocation with an owner fails if and only if no operation is free; otherwise ownership is kept, no memory or request touched, and only the new operation, which gets the buffer, and the owner, which loses it, change. |
| LinkedPool.Pool.constructor | src/iouring.c:54-70 | The construction loop yields an acyclic list of exactly n distinct nodes, in order. |
| LinkedPool.Pool.Get | src/iouring.c:128-137 | Get is pop on the stack of nodes, NULL on the empty one, and unlinks the node. |
| LinkedPool.Pool.Put | src/iouring.c:139-142 | Put is push. |
| LinkedPool.Pool.Destroy | src/iouring.c:118-126 | The destroy loop terminates and visits every node of the list exactly once. |
| LinkedPool.PopTakes | src/iouring.c:82-93 | Popping a node is taking the first free operation or buffer of the engine. |
| LinkedPool.PushGives | src/iouring.c:95-98 | Pushing a node is giving its number back to the engine. |
| BufferRing.MaskIsRemainder | src/iouring.c:165-166 | The mask n - 1 computes the remainder by n, for every power of two n and every counter. |
| BufferRing.AppendQueue | src/iouring.c:251-255 | Writing the entry at the tail of a ring with room appends to the queue and changes no unconsumed entry. |
| BufferRing.Ring.constructor | src/iouring.c:144-172 | After the setup loop and one advance by n the ring is the queue 0, 1, ..., n - 1. |
| BufferRing.Ring.Recycle | src/iouring.c:249-259 | Masked position and 16-bit tail with wrap-around: the queue gets the index at its end. |
| BufferRing.Ring.Consume | src/iouring.c:164-169 | The kernel's side, at any counter values: the queue loses its first index. |
| BufferRing.RoomForRecycle | src/iouring.c:249-256 | A ring without repetitions that lacks one of n indices has fewer than n entries, so recycling never overwrites one. |
| Uring.RoomToRecycle | src/iouring.c:250-256 | Under the ownership law the ring has room whenever an operation owns a ring buffer. |
| Uring.Context.constructor | src/iouring.c:190-209 | The initial engine, with both linked lists and the ring built by loops. |
| Uring.Context.TakeOp | src/iouring.c:82-93 | Pops the list of operations through its links and clears the operation. |
| Uring.Context.PutOp | src/iouring.c:95-98 | Pushes an operation by relinking; the engine's list is the old one with it in front. |
| Uring.Context.AllocBuf | src/iouring.c:652-691 | On the linked lists in memory, equals the engine function on the state before, for all three ways to get a buffer; NULL if and only if the list of operations is empty, its first one otherwise. |
| Uring.Context.Free | src/iouring.c:693-718 | Equals the engine function; its assertions and the ring's room are proved from ownership. |
| Uring.Context.Recycle | src/iouring.c:249-259 | The source's assertion holds and the ring in memory gets the index back. |
| Uring.Context.Decode | src/iouring.c:293-316 | Buffer flag, validation, address and payload checks, with the index recorded before any check. |
| Uring.Context.SubmitOut | src/iouring.c:528-587 | Parameter checks, then the request with exactly the operation's buffer, length and destination. |
| Uring.Context.SubmitRead | src/iouring.c:414-441 | The request for BUF_SIZE bytes into the operation's buffer, or nothing. |
| Uring.Context.Arm | src/iouring.c:261-280 | The multishot request becomes active, or nothing, or an entry is left behind. |
| RunLog.ReachedRelays | src/tun_udp_run.c:44-85 | Any recorded run that entered only the zero-copy loop relays packets exactly. |
| RunLog.ReachedCodes | src/tun_udp_run.c:7-42 | A recorded run of a coding loop whose codec answers are the sessions' codes every packet exactly once. |
| RunLog.ReachedCause | src/tun_udp_run.c:31-41 | A recorded run that stopped without its guard failing has a step with a cause. |
| RunLog.ReachedOwnReads | src/iouring.c:400-411 | Reads added at start-up use buffers of their own. |
| EventLoop.Loop.WaitForRecv | src/packet_handler.c:7-83 | The loop, in memory: it ends with an operation that holds a packet or with the program stopped, in a state the state machine reaches. |
| EventLoop.Loop.Dispatches | src/packet_handler.c:49-68 | A finished send or write is released as the engine function says; for a finished read a new operation is allocated, which fails only when none is free. |
| EventLoop.Loop.MovesOn | src/packet_handler.c:146-156 | The first datagram fixes the peer; the engine afterwards is the one in which the packet's buffer moved to an operation for the other side, which fails only when none is free. |
| EventLoop.Loop.CodesOn | src/packet_handler.c:92-101 | The coded packet is in an operation of its own for the other side, unless no operation is free, the codec gave nothing, or it gave more than BUF_SIZE bytes, and only then. |
| EventLoop.Loop.ForwardsOn | src/forwarder.c:137-188 | Wrong types and failed decryption leave the loop with nothing changed; otherwise the coded packet is in an operation for the other connection's socket unless no operation is free, the codec gave nothing or too much. |
| EventLoop.Loop.Submits | src/packet_handler.c:158-165 | The operation is submitted to the peer of its socket, or released; released if and only if the kernel refuses it, its length is not 1 to BUF_SIZE, or its socket is invalid. |
| EventLoop.Loop.StartsRead | src/iouring.c:400-410 | One turn of the start-up loop: the first free operation becomes a read of BUF_SIZE bytes into a pool buffer; the turn is skipped when there is none, and fails, with the operation released, when the kernel refuses it. |
| EventLoop.Loop.InitialTunReads | src/iouring.c:393-412 | On success exactly as many reads are submitted as configured or, with fewer free operations, as there are of these; all on this device, for BUF_SIZE bytes, each operation being one of the first that were free. It fails only when the last step is a read that the kernel refused. |
| EventLoop.Loop.TunUdpRun | src/tun_udp_run.c:7-42 | Both edge loops in memory end stopped in a reachable state: with -1 if and only if some step had a cause to leave the loop, with 0 only when the environment asked to stop or has nothing left; what is passed to `free` is NULL or a multishot operation not on the free list; plain packets were relayed exactly, with DTLS every packet was coded once by the sessions; the reads stay those of start-up. |
| EventLoop.Loop.ForwarderRun | src/forwarder.c:190-218 | The forwarder's loop ends only for a cause, with -1, in a reachable state, and coded every packet once by its sessions. |
| EventLoop.EdgeZero | src/edge_zero.c:140-146 | From initialisation to shutdown, in memory, for every script of the environment: packets are relayed once, in order and unchanged; all kernel steps of the script happen in order; -1 if and only if some step had a cause; and unless start-up failed, the receive and min(configured, operations - 1) reads on the TUN device were submitted. |
| Layout.WordRoundTrip | src/iouring.c:306 | A 32-bit header word reads back as it was stored. |
| Layout.DecodeStored | src/iouring.c:293-316 | Decoding gives back exactly the address and payload the kernel stored, whatever the slice held before, if and only if both are non-empty. |
| Layout.SlicesDisjoint | src/iouring.c:300 | Bytes of different slices are different bytes of the area, and inside it. |
| Layout.PayloadInSlice | src/connection.c:144-145 | Every decoded payload lies in its own slice, is at most 1456 bytes and so shorter than the result buffer. |
| Connection.HandshakeOutput | src/connection.c:177-203 | In every run the bytes sent, in order, then the chunk of a refused send, then what is in the write BIO, are the bytes SSL produced. |
| Connection.FlightFitsIff | src/connection.c:181-186 | The write BIO is empty after a turn if and only if what SSL produced in it fits BUF_SIZE. |
| Connection.HandshakeSendsWholeRecords | src/connection.c:176-205 | When flights fit, the write BIO is empty whenever the driver waits or ends, and each datagram is one whole flight (section 4.1.1 of RFC 6347). |
| Connection.WholeRecordsIff | src/connection.c:176-205 | In every run with accepted sends all datagrams begin and end at record boundaries if and only if at each turn the waiting records fit BUF_SIZE or have a boundary there, a condition on SSL's replies alone. |
| Connection.SplitRecordExample | src/connection.c:183-184 | Two records of 1000 bytes are split after 600 bytes of the second. |
| Connection.HandshakeInput | src/connection.c:206-233 | In every run the read BIO holds the unread end of at most one datagram, the last one received. |
| Connection.HandshakePeer | src/connection.c:187-231 | In every run the address afterwards is the one before or, without one, the first source among the datagrams of the socket; each datagram sent carries the next BUF_SIZE bytes of the write BIO to the address that the datagrams before it left. |
| Connection.VerdictIff | src/connection.c:176-248 | The driver's verdict from SSL's answers, the contents of both BIOs, and what was sent and received, for every run: success, failure or still waiting, each if and only if. |
| Connection.FirstSourceIs | src/connection.c:222-231 | The address found is the source of a datagram of the socket, and none of the socket before it had one. |
| Connection.Conn.DoHandshake | src/connection.c:169-251 | The loop on the connection's fields succeeds, and the connection becomes established, if and only if some turn completes the handshake (`ret == 1` and nothing to send or the send accepted) and every turn before it goes on; it fails if and only if some turn has one of the causes for failure and every turn before it goes on. |
| Connection.Conn.EncryptPacket | src/connection.c:114-129 | The write BIO and the result afterwards, with both failures. |
| Connection.Conn.DecryptPacket | src/connection.c:131-167 | The retry loop gives the plaintext of SSL's first answer that is not a retry if that answer is no error, and nothing otherwise or for an empty packet; and the read BIO of the specification. |
| Connection.DecryptGives | src/connection.c:146-167 | For every list of answers: the plaintext of the first of the five that is not a retry, if it is no error. |
| Connection.PipeConserves | src/connection.c:114-129 | Over any sequence of calls, the results in order followed by the write BIO are everything SSL produced. |
| Connection.PipeExactIff | src/connection.c:122-127 | From an empty write BIO a call returns its own record and leaves the BIO empty if and only if the record fits. |
| Connection.PipeExact | src/packet_handler.c:85-111 | With an empty write BIO and records that fit, the i-th call returns exactly the i-th record. |
| Connection.FirstAnswerWins | src/connection.c:146-154 | The answer used is SSL's first that is not a retry. |
| Connection.RetriesExhausted | src/connection.c:148-154 | Five retries in a row give no plaintext. |
| Connection.ReadLoopSuffix | src/connection.c:146-154 | What the read BIO holds after the retries is an end of what it held and was given. |
| Directions.WaysExact | src/forwarder.c:137-188 | In each way through a coding node the messages that leave are, in order and numbered without a gap, the records of the plaintexts of the packets that entered. |
| Chain.NodeWays | src/forwarder.c:190-218 | The same for every run of `tun_udp_run` or `forwarder_run` on the engine, from start-up through the handshake. |
| Chain.Hop | src/forwarder.c:137-188 | Over a network that loses, repeats, reorders and invents datagrams, each packet the next run passes on was passed on by the run before. |
| Chain.EndToEnd | src/forwarder.c:190-218 | For any number of forwarder runs between two edge runs, each message to the far TUN device carries the bytes of a packet read from the near one. |
| Chain.EndToEndWritten | src/tun_udp_run.c:7-42 | The same for every packet the kernel wrote to the far TUN device. |
| Chain.EndToEndInOrder | src/forwarder.c:190-218 | Over networks that deliver an initial part in order and unchanged, what is submitted to the far TUN device is an initial part of what came from the near one. |
| ChainExample.ChainDelivers | src/tun_udp_run.c:7-42 | Two edges, state by state: a chain that meets the conditions of the end-to-end theorems and delivers a packet. |

## Left out

- OpenSSL, certificates, cipher setup and cookies (src/dtls_context.c): foreign code; SSL is an arbitrary machine here.
- liburing and kernel internals, overflow of the completion queue: the environment is nondeterministic instead.
- Clocks: a time-out of the wait call is a choice of the environment that changes nothing.
- src/tun_device.c and src/udp_socket.c: ioctl and socket calls only.
- The `main` functions and `forwarder_create`: argument parsing and start-up. The guards `if (!ret != 0)` at src/edge.c:129 and src/forwarder.c:71,85 take the error path on success, so the model starts after initialisation.
- Multishot TUN reads (src/iouring.c:331-370) and single-shot UDP receives (src/iouring.c:486-526): switched off by include/iouring.h:11-14.
- src/utils.c: logging, printing and helpers the engine does not depend on.
- Liveness of the handshake on a lossy network: the driver has no retransmission timer.
- The handshake driver on the memory of the engine: `Connection.Conn` has its loop and BIOs, the state machine has its engine calls, and `HandshakeLedger` relates their output; they are not one imperative program.
- The codec inside the loops of `EventLoop`: the bytes that encryption and decryption deliver are inputs there; `Sessions` and `CodedLedger` say what they are.
- Layout: the engine's slots hold a decoded address and payload; that their bytes decode to them is proved in `Layout`, separately.
- Uring.Context.Decode: works on a slot whose address and payload are already values; that the bytes decode to them is Layout.DecodeStored. It keeps the address itself, not the pointer into the buffer.
- Uring.Context.SubmitOut: the branch that first copies the caller's data into the buffer, used by the handshake, is Uring.Context.Fill.
- Layout.PayloadInSlice: concerns the bytes of a slice; Guarantees.DatagramsFit has the length in every run.
- EventLoop.Loop.ForwarderRun: the script of the environment is finite, so the endless loop ends when it is used up, as if the wait call failed.
