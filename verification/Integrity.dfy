/**
  In every run of every program built on the engine (plain edge, DTLS edge, forwarder, handshake),
  packets are picked up as they were received, in order, and the bytes the kernel sends for a
  request are the bytes that were submitted.
 */
module Integrity {
  import opened Base
  import opened Machine
  import opened Invariant
  import opened InvariantSteps
  import opened CopyRelay
  import opened CopySteps
  import opened RelaySteps
  import opened Ledger

  /** What an event does to the packets that wait and to the messages in flight. */
  ghost predicate QueueNext(c: Copier, c': Copier, ev: seq<Event>) {
    if ev == [] then c'.arrived == c.arrived && c'.outbox == c.outbox
    else
      |ev| == 1 &&
      match ev[0]
      case In(a) => c'.arrived == c.arrived + [a] && c'.outbox == c.outbox
      case Take(a) => c.arrived == [a] + c'.arrived && c'.outbox == c.outbox
      case Submit(t, m) => c'.arrived == c.arrived && t !in c.outbox && c'.outbox == c.outbox[t := m]
      case Out(t, m) => c'.arrived == c.arrived && t in c.outbox && c.outbox[t] == m && c'.outbox == c.outbox - {t}
      case Fail(t, m) => c'.arrived == c.arrived && t in c.outbox && c.outbox[t] == m && c'.outbox == c.outbox - {t}
  }

  ghost predicate QueueStep(s: Sys, s': Sys) {
    s.trace <= s'.trace && QueueNext(Abs(s), Abs(s'), s'.trace[|s.trace|..])
  }

  lemma RefinesQueues(s: Sys, s': Sys)
    requires Refines(s, s')
    ensures QueueStep(s, s')
  {
    var c, c', ev := Abs(s), Abs(s'), s'.trace[|s.trace|..];
    CopyQueues(s.mode, c, c', ev);
  }

  lemma CopyQueues(m: Mode, c: Copier, c': Copier, ev: seq<Event>)
    requires CopyNext(m, c, c', ev)
    ensures QueueNext(c, c', ev)
  {
    if ev != [] && ev[0].Take? {
      assert c.arrived == [ev[0].a] + c.arrived[1..];
    }
  }

  lemma LoadQueues(s: Sys, l: Label, s': Sys)
    requires LoadStep(s, l, s')
    ensures QueueStep(s, s')
  {
    assert s'.trace[|s.trace|..] == [];
  }

  lemma StepQueues(s: Sys, l: Label)
    requires Inv(s) && ModeOk(s)
    ensures QueueStep(s, Step(s, l))
  {
    StepShows(s, l);
    if Refines(s, Step(s, l)) {
      RefinesQueues(s, Step(s, l));
    } else {
      LoadQueues(s, l, Step(s, l));
    }
  }

  // ---------------------------------------------------------------- every run

  /** Packets are taken in the order they came; every message submitted was settled or is in flight. */
  ghost predicate Accounted(c: Copier, tr: seq<Event>) {
    && Ins(tr) == Takes(tr) + c.arrived
    && forall m :: Submitted(tr, m) == Settled(tr, m) + Waiting(c.outbox, m)
  }

  lemma AccountedEvent(c: Copier, c': Copier, ev: Event, tr: seq<Event>)
    requires Accounted(c, tr) && QueueNext(c, c', [ev])
    ensures Accounted(c', tr + [ev])
  {
    Added(tr, ev);
    forall x: Msg
      ensures Submitted(tr + [ev], x) == Settled(tr + [ev], x) + Waiting(c'.outbox, x)
    {
      if ev.Submit? {
        BoxAdd(c.outbox, ev.ticket, ev.m, x);
      } else if ev.Out? || ev.Fail? {
        BoxRemove(c.outbox, ev.ticket, x);
      }
    }
    assert Ins(tr + [ev]) == Takes(tr + [ev]) + c'.arrived;
  }

  lemma AccountedStep(s: Sys, s': Sys)
    requires Accounted(Abs(s), s.trace) && QueueStep(s, s')
    ensures Accounted(Abs(s'), s'.trace)
  {
    var ev := s'.trace[|s.trace|..];
    if ev == [] {
      assert s'.trace == s.trace;
    } else {
      assert ev == [ev[0]] && s'.trace == s.trace + [ev[0]];
      AccountedEvent(Abs(s), Abs(s'), ev[0], s.trace);
    }
  }

  lemma {:induction false} AccountedExec(s: Sys, ls: seq<Label>)
    requires Inv(s) && ModeOk(s) && Accounted(Abs(s), s.trace)
    ensures Accounted(Abs(Exec(s, ls)), Exec(s, ls).trace) && ModeOk(Exec(s, ls)) && Inv(Exec(s, ls))
    decreases |ls|
  {
    if ls != [] {
      StepQueues(s, ls[0]);
      AccountedStep(s, Step(s, ls[0]));
      StepKeeps(s, ls[0]);
      ModeOkKeeps(s, ls[0]);
      AccountedExec(Step(s, ls[0]), ls[1..]);
    }
  }

  lemma RunAccounted(nOps: nat, nRing: nat, peers: map<int, Addr>, ls: seq<Label>)
    ensures var s := Exec(Initial(nOps, nRing, peers), ls); Accounted(Abs(s), s.trace) && ModeOk(s) && Inv(s)
  {
    InitialInv(nOps, nRing, peers);
    AccountedExec(Initial(nOps, nRing, peers), ls);
  }

  /**
    For every program, pool size, ring size and kernel schedule: the kernel sends a message at
    most as often as the program submitted that very message, whatever happened to memory in between.
   */
  lemma SentAsSubmitted(nOps: nat, nRing: nat, peers: map<int, Addr>, ls: seq<Label>, m: Msg)
    ensures var s := Exec(Initial(nOps, nRing, peers), ls);
      Submitted(s.trace, m) == Settled(s.trace, m) + Waiting(Outbox(s.e), m)
  {
    RunAccounted(nOps, nRing, peers, ls);
  }

  /** In every run the packets picked up are the packets received, in order; the others still wait in completions. */
  lemma TakenAsReceived(nOps: nat, nRing: nat, peers: map<int, Addr>, ls: seq<Label>)
    ensures var s := Exec(Initial(nOps, nRing, peers), ls);
      Ins(s.trace) == Takes(s.trace) + Arrivals(s.e, s.e.cq)
  {
    RunAccounted(nOps, nRing, peers, ls);
  }
}
