/** The zero-copy edge refines the copying relay in every run. */
module ZeroCopy {
  import opened Base
  import opened Machine
  import opened Invariant
  import opened InvariantSteps
  import opened CopyRelay
  import opened CopySteps
  import opened RelaySteps

  // ---------------------------------------------------------------- the program edge_zero

  /** A run of edge_zero: start-up, then the zero-copy loop `z`. */
  ghost predicate ZeroLabel(z: Mode, l: Label) { l.Enter? ==> l.mode.Setup? || l.mode == z }

  ghost predicate ZeroRun(z: Mode, ls: seq<Label>) {
    z.Zero? && forall i | 0 <= i < |ls| :: ZeroLabel(z, ls[i])
  }

  ghost predicate ZeroSys(z: Mode, s: Sys) { z.Zero? && (s.mode.Setup? || s.mode == z) && ModeOk(s) }

  lemma ModeStays(s: Sys, l: Label)
    ensures Step(s, l).mode == s.mode || (l.Enter? && Step(s, l).mode == l.mode)
  {
  }

  /** Each step of the zero-copy edge, and of the kernel, is a step of the copying relay. */
  lemma StepRefines(z: Mode, s: Sys, l: Label)
    requires Inv(s) && ZeroSys(z, s)
    ensures Refines(s, Step(s, l))
  {
    StepShows(s, l);
  }

  // ---------------------------------------------------------------- every run

  /** A run of the copying relay: states, modes and the events of each step. */
  ghost predicate CopyRun(ms: seq<Mode>, cs: seq<Copier>, evs: seq<seq<Event>>) {
    |cs| == |evs| + 1 && |ms| == |evs| && forall i | 0 <= i < |evs| :: CopyNext(ms[i], cs[i], cs[i + 1], evs[i])
  }

  ghost function Flat(evs: seq<seq<Event>>): seq<Event> {
    if evs == [] then [] else evs[0] + Flat(evs[1..])
  }

  lemma CopyRunCons(m: Mode, c: Copier, ev: seq<Event>, ms: seq<Mode>, cs: seq<Copier>, evs: seq<seq<Event>>)
    requires CopyRun(ms, cs, evs) && CopyNext(m, c, cs[0], ev)
    ensures CopyRun([m] + ms, [c] + cs, [ev] + evs)
    ensures Flat([ev] + evs) == ev + Flat(evs)
  {
    forall i | 0 <= i < |[ev] + evs|
      ensures CopyNext(([m] + ms)[i], ([c] + cs)[i], ([c] + cs)[i + 1], ([ev] + evs)[i])
    {
      if i > 0 {
        assert CopyNext(ms[i - 1], cs[i - 1], cs[i], evs[i - 1]);
      }
    }
    assert ([ev] + evs)[1..] == evs;
  }

  lemma StepAll(z: Mode, s: Sys, l: Label)
    requires Inv(s) && ZeroSys(z, s) && ZeroLabel(z, l)
    ensures Inv(Step(s, l)) && ZeroSys(z, Step(s, l)) && Refines(s, Step(s, l))
  {
    StepKeeps(s, l);
    ModeStays(s, l);
    ModeOkKeeps(s, l);
    StepRefines(z, s, l);
  }

  /** The states, modes and events of a run of the copying relay that shows the run from `s` to `t`. */
  ghost predicate Shows(z: Mode, s: Sys, t: Sys, ms: seq<Mode>, cs: seq<Copier>, evs: seq<seq<Event>>) {
    && (forall i | 0 <= i < |ms| :: ms[i].Setup? || ms[i] == z)
    && CopyRun(ms, cs, evs) && cs[0] == Abs(s) && cs[|evs|] == Abs(t)
    && t.trace == s.trace + Flat(evs)
  }

  lemma ShowsCons(z: Mode, s: Sys, s1: Sys, t: Sys, ms: seq<Mode>, cs: seq<Copier>, evs: seq<seq<Event>>)
    requires (s.mode.Setup? || s.mode == z) && Refines(s, s1) && Shows(z, s1, t, ms, cs, evs)
    ensures Shows(z, s, t, [s.mode] + ms, [Abs(s)] + cs, [s1.trace[|s.trace|..]] + evs)
  {
    var ev := s1.trace[|s.trace|..];
    CopyRunCons(s.mode, Abs(s), ev, ms, cs, evs);
    assert s.trace + (ev + Flat(evs)) == s1.trace + Flat(evs);
  }

  lemma {:induction false} RunRefines(z: Mode, s: Sys, ls: seq<Label>)
      returns (ms: seq<Mode>, cs: seq<Copier>, evs: seq<seq<Event>>)
    requires Inv(s) && ZeroSys(z, s) && ZeroRun(z, ls)
    ensures Shows(z, s, Exec(s, ls), ms, cs, evs)
    decreases |ls|
  {
    if ls == [] {
      ms, cs, evs := [], [Abs(s)], [];
    } else {
      var s1 := Step(s, ls[0]);
      StepAll(z, s, ls[0]);
      var ms1, cs1, evs1 := RunRefines(z, s1, ls[1..]);
      ShowsCons(z, s, s1, Exec(s1, ls[1..]), ms1, cs1, evs1);
      ms, cs, evs := [s.mode] + ms1, [Abs(s)] + cs1, [s1.trace[|s.trace|..]] + evs1;
    }
  }

  /** The copying relay before anything happened. */
  function Empty(peers: map<int, Addr>): Copier { Copier(peers, [], None, map[], false) }

  /**
    Main theorem. For every pool size, ring size and schedule of the kernel, the events of a
    run of the zero-copy edge are the events of a run of the relay that copies.
   */
  lemma ZeroCopyRefinesCopying(z: Mode, nOps: nat, nRing: nat, peers: map<int, Addr>, ls: seq<Label>)
    requires ZeroRun(z, ls)
    ensures exists ms, cs, evs ::
      Shows(z, Initial(nOps, nRing, peers), Exec(Initial(nOps, nRing, peers), ls), ms, cs, evs) && cs[0] == Empty(peers)
  {
    var s := Initial(nOps, nRing, peers);
    InitialInv(nOps, nRing, peers);
    var ms, cs, evs := RunRefines(z, s, ls);
    assert Abs(s) == Empty(peers);
  }
}
