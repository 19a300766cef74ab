/**
 * Small nets on which the playout can be followed by hand: a silent
 * self-loop that keeps the inner loop running forever, a single visible
 * transition whose traces end by deadlock on the final marking, and nets
 * whose traces are all empty.
 */
module PlayoutScenarios {
  import opened Wrappers
  import opened PetriNets
  import opened EventLogs
  import opened StochasticPlayout

  /** A silent transition that takes the token of place 0 and puts it back. */
  function SilentLoop(): Transition
  {
    Transition("tau", None, map[0 := 1], map[0 := 1])
  }

  /** A visible transition `A` that moves the token from place 0 to place 1. */
  function Handoff(): Transition
  {
    Transition("t1", Some("A"), map[0 := 1], map[1 := 1])
  }

  /** The enabled set of a one-transition net. */
  lemma EnabledSingle(t: Transition, m: Marking)
    ensures Enabled(Net([t]), m) == if IsEnabled(t, m) then [t] else []
  {
    assert [t][1..] == [];
  }

  /** A sound chooser offered a single candidate returns it. */
  lemma PickSingle<S(!new)>(pick: (S, nat, seq<Choice>) -> Choice, sm: S, k: nat, t: Transition)
    requires ChooserSound(pick)
    ensures pick(sm, k, Candidates([t], false)) == Take(t)
  {
    var cs := Candidates([t], false);
    assert pick(sm, k, cs) in cs;
  }

  /**
   * On the silent self-loop, with a final marking that is never reached and
   * a positive length cap, the trace never ends: no budget suffices, whatever
   * the chooser does.
   */
  lemma {:induction false} SilentCycleDiverges<S(!new)>(c: Setup<S>, clock: int, picks: nat, fuel: nat)
    requires ChooserSound(c.pick)
    requires c.net == Net([SilentLoop()]) && c.final == map[] && c.maxTraceLength > 0
    ensures RunTrace(c, TraceState(map[0 := 1], [], clock, picks), fuel) == None
    decreases fuel
  {
    if fuel > 0 {
      var t := SilentLoop();
      var s := TraceState(map[0 := 1], [], clock, picks);
      assert IsEnabled(t, s.marking);
      EnabledSingle(t, s.marking);
      assert !SameMarking(s.marking, c.final) by {
        assert At(s.marking, 0) != At(c.final, 0);
      }
      PickSingle(c.pick, c.smap, picks, t);
      StepTakes(c, s, t);
      assert Fire(t, s.marking) == s.marking by {
        assert At(Fire(t, s.marking), 0) == 1;
      }
      assert s.events + Emitted(t, clock) == [];
      var rest: nat := fuel - 1;
      RunTraceAdvance(c, s, fuel, TraceState(s.marking, [], clock, picks + 1), rest);
      SilentCycleDiverges(c, clock, picks + 1, rest);
    }
  }

  /** Hence `apply_playout` on the silent self-loop cannot deliver even one trace. */
  lemma SilentCyclePlayoutFails<S(!new), L>(
    noTraces: int, maxTraceLength: int, smap: S, k: Collaborators<S, L>, fuel: nat)
    requires ChooserSound(k.pick)
    requires noTraces > 0 && maxTraceLength > 0
    ensures PlayoutSpec(Net([SilentLoop()]), map[0 := 1], noTraces, maxTraceLength, Some(map[]), Some(smap), None, k, fuel)
      == Failure(StepBudgetExhausted)
  {
    var c := Setup(Net([SilentLoop()]), map[0 := 1], map[], smap, maxTraceLength, k.pick);
    SilentCycleDiverges(c, TimestampStart, 0, fuel);
    GenerateStaysNone(c, 1, Cap(noTraces), fuel);
  }

  /**
   * On the one-transition net, a trace fires `A` once and then deadlocks:
   * the final marking is reached, but with nothing enabled the stop option
   * is never offered.
   */
  lemma HandoffTrace<S(!new)>(c: Setup<S>, clock: int, picks: nat, fuel: nat)
    requires ChooserSound(c.pick)
    requires c.net == Net([Handoff()]) && c.final == map[1 := 1]
    requires c.maxTraceLength >= 2 && fuel >= 2
    ensures RunTrace(c, TraceState(map[0 := 1], [], clock, picks), fuel) ==
      Some((StoppedByDeadlock, TraceState(map[1 := 1], [Event("A", clock)], clock + 1, picks + 1)))
  {
    var t := Handoff();
    var s := TraceState(map[0 := 1], [], clock, picks);
    assert IsEnabled(t, s.marking);
    EnabledSingle(t, s.marking);
    assert !SameMarking(s.marking, c.final) by {
      assert At(s.marking, 0) != At(c.final, 0);
    }
    PickSingle(c.pick, c.smap, picks, t);
    StepTakes(c, s, t);
    assert Fire(t, s.marking) == map[1 := 1] by {
      assert At(Fire(t, s.marking), 0) == 0 && At(Fire(t, s.marking), 1) == 1;
    }
    assert s.events + Emitted(t, clock) == [Event("A", clock)];
    var s1 := TraceState(map[1 := 1], [Event("A", clock)], clock + 1, picks + 1);
    var rest: nat := fuel - 1;
    RunTraceAdvance(c, s, fuel, s1, rest);
    assert !IsEnabled(t, s1.marking) by {
      assert At(t.inArcs, 0) > At(s1.marking, 0);
    }
    EnabledSingle(t, s1.marking);
    RunTraceHalts(c, s1, rest, StoppedByDeadlock, s1);
  }

  /** With a cap of one event, the trace on the one-transition net ends by length right after A fires. */
  lemma HandoffTraceCapped<S(!new)>(c: Setup<S>, clock: int, picks: nat, fuel: nat)
    requires ChooserSound(c.pick)
    requires c.net == Net([Handoff()]) && c.final == map[1 := 1]
    requires c.maxTraceLength == 1 && fuel >= 1
    ensures RunTrace(c, TraceState(map[0 := 1], [], clock, picks), fuel) ==
      Some((StoppedByLength, TraceState(map[1 := 1], [Event("A", clock)], clock + 1, picks + 1)))
  {
    var t := Handoff();
    var s := TraceState(map[0 := 1], [], clock, picks);
    assert IsEnabled(t, s.marking);
    EnabledSingle(t, s.marking);
    assert !SameMarking(s.marking, c.final) by {
      assert At(s.marking, 0) != At(c.final, 0);
    }
    PickSingle(c.pick, c.smap, picks, t);
    StepTakes(c, s, t);
    assert Fire(t, s.marking) == map[1 := 1] by {
      assert At(Fire(t, s.marking), 0) == 0 && At(Fire(t, s.marking), 1) == 1;
    }
    assert s.events + Emitted(t, clock) == [Event("A", clock)];
    var s1 := TraceState(map[1 := 1], [Event("A", clock)], clock + 1, picks + 1);
    var rest: nat := fuel - 1;
    RunTraceAdvance(c, s, fuel, s1, rest);
    assert RunTrace(c, s1, rest) == Some((StoppedByLength, s1));
  }

  /** The first `n` traces on the one-transition net: trace `i` is the single event `A` at `TimestampStart + i`. */
  lemma {:induction false} HandoffLog<S(!new)>(c: Setup<S>, n: nat, fuel: nat)
    requires ChooserSound(c.pick)
    requires c.net == Net([Handoff()]) && c.initial == map[0 := 1] && c.final == map[1 := 1]
    requires c.maxTraceLength >= 1 && fuel >= 2
    ensures Generate(c, n, fuel).Some?
    ensures var p := Generate(c, n, fuel).value;
      && |p.log| == n
      && (forall i | 0 <= i < n :: p.log[i] == Trace(NatToString(i), [Event("A", TimestampStart + i)]))
      && p.clock == TimestampStart + n
      && p.picks == n
  {
    if n > 0 {
      HandoffLog(c, n - 1, fuel);
      var p := Generate(c, n - 1, fuel).value;
      var s := TraceState(map[1 := 1], [Event("A", p.clock)], p.clock + 1, p.picks + 1);
      if c.maxTraceLength == 1 {
        HandoffTraceCapped(c, p.clock, p.picks, fuel);
        GenerateAppends(c, n - 1, fuel, p, StoppedByLength, s);
      } else {
        HandoffTrace(c, p.clock, p.picks, fuel);
        GenerateAppends(c, n - 1, fuel, p, StoppedByDeadlock, s);
      }
      var log := p.log + [Trace(NatToString(n - 1), s.events)];
      forall i | 0 <= i < n
        ensures log[i] == Trace(NatToString(i), [Event("A", TimestampStart + i)])
      {
        if i < n - 1 {
          assert log[i] == p.log[i];
        }
      }
    }
  }

  /** `apply_playout` on the one-transition net, with its final marking and a stochastic map given. */
  lemma HandoffPlayout<S(!new), L>(
    noTraces: int, maxTraceLength: int, smap: S, k: Collaborators<S, L>, fuel: nat)
    requires ChooserSound(k.pick)
    requires maxTraceLength >= 1 && fuel >= 2
    ensures var r := PlayoutSpec(Net([Handoff()]), map[0 := 1], noTraces, maxTraceLength, Some(map[1 := 1]), Some(smap), None, k, fuel);
      && r.Success?
      && |r.value| == Cap(noTraces)
      && forall i | 0 <= i < |r.value| :: r.value[i] == Trace(NatToString(i), [Event("A", TimestampStart + i)])
  {
    var c := Setup(Net([Handoff()]), map[0 := 1], map[1 := 1], smap, maxTraceLength, k.pick);
    HandoffLog(c, Cap(noTraces), fuel);
  }

  /**
   * When the length cap is not positive, or nothing is enabled in the
   * initial marking, every trace is empty and the counter never moves.
   */
  lemma {:induction false} EmptyTraces<S(!new)>(c: Setup<S>, n: nat, fuel: nat)
    requires ChooserSound(c.pick)
    requires c.maxTraceLength <= 0 || (Enabled(c.net, c.initial) == [] && fuel > 0)
    ensures Generate(c, n, fuel).Some?
    ensures var p := Generate(c, n, fuel).value;
      && |p.log| == n
      && (forall i | 0 <= i < n :: p.log[i] == Trace(NatToString(i), []))
      && p.clock == TimestampStart
      && p.picks == 0
  {
    if n > 0 {
      EmptyTraces(c, n - 1, fuel);
      var p := Generate(c, n - 1, fuel).value;
      var s := TraceState(c.initial, [], p.clock, p.picks);
      if 0 < c.maxTraceLength {
        RunTraceHalts(c, s, fuel, StoppedByDeadlock, s);
      }
    }
  }
}
