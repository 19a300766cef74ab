/**
 * Stochastic playout: a synthetic event log built by simulating a Petri net
 * one trace at a time. Each trace is a small state machine over the current
 * marking; a chooser picks among the enabled transitions, plus a stop option
 * when the marking is the final one. One timestamp counter runs through the
 * whole log.
 *
 * The specification is given by functions (Step, RunTrace, Generate,
 * PlayoutSpec); the methods PlayStep, PlayTrace, PlayTraces, ApplyPlayout
 * and Apply are the engine itself, each proved equal to its specification.
 */
module StochasticPlayout {
  import opened Wrappers
  import opened PetriNets
  import opened EventLogs

  /** The timestamp of the first event of every log. */
  const TimestampStart: int := 10000000

  /** Defaults that `apply` uses when a parameter is not given. */
  const DefaultNoTraces: int := 1000
  const DefaultMaxTraceLength: int := 1000

  /** A candidate for the chooser: a transition, or the stop pseudo-choice (`None` in the source). */
  datatype Choice = Stop | Take(t: Transition)

  /** The four states of the per-trace machine. */
  datatype Status = Running | StoppedByChoice | StoppedByDeadlock | StoppedByLength

  /**
   * What a trace carries while it is simulated: the current marking, the
   * events so far, the next timestamp, and how many choices were drawn in
   * this playout so far (the position in the random stream).
   */
  datatype TraceState = TraceState(marking: Marking, events: seq<Event>, clock: int, picks: nat)

  /** The fixed inputs of one playout, once the final marking and the stochastic map are known. */
  datatype Setup<!S> = Setup(
    net: Net,
    initial: Marking,
    final: Marking,
    smap: S,
    maxTraceLength: int,
    pick: (S, nat, seq<Choice>) -> Choice)

  /**
   * The collaborators the engine calls and that are not part of this model:
   * final-marking discovery, estimating a stochastic map from a log by
   * replay, and weighted sampling, which here is any function of the
   * stochastic map, the draw index and the candidate list.
   */
  datatype Collaborators<!S, !L> = Collaborators(
    discoverFinalMarking: Net -> Marking,
    mapFromLogAndNet: (L, Net, Marking, Marking) -> S,
    pick: (S, nat, seq<Choice>) -> Choice)

  datatype PlayoutError =
    | MissingStochasticInfo   // neither a stochastic map nor a log was given
    | StepBudgetExhausted     // a trace needed more loop iterations than the budget

  /** A sampler returns one of the candidates it is offered. */
  ghost predicate ChooserSound<S(!new)>(pick: (S, nat, seq<Choice>) -> Choice)
  {
    forall sm, k, cs :: |cs| > 0 ==> pick(sm, k, cs) in cs
  }

  function Cap(n: int): nat
  {
    if n < 0 then 0 else n
  }

  function Max(a: int, b: int): int
  {
    if a < b then b else a
  }

  /** The candidate list: the enabled transitions, then stop when the marking is final. */
  function Candidates(enabled: seq<Transition>, atFinal: bool): (cs: seq<Choice>)
    ensures forall c :: c in cs <==> (c.Stop? && atFinal) || (c.Take? && c.t in enabled)
    ensures |cs| == |enabled| + (if atFinal then 1 else 0)
  {
    var offered := seq(|enabled|, i requires 0 <= i < |enabled| => Take(enabled[i]));
    assert forall t | t in enabled :: Take(t) in offered by {
      forall t | t in enabled ensures Take(t) in offered {
        var i :| 0 <= i < |enabled| && enabled[i] == t;
        assert offered[i] == Take(t);
      }
    }
    if atFinal then offered + [Stop] else offered
  }

  /** The event a fired transition emits: one for a visible label, none for a silent one. */
  function Emitted(t: Transition, clock: int): (es: seq<Event>)
    ensures |es| <= 1
    ensures t.activity.None? <==> es == []
    ensures forall e | e in es :: e.activity == t.activity.value && e.timestamp == clock
  {
    if t.activity.Some? then [Event(t.activity.value, clock)] else []
  }

  /**
   * One iteration of the loop body, entered while the trace is below the
   * length cap: deadlock, stop by choice, or fire a transition.
   */
  function Step<S(!new)>(c: Setup<S>, s: TraceState): (r: (Status, TraceState))
    requires ChooserSound(c.pick)
    ensures r.0 != StoppedByLength
    ensures r.0 == StoppedByDeadlock <==> Enabled(c.net, s.marking) == []
    ensures r.0 == StoppedByDeadlock ==> r.1 == s
    ensures r.0 == StoppedByChoice ==>
      SameMarking(s.marking, c.final) && r.1 == s.(picks := s.picks + 1)
    ensures r.0 == Running ==> r.1.picks == s.picks + 1 && |s.events| <= |r.1.events| <= |s.events| + 1
  {
    var enabled := Enabled(c.net, s.marking);
    if enabled == [] then (StoppedByDeadlock, s)
    else
      var cands := Candidates(enabled, SameMarking(s.marking, c.final));
      var choice := c.pick(c.smap, s.picks, cands);
      if choice.Stop? then (StoppedByChoice, s.(picks := s.picks + 1))
      else
        var t := choice.t;
        var es := Emitted(t, s.clock);
        (Running, TraceState(Fire(t, s.marking), s.events + es, s.clock + |es|, s.picks + 1))
  }

  /**
   * `s2` continues `s1` within `net`: the old events are kept, every new
   * event carries a label of the net and the next timestamp in turn, and
   * the counter has moved past exactly the new events.
   */
  ghost predicate Extends(net: Net, s1: TraceState, s2: TraceState)
  {
    && |s1.events| <= |s2.events|
    && s2.events[..|s1.events|] == s1.events
    && (forall k | |s1.events| <= k < |s2.events| ::
          s2.events[k].timestamp == s1.clock + (k - |s1.events|) && IsLabelOf(net, s2.events[k].activity))
    && s2.clock == s1.clock + (|s2.events| - |s1.events|)
    && s1.picks <= s2.picks
  }

  lemma ExtendsTransitive(net: Net, s1: TraceState, s2: TraceState, s3: TraceState)
    requires Extends(net, s1, s2) && Extends(net, s2, s3)
    ensures Extends(net, s1, s3)
  {
    assert s3.events[..|s1.events|] == s3.events[..|s2.events|][..|s1.events|];
    forall k | |s1.events| <= k < |s3.events|
      ensures s3.events[k].timestamp == s1.clock + (k - |s1.events|) && IsLabelOf(net, s3.events[k].activity)
    {
      if k < |s2.events| {
        assert s3.events[k] == s2.events[k];
      }
    }
  }

  /** A step keeps the trace's history and only appends what the net can emit. */
  lemma StepExtends<S(!new)>(c: Setup<S>, s: TraceState)
    requires ChooserSound(c.pick)
    ensures Extends(c.net, s, Step(c, s).1)
    ensures |Step(c, s).1.events| <= |s.events| + 1
  {
    var enabled := Enabled(c.net, s.marking);
    if enabled != [] {
      var choice := c.pick(c.smap, s.picks, Candidates(enabled, SameMarking(s.marking, c.final)));
      if choice.Take? {
        StepTakes(c, s, choice.t);
        EmitExtends(c.net, s, choice.t, Fire(choice.t, s.marking));
      }
    }
  }

  /** Firing a transition of the net appends at most its label, stamped with the counter. */
  lemma EmitExtends(net: Net, s: TraceState, t: Transition, m: Marking)
    requires t in net.transitions
    ensures Extends(net, s, TraceState(m, s.events + Emitted(t, s.clock), s.clock + |Emitted(t, s.clock)|, s.picks + 1))
  {
    assert (s.events + Emitted(t, s.clock))[..|s.events|] == s.events;
    if t.activity.Some? {
      assert IsLabelOf(net, t.activity.value);
    }
  }

  /**
   * The loop of one trace with a budget of `fuel` iterations: the loop ends
   * at the length cap, on deadlock or on stop; `None` when the budget runs
   * out first.
   */
  function RunTrace<S(!new)>(c: Setup<S>, s: TraceState, fuel: nat): Option<(Status, TraceState)>
    requires ChooserSound(c.pick)
    decreases fuel
  {
    if |s.events| >= c.maxTraceLength then Some((StoppedByLength, s))
    else if fuel == 0 then None
    else
      var (st, s1) := Step(c, s);
      if st != Running then Some((st, s1)) else RunTrace(c, s1, fuel - 1)
  }

  /**
   * A finished trace has stopped for one of the three reasons, has kept the
   * events it started with, has at most the cap of events (unless it started
   * beyond it), and carries only labels of the net with consecutive
   * timestamps.
   */
  lemma {:induction false} RunTraceOutcome<S(!new)>(c: Setup<S>, s: TraceState, fuel: nat)
    requires ChooserSound(c.pick)
    requires RunTrace(c, s, fuel).Some?
    ensures var (st, s') := RunTrace(c, s, fuel).value;
      && st != Running
      && Extends(c.net, s, s')
      && |s'.events| <= Max(|s.events|, c.maxTraceLength)
      && (st == StoppedByLength ==> |s'.events| >= c.maxTraceLength)
      && (st == StoppedByDeadlock ==> Enabled(c.net, s'.marking) == [])
      && (st == StoppedByChoice ==> SameMarking(s'.marking, c.final))
    decreases fuel
  {
    if |s.events| < c.maxTraceLength {
      StepExtends(c, s);
      var rest: nat := fuel - 1;
      var (st, s1) := Step(c, s);
      if st == Running {
        RunTraceAdvance(c, s, fuel, s1, rest);
        RunTraceOutcome(c, s1, rest);
        ExtendsTransitive(c.net, s, s1, RunTrace(c, s1, rest).value.1);
      } else {
        RunTraceHalts(c, s, fuel, st, s1);
      }
    }
  }

  /** The step that draws transition `t`. */
  lemma StepTakes<S(!new)>(c: Setup<S>, s: TraceState, t: Transition)
    requires ChooserSound(c.pick)
    requires Enabled(c.net, s.marking) != []
    requires c.pick(c.smap, s.picks, Candidates(Enabled(c.net, s.marking), SameMarking(s.marking, c.final))) == Take(t)
    ensures IsEnabled(t, s.marking)
    ensures Step(c, s) == (Running, TraceState(Fire(t, s.marking), s.events + Emitted(t, s.clock), s.clock + |Emitted(t, s.clock)|, s.picks + 1))
  {
  }

  /** The step that draws the stop option. */
  lemma StepStops<S(!new)>(c: Setup<S>, s: TraceState)
    requires ChooserSound(c.pick)
    requires Enabled(c.net, s.marking) != []
    requires c.pick(c.smap, s.picks, Candidates(Enabled(c.net, s.marking), SameMarking(s.marking, c.final))) == Stop
    ensures Step(c, s) == (StoppedByChoice, s.(picks := s.picks + 1))
  {
  }

  /** Below the cap and with budget left, a step that stops ends the run. */
  lemma RunTraceHalts<S(!new)>(c: Setup<S>, s: TraceState, fuel: nat, st: Status, s': TraceState)
    requires ChooserSound(c.pick)
    requires |s.events| < c.maxTraceLength && fuel > 0
    requires Step(c, s) == (st, s') && st != Running
    ensures RunTrace(c, s, fuel) == Some((st, s'))
  {
    var rest: nat := fuel - 1;
    assert RunTrace(c, s, rest + 1) == Some((st, s'));
  }

  /** Below the cap and with budget left, a step that fires continues the run with one iteration less. */
  lemma RunTraceAdvance<S(!new)>(c: Setup<S>, s: TraceState, fuel: nat, s': TraceState, fuel': nat)
    requires ChooserSound(c.pick)
    requires |s.events| < c.maxTraceLength && fuel == fuel' + 1
    requires Step(c, s) == (Running, s')
    ensures RunTrace(c, s, fuel) == RunTrace(c, s', fuel')
  {
    assert RunTrace(c, s, fuel' + 1) == RunTrace(c, s', fuel');
  }

  /**
   * The budget only decides whether a trace finishes: once a trace finishes
   * within `fuel` iterations, every larger budget gives the same outcome.
   */
  lemma {:induction false} RunTraceFuelMonotone<S(!new)>(c: Setup<S>, s: TraceState, fuel: nat, fuel': nat)
    requires ChooserSound(c.pick)
    requires RunTrace(c, s, fuel).Some? && fuel <= fuel'
    ensures RunTrace(c, s, fuel') == RunTrace(c, s, fuel)
    decreases fuel
  {
    if |s.events| < c.maxTraceLength {
      var (st, s1) := Step(c, s);
      var rest: nat := fuel - 1;
      var rest': nat := fuel' - 1;
      if st == Running {
        RunTraceAdvance(c, s, fuel, s1, rest);
        RunTraceAdvance(c, s, fuel', s1, rest');
        RunTraceFuelMonotone(c, s1, rest, rest');
      } else {
        RunTraceHalts(c, s, fuel, st, s1);
        RunTraceHalts(c, s, fuel', st, s1);
      }
    }
  }

  /** A step that fires draws a transition of the net and appends at most its label. */
  lemma StepFires<S(!new)>(c: Setup<S>, s: TraceState)
    requires ChooserSound(c.pick)
    requires Step(c, s).0 == Running
    ensures exists t :: t in c.net.transitions && Step(c, s).1.events == s.events + Emitted(t, s.clock)
  {
    var enabled := Enabled(c.net, s.marking);
    var choice := c.pick(c.smap, s.picks, Candidates(enabled, SameMarking(s.marking, c.final)));
    StepTakes(c, s, choice.t);
  }

  /**
   * Without silent transitions every iteration either ends the trace or adds
   * an event, so a budget that covers the distance to the length cap always
   * suffices.
   */
  lemma {:induction false} LabelledNetTerminates<S(!new)>(c: Setup<S>, s: TraceState, fuel: nat)
    requires ChooserSound(c.pick)
    requires AllLabelled(c.net)
    requires |s.events| + fuel >= c.maxTraceLength
    ensures RunTrace(c, s, fuel).Some?
    decreases fuel
  {
    if |s.events| < c.maxTraceLength {
      var rest: nat := fuel - 1;
      var (st, s1) := Step(c, s);
      if st == Running {
        StepFires(c, s);
        var t :| t in c.net.transitions && s1.events == s.events + Emitted(t, s.clock);
        RunTraceAdvance(c, s, fuel, s1, rest);
        LabelledNetTerminates(c, s1, rest);
      } else {
        RunTraceHalts(c, s, fuel, st, s1);
      }
    }
  }

  /** What the outer loop has built so far: the traces, the next timestamp, the draws made. */
  datatype Progress = Progress(log: EventLog, clock: int, picks: nat)

  /**
   * The log has `n` traces; trace `i` has case id `str(i)` and at most the
   * cap of events; the events of the whole log carry the net's labels and
   * consecutive timestamps from `TimestampStart`.
   */
  ghost predicate WellFormedLog<S>(c: Setup<S>, log: EventLog, n: nat)
  {
    && |log| == n
    && (forall i | 0 <= i < n :: log[i].caseId == NatToString(i) && |log[i].events| <= Cap(c.maxTraceLength))
    && Consecutive(AllEvents(log), TimestampStart)
    && (forall k | 0 <= k < |AllEvents(log)| :: IsLabelOf(c.net, AllEvents(log)[k].activity))
  }

  /** The first `n` traces, each started from a fresh copy of the initial marking. */
  function Generate<S(!new)>(c: Setup<S>, n: nat, fuel: nat): Option<Progress>
    requires ChooserSound(c.pick)
  {
    if n == 0 then Some(Progress([], TimestampStart, 0))
    else
      var prev := Generate(c, n - 1, fuel);
      if prev.None? then None
      else
        var p := prev.value;
        var run := RunTrace(c, TraceState(c.initial, [], p.clock, p.picks), fuel);
        if run.None? then None
        else
          var s := run.value.1;
          Some(Progress(p.log + [Trace(NatToString(n - 1), s.events)], s.clock, s.picks))
  }

  /** The outer loop appends the trace that the run from the initial marking produces. */
  lemma GenerateAppends<S(!new)>(c: Setup<S>, n: nat, fuel: nat, p: Progress, st: Status, s: TraceState)
    requires ChooserSound(c.pick)
    requires Generate(c, n, fuel) == Some(p)
    requires RunTrace(c, TraceState(c.initial, [], p.clock, p.picks), fuel) == Some((st, s))
    ensures Generate(c, n + 1, fuel) == Some(Progress(p.log + [Trace(NatToString(n), s.events)], s.clock, s.picks))
  {
  }

  /** Every log the outer loop builds is well formed, and the counter stands just past its last event. */
  lemma {:induction false} GenerateWellFormed<S(!new)>(c: Setup<S>, n: nat, fuel: nat)
    requires ChooserSound(c.pick)
    requires Generate(c, n, fuel).Some?
    ensures WellFormedLog(c, Generate(c, n, fuel).value.log, n)
    ensures Generate(c, n, fuel).value.clock == TimestampStart + |AllEvents(Generate(c, n, fuel).value.log)|
  {
    if n > 0 {
      GenerateWellFormed(c, n - 1, fuel);
      var p := Generate(c, n - 1, fuel).value;
      var start := TraceState(c.initial, [], p.clock, p.picks);
      RunTraceOutcome(c, start, fuel);
      AppendTraceWellFormed(c, p, n - 1, RunTrace(c, start, fuel).value.1);
    }
  }

  /** Appending the trace a run produced from the current counter keeps the log well formed. */
  lemma AppendTraceWellFormed<S(!new)>(c: Setup<S>, p: Progress, i: nat, s: TraceState)
    requires WellFormedLog(c, p.log, i) && p.clock == TimestampStart + |AllEvents(p.log)|
    requires Extends(c.net, TraceState(c.initial, [], p.clock, p.picks), s)
    requires |s.events| <= Cap(c.maxTraceLength)
    ensures WellFormedLog(c, p.log + [Trace(NatToString(i), s.events)], i + 1)
    ensures s.clock == TimestampStart + |AllEvents(p.log + [Trace(NatToString(i), s.events)])|
  {
    var t := Trace(NatToString(i), s.events);
    var log := p.log + [t];
    AllEventsAppend(p.log, t);
    var all := AllEvents(log);
    var before := AllEvents(p.log);
    forall k | 0 <= k < |all|
      ensures all[k].timestamp == TimestampStart + k && IsLabelOf(c.net, all[k].activity)
    {
      if k >= |before| {
        assert all[k] == s.events[k - |before|];
      } else {
        assert all[k] == before[k];
      }
    }
    forall j | 0 <= j < i + 1
      ensures log[j].caseId == NatToString(j) && |log[j].events| <= Cap(c.maxTraceLength)
    {
      if j < i {
        assert log[j] == p.log[j];
      }
    }
  }

  /** Once a trace runs out of budget, no longer prefix of the log can be built either. */
  lemma {:induction false} GenerateStaysNone<S(!new)>(c: Setup<S>, a: nat, b: nat, fuel: nat)
    requires ChooserSound(c.pick)
    requires a <= b && Generate(c, a, fuel).None?
    ensures Generate(c, b, fuel).None?
    decreases b
  {
    if a < b {
      GenerateStaysNone(c, a, b - 1, fuel);
    }
  }

  /** A log built within a per-trace budget is built the same with any larger budget. */
  lemma {:induction false} GenerateFuelMonotone<S(!new)>(c: Setup<S>, n: nat, fuel: nat, fuel': nat)
    requires ChooserSound(c.pick)
    requires Generate(c, n, fuel).Some? && fuel <= fuel'
    ensures Generate(c, n, fuel') == Generate(c, n, fuel)
  {
    if n > 0 {
      assert Generate(c, n - 1, fuel).Some?;
      GenerateFuelMonotone(c, n - 1, fuel, fuel');
      var p := Generate(c, n - 1, fuel).value;
      var start := TraceState(c.initial, [], p.clock, p.picks);
      assert RunTrace(c, start, fuel).Some?;
      RunTraceFuelMonotone(c, start, fuel, fuel');
      var (st, s) := RunTrace(c, start, fuel).value;
      GenerateAppends(c, n - 1, fuel, p, st, s);
      GenerateAppends(c, n - 1, fuel', p, st, s);
    }
  }

  /** Without silent transitions, a budget of `maxTraceLength` iterations per trace builds the whole log. */
  lemma {:induction false} LabelledNetGenerates<S(!new)>(c: Setup<S>, n: nat, fuel: nat)
    requires ChooserSound(c.pick)
    requires AllLabelled(c.net) && fuel >= c.maxTraceLength
    ensures Generate(c, n, fuel).Some?
  {
    if n > 0 {
      LabelledNetGenerates(c, n - 1, fuel);
      var p := Generate(c, n - 1, fuel).value;
      LabelledNetTerminates(c, TraceState(c.initial, [], p.clock, p.picks), fuel);
    }
  }

  /** `apply_playout` as a function of its inputs. */
  function PlayoutSpec<S(!new), L>(
    net: Net, initial: Marking, noTraces: int, maxTraceLength: int,
    finalMarking: Option<Marking>, smap: Option<S>, log: Option<L>,
    k: Collaborators<S, L>, fuel: nat): Result<EventLog, PlayoutError>
    requires ChooserSound(k.pick)
  {
    var fm := if finalMarking.None? then k.discoverFinalMarking(net) else finalMarking.value;
    if smap.None? && log.None? then Failure(MissingStochasticInfo)
    else
      var sm := if smap.Some? then smap.value else k.mapFromLogAndNet(log.value, net, initial, fm);
      var c := Setup(net, initial, fm, sm, maxTraceLength, k.pick);
      var g := Generate(c, Cap(noTraces), fuel);
      if g.None? then Failure(StepBudgetExhausted) else Success(g.value.log)
  }

  /**
   * The configuration error is raised exactly when both the stochastic map
   * and the log are missing. A successful playout has `noTraces` traces (none
   * when it is negative), trace `i` named `str(i)` with at most
   * `maxTraceLength` events, consecutive timestamps from 10000000 across the
   * whole log, and only labels of the net as activities.
   */
  lemma PlayoutSpecProperties<S(!new), L>(
    net: Net, initial: Marking, noTraces: int, maxTraceLength: int,
    finalMarking: Option<Marking>, smap: Option<S>, log: Option<L>,
    k: Collaborators<S, L>, fuel: nat)
    requires ChooserSound(k.pick)
    ensures var r := PlayoutSpec(net, initial, noTraces, maxTraceLength, finalMarking, smap, log, k, fuel);
      && (r == Failure(MissingStochasticInfo) <==> smap.None? && log.None?)
      && (r.Success? ==> |r.value| == Cap(noTraces))
      && (r.Success? ==> forall i | 0 <= i < |r.value| ::
            r.value[i].caseId == NatToString(i) && |r.value[i].events| <= Cap(maxTraceLength))
      && (r.Success? ==> Consecutive(AllEvents(r.value), TimestampStart))
      && (r.Success? ==> forall e | e in AllEvents(r.value) :: IsLabelOf(net, e.activity))
  {
    if smap.Some? || log.Some? {
      var fm := if finalMarking.None? then k.discoverFinalMarking(net) else finalMarking.value;
      var sm := if smap.Some? then smap.value else k.mapFromLogAndNet(log.value, net, initial, fm);
      var c := Setup(net, initial, fm, sm, maxTraceLength, k.pick);
      if Generate(c, Cap(noTraces), fuel).Some? {
        GenerateWellFormed(c, Cap(noTraces), fuel);
      }
    }
  }

  /**
   * The budget never changes a delivered log: a playout that succeeds with
   * per-trace budget `fuel` returns the same log with every larger budget.
   */
  lemma PlayoutSpecFuelMonotone<S(!new), L>(
    net: Net, initial: Marking, noTraces: int, maxTraceLength: int,
    finalMarking: Option<Marking>, smap: Option<S>, log: Option<L>,
    k: Collaborators<S, L>, fuel: nat, fuel': nat)
    requires ChooserSound(k.pick)
    requires PlayoutSpec(net, initial, noTraces, maxTraceLength, finalMarking, smap, log, k, fuel).Success?
    requires fuel <= fuel'
    ensures PlayoutSpec(net, initial, noTraces, maxTraceLength, finalMarking, smap, log, k, fuel')
      == PlayoutSpec(net, initial, noTraces, maxTraceLength, finalMarking, smap, log, k, fuel)
  {
    var fm := if finalMarking.None? then k.discoverFinalMarking(net) else finalMarking.value;
    var sm := if smap.Some? then smap.value else k.mapFromLogAndNet(log.value, net, initial, fm);
    var c := Setup(net, initial, fm, sm, maxTraceLength, k.pick);
    GenerateFuelMonotone(c, Cap(noTraces), fuel, fuel');
  }

  /** The case ids of a successful playout are pairwise distinct. */
  lemma PlayoutCaseIdsDistinct<S(!new), L>(
    net: Net, initial: Marking, noTraces: int, maxTraceLength: int,
    finalMarking: Option<Marking>, smap: Option<S>, log: Option<L>,
    k: Collaborators<S, L>, fuel: nat)
    requires ChooserSound(k.pick)
    ensures var r := PlayoutSpec(net, initial, noTraces, maxTraceLength, finalMarking, smap, log, k, fuel);
      r.Success? ==> forall i, j | 0 <= i < j < |r.value| :: r.value[i].caseId != r.value[j].caseId
  {
    var r := PlayoutSpec(net, initial, noTraces, maxTraceLength, finalMarking, smap, log, k, fuel);
    PlayoutSpecProperties(net, initial, noTraces, maxTraceLength, finalMarking, smap, log, k, fuel);
    if r.Success? {
      forall i, j | 0 <= i < j < |r.value|
        ensures r.value[i].caseId != r.value[j].caseId
      {
        NatToStringInjective(i, j);
      }
    }
  }

  /** One pass through the body of the inner loop of `apply_playout`, from state `s`. */
  method PlayStep<S(!new)>(c: Setup<S>, s: TraceState) returns (st: Status, s': TraceState)
    requires ChooserSound(c.pick)
    ensures (st, s') == Step(c, s)
  {
    var enabled := Enabled(c.net, s.marking);
    if enabled == [] {
      return StoppedByDeadlock, s;
    }
    var candidates := Candidates(enabled, SameMarking(s.marking, c.final));
    var choice := c.pick(c.smap, s.picks, candidates);
    if choice.Stop? {
      return StoppedByChoice, s.(picks := s.picks + 1);
    }
    var t := choice.t;
    var events, clock := s.events, s.clock;
    if t.activity.Some? {
      events := events + [Event(t.activity.value, clock)];
      clock := clock + 1;
    }
    assert events == s.events + Emitted(t, s.clock) && clock == s.clock + |Emitted(t, s.clock)|;
    return Running, TraceState(Fire(t, s.marking), events, clock, s.picks + 1);
  }

  /** The inner loop of `apply_playout`: one trace, from `start`, with at most `fuel` iterations. */
  method PlayTrace<S(!new)>(c: Setup<S>, start: TraceState, fuel: nat) returns (r: Option<(Status, TraceState)>)
    requires ChooserSound(c.pick)
    ensures r == RunTrace(c, start, fuel)
  {
    var s := start;
    var left := fuel;
    while |s.events| < c.maxTraceLength
      invariant RunTrace(c, start, fuel) == RunTrace(c, s, left)
      decreases left
    {
      if left == 0 {
        return None;
      }
      var rest: nat := left - 1;
      var st, s' := PlayStep(c, s);
      if st != Running {
        RunTraceHalts(c, s, left, st, s');
        return Some((st, s'));
      }
      RunTraceAdvance(c, s, left, s', rest);
      s, left := s', rest;
    }
    return Some((StoppedByLength, s));
  }

  /** The outer loop of `apply_playout`: `noTraces` traces sharing one timestamp counter and one draw stream. */
  method PlayTraces<S(!new)>(c: Setup<S>, noTraces: int, fuel: nat) returns (g: Option<Progress>)
    requires ChooserSound(c.pick)
    ensures g == Generate(c, Cap(noTraces), fuel)
  {
    var clock := TimestampStart;
    var picks := 0;
    var out: EventLog := [];
    var i := 0;
    while i < noTraces
      invariant 0 <= i <= Cap(noTraces)
      invariant Generate(c, i, fuel) == Some(Progress(out, clock, picks))
    {
      var run := PlayTrace(c, TraceState(c.initial, [], clock, picks), fuel);
      if run.None? {
        GenerateStaysNone(c, i + 1, Cap(noTraces), fuel);
        return None;
      }
      var s := run.value.1;
      out := out + [Trace(NatToString(i), s.events)];
      clock, picks := s.clock, s.picks;
      i := i + 1;
    }
    return Some(Progress(out, clock, picks));
  }

  /** `apply_playout`: the final marking and the stochastic map are settled, then the traces are played out. */
  method ApplyPlayout<S(!new), L>(
    net: Net, initial: Marking, noTraces: int, maxTraceLength: int,
    finalMarking: Option<Marking>, smap: Option<S>, log: Option<L>,
    k: Collaborators<S, L>, fuel: nat) returns (r: Result<EventLog, PlayoutError>)
    requires ChooserSound(k.pick)
    ensures r == PlayoutSpec(net, initial, noTraces, maxTraceLength, finalMarking, smap, log, k, fuel)
    ensures r == Failure(MissingStochasticInfo) <==> smap.None? && log.None?
    ensures r.Success? ==> |r.value| == Cap(noTraces)
    ensures r.Success? ==> forall i | 0 <= i < |r.value| ::
      r.value[i].caseId == NatToString(i) && |r.value[i].events| <= Cap(maxTraceLength)
    ensures r.Success? ==> StrictlyIncreasing(AllEvents(r.value))
  {
    PlayoutSpecProperties(net, initial, noTraces, maxTraceLength, finalMarking, smap, log, k, fuel);
    var fm := if finalMarking.None? then k.discoverFinalMarking(net) else finalMarking.value;
    var sm: S;
    if smap.None? {
      if log.None? {
        return Failure(MissingStochasticInfo);
      }
      sm := k.mapFromLogAndNet(log.value, net, initial, fm);
    } else {
      sm := smap.value;
    }
    var g := PlayTraces(Setup(net, initial, fm, sm, maxTraceLength, k.pick), noTraces, fuel);
    if g.None? {
      return Failure(StepBudgetExhausted);
    }
    r := Success(g.value.log);
  }

  /** The parameters `apply` reads, each optional. */
  datatype Parameters<S, L> = Parameters(
    noTraces: Option<int>,
    maxTraceLength: Option<int>,
    stochasticMap: Option<S>,
    log: Option<L>)

  /** `apply`: reads the parameters, with 1000 traces of at most 1000 events by default. */
  method Apply<S(!new), L>(
    net: Net, initial: Marking, finalMarking: Option<Marking>,
    parameters: Option<Parameters<S, L>>, k: Collaborators<S, L>, fuel: nat)
    returns (r: Result<EventLog, PlayoutError>)
    requires ChooserSound(k.pick)
    ensures var p := parameters.GetOr(Parameters(None, None, None, None));
      r == PlayoutSpec(net, initial, p.noTraces.GetOr(DefaultNoTraces), p.maxTraceLength.GetOr(DefaultMaxTraceLength),
                       finalMarking, p.stochasticMap, p.log, k, fuel)
    ensures r.Success? && (parameters.None? || parameters.value.noTraces.None?) ==> |r.value| == DefaultNoTraces
    ensures r.Success? && (parameters.None? || parameters.value.maxTraceLength.None?) ==>
      forall i | 0 <= i < |r.value| :: |r.value[i].events| <= DefaultMaxTraceLength
  {
    var p := if parameters.None? then Parameters(None, None, None, None) else parameters.value;
    var noTraces := p.noTraces.GetOr(DefaultNoTraces);
    var maxTraceLength := p.maxTraceLength.GetOr(DefaultMaxTraceLength);
    r := ApplyPlayout(net, initial, noTraces, maxTraceLength, finalMarking, p.stochasticMap, p.log, k, fuel);
  }
}
