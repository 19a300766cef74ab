# Stochastic playout of a Petri net

This project models the stochastic playout engine of pm4py (`apply_playout` and its
parameter front end `apply`), and proves properties of the model in Dafny.
The engine builds a synthetic event log by simulating an accepting Petri net
one trace at a time.

For each of `no_traces` traces, the engine starts from a copy of the initial
marking and repeats a small state machine while the trace has fewer than
`max_trace_length` events:

- It stops on deadlock when no transition is enabled.
- Otherwise it offers the enabled transitions to a chooser. When the marking
  equals the final marking, it also offers a stop option.
- It stops if the chooser picks stop.
- Otherwise it fires the chosen transition. A labelled transition also appends
  one event stamped from a counter. The counter starts at 10000000 and runs
  through the whole log without resetting.

Trace `i` gets the case id `str(i)`. The final marking is discovered when it is
not given. The stochastic map is estimated from a log when only a log is given.
Giving neither is an error.

The project has five modules:

- `Wrappers` (wrappers.dfy): `Option` and `Result`.
- `PetriNets` (petri.dfy): markings as maps from place to token count, with
  absent places holding no token. It also has arc weights, transitions with an
  optional label, the enabled set in net order, the firing rule, and pointwise
  equality of markings.
- `EventLogs` (eventlog.dfy): events with an integer timestamp, traces with a
  case id, and logs. It also has decimal case ids, with reading one back as its
  inverse.
- `StochasticPlayout` (playout.dfy): the engine. The specification is a set of
  functions:
  - `Step`: one loop iteration.
  - `RunTrace`: the inner loop.
  - `Generate`: the outer loop.
  - `PlayoutSpec`: the whole of `apply_playout`.

  The methods run the engine:
  - `PlayStep`: the loop body.
  - `PlayTrace`: the inner `while`.
  - `PlayTraces`: the outer `for`.
  - `ApplyPlayout` and `Apply`.

  Each method is proved equal to its function. The properties the engine
  promises are proved as lemmas about those functions.
- `PlayoutScenarios` (scenarios.dfy): small nets worked through completely.
  They are a silent self-loop, a single visible transition, and nets whose
  traces are all empty.

The collaborators not shown in the source are parameters of the model
(`Collaborators`):

- final-marking discovery;
- estimating a stochastic map from a log;
- weighted sampling.

The sampler is any function of the map, the index of the draw, and the
candidate list. It must return one of the candidates it is offered
(`ChooserSound`). The draw index stands in for the state of the random
generator.

The inner loop's guard counts events only. Firing a silent transition does not
bring a trace closer to the cap. On a net with a silent cycle that never
reaches the final marking, the loop can therefore run forever: it does so
whenever the sampler keeps drawing the silent transitions, because the stop
option is offered only on the final marking. So the length cap bounds the events of a trace, but not the number of loop iterations. The model
follows the code here, not the reading that the cap bounds the loop. Each
trace gets an explicit budget of loop iterations (`fuel`). A trace that uses up
its budget makes the playout return `StepBudgetExhausted`. `SilentCycleDiverges`
proves that the divergence is real: on the self-loop no budget suffices.
`RunTraceFuelMonotone`, `GenerateFuelMonotone` and `PlayoutSpecFuelMonotone`
prove that the budget never alters a result: a trace, a log or a playout that
succeeds with some budget is the same with every larger one.
`LabelledNetTerminates` and `LabelledNetGenerates` prove that without silent
transitions a budget of `max_trace_length` iterations is always enough.

## Model

| member | source | states |
|---|---|---|
| PetriNets.IsEnabled | pm4py/simulation/playout/versions/stochastic_playout.py:73 | a transition is enabled exactly when every place holds at least the weight of its input arc |
| PetriNets.EnabledAmong | pm4py/simulation/playout/versions/stochastic_playout.py:73 | the filtered list holds exactly the enabled transitions of the given list, and is no longer than it |
| PetriNets.Enabled | pm4py/simulation/playout/versions/stochastic_playout.py:71-73 | the enabled set of a marking: a transition is in it exactly when it is a transition of the net and is enabled |
| PetriNets.Fire | pm4py/simulation/playout/versions/stochastic_playout.py:90 | firing an enabled transition conserves tokens place by place: new count plus input weight equals old count plus output weight, and no place is stored with zero tokens |
| PetriNets.SameMarking | pm4py/simulation/playout/versions/stochastic_playout.py:74 | two markings are equal exactly when every place holds the same count in both |
| EventLogs.DigitChar | pm4py/simulation/playout/versions/stochastic_playout.py:68 | the character of a decimal digit is the one whose code lies that far above `'0'` |
| EventLogs.NatToString | pm4py/simulation/playout/versions/stochastic_playout.py:68 | a case id is a non-empty string of decimal digits that starts with `0` exactly when the index is 0 and has no leading zero when longer than one digit (so index 0 gives exactly `"0"`), as `str` writes it; with `ParseNatToString` this fixes it as the decimal numeral of the index |
| EventLogs.ParseNatToString | pm4py/simulation/playout/versions/stochastic_playout.py:68 | reading a case id back as a decimal number gives the trace index |
| EventLogs.NatToStringInjective | pm4py/simulation/playout/versions/stochastic_playout.py:66-68 | two indices get the same case id exactly when they are equal |
| EventLogs.AllEventsAppend | pm4py/simulation/playout/versions/stochastic_playout.py:91 | appending a trace to the log appends its events to the log's event sequence |
| StochasticPlayout.Cap | pm4py/simulation/playout/versions/stochastic_playout.py:66 | the number of iterations of `range(n)`: n itself, or 0 when n is negative; no contract of its own, as it is used in `PlayTraces`, `PlayoutSpecProperties` and `ApplyPlayout` |
| StochasticPlayout.Candidates | pm4py/simulation/playout/versions/stochastic_playout.py:74-77 | the candidates are exactly the enabled transitions, plus the stop option exactly when the marking is final; one candidate per enabled transition, plus one for stop |
| StochasticPlayout.Emitted | pm4py/simulation/playout/versions/stochastic_playout.py:83-89 | a fired transition emits no event exactly when it is silent, otherwise one event with its label and the current counter |
| StochasticPlayout.Step | pm4py/simulation/playout/versions/stochastic_playout.py:71-90 | an iteration never stops for length; it deadlocks exactly when nothing is enabled, keeping the state; stopping by choice happens only on the final marking and changes nothing but the draw count; firing adds at most one event |
| StochasticPlayout.StepTakes | pm4py/simulation/playout/versions/stochastic_playout.py:79-90 | when the chooser draws a transition, that transition is enabled, and the step fires it, appends its event if it is labelled, advances the counter by the events appended and keeps running |
| StochasticPlayout.StepStops | pm4py/simulation/playout/versions/stochastic_playout.py:79-82 | when the chooser draws stop, the trace ends with no new event and no firing |
| StochasticPlayout.StepFires | pm4py/simulation/playout/versions/stochastic_playout.py:79-90 | a step that keeps running appended the emission of some transition of the net |
| StochasticPlayout.StepExtends | pm4py/simulation/playout/versions/stochastic_playout.py:83-90 | a step keeps the events so far, adds at most one, stamps new events with consecutive counter values, uses only labels of the net, and advances the counter past exactly the new events |
| StochasticPlayout.EmitExtends | pm4py/simulation/playout/versions/stochastic_playout.py:83-89 | appending the emission of a transition of the net extends the trace as above |
| StochasticPlayout.ExtendsTransitive | pm4py/simulation/playout/versions/stochastic_playout.py:70-90 | extending a trace twice is extending it once |
| StochasticPlayout.RunTraceHalts | pm4py/simulation/playout/versions/stochastic_playout.py:70-82 | below the cap and with budget left, a step that deadlocks or stops ends the inner loop with that step's state |
| StochasticPlayout.RunTraceAdvance | pm4py/simulation/playout/versions/stochastic_playout.py:70-90 | below the cap, a step that fires continues the inner loop from the new state with one iteration less |
| StochasticPlayout.RunTrace | pm4py/simulation/playout/versions/stochastic_playout.py:69-90 | the inner `while` of one trace, with a budget of iterations; no contract of its own: `RunTraceHalts`, `RunTraceAdvance`, `RunTraceOutcome`, `LabelledNetTerminates` and `RunTraceFuelMonotone` state its properties, and `PlayTrace` is proved equal to it |
| StochasticPlayout.RunTraceFuelMonotone | pm4py/simulation/playout/versions/stochastic_playout.py:69-90 | a trace that finishes within a budget finishes the same way, with the same state, under every larger budget, so the budget never alters a finished trace |
| StochasticPlayout.RunTraceOutcome | pm4py/simulation/playout/versions/stochastic_playout.py:70-90 | a finished trace has stopped by length (at or over the cap), deadlock (nothing enabled) or choice (on the final marking); it extends its start, and it has at most the cap of events unless it started above it |
| StochasticPlayout.LabelledNetTerminates | pm4py/simulation/playout/versions/stochastic_playout.py:70-89 | in a net without silent transitions, a budget that covers the distance to the cap always finishes the trace |
| StochasticPlayout.Generate | pm4py/simulation/playout/versions/stochastic_playout.py:64-91 | the outer `for` over the traces, sharing the counter and the draw stream; no contract of its own: `GenerateAppends`, `GenerateWellFormed`, `GenerateStaysNone`, `LabelledNetGenerates` and `GenerateFuelMonotone` state its properties, and `PlayTraces` is proved equal to it |
| StochasticPlayout.GenerateFuelMonotone | pm4py/simulation/playout/versions/stochastic_playout.py:64-91 | a log built within a per-trace budget is built identically with every larger budget |
| StochasticPlayout.GenerateAppends | pm4py/simulation/playout/versions/stochastic_playout.py:66-91 | the next trace is run from the initial marking with the current counter and appended with case id `str(n)` |
| StochasticPlayout.GenerateWellFormed | pm4py/simulation/playout/versions/stochastic_playout.py:64-91 | after n traces the log has n traces, trace i has case id `str(i)` and at most the cap of events, every event carries a label of the net, timestamps run 10000000, 10000001, ... across the whole log, and the counter stands just past the last event |
| StochasticPlayout.AppendTraceWellFormed | pm4py/simulation/playout/versions/stochastic_playout.py:66-91 | appending a trace run from the current counter keeps the log well formed |
| StochasticPlayout.GenerateStaysNone | pm4py/simulation/playout/versions/stochastic_playout.py:66 | once a trace exhausts its budget, no longer log is built |
| StochasticPlayout.LabelledNetGenerates | pm4py/simulation/playout/versions/stochastic_playout.py:66-91 | in a net without silent transitions, a per-trace budget of the cap builds the whole log |
| StochasticPlayout.PlayoutSpec | pm4py/simulation/playout/versions/stochastic_playout.py:56-92 | `apply_playout` as a function of its inputs; no contract of its own: `PlayoutSpecProperties`, `PlayoutCaseIdsDistinct` and `PlayoutSpecFuelMonotone` state its properties, and `ApplyPlayout` is proved equal to it |
| StochasticPlayout.PlayoutSpecFuelMonotone | pm4py/simulation/playout/versions/stochastic_playout.py:56-92 | a playout that succeeds with a per-trace budget returns the same log with every larger budget |
| StochasticPlayout.PlayoutSpecProperties | pm4py/simulation/playout/versions/stochastic_playout.py:56-92 | the configuration error occurs exactly when neither a stochastic map nor a log is given; a successful playout has `no_traces` traces (none when negative), trace i has case id `str(i)` and at most `max_trace_length` events, timestamps are consecutive from 10000000 across the log, and every activity is a label of the net |
| StochasticPlayout.PlayoutCaseIdsDistinct | pm4py/simulation/playout/versions/stochastic_playout.py:66-68 | the traces of a successful playout have pairwise distinct case ids |
| StochasticPlayout.PlayStep | pm4py/simulation/playout/versions/stochastic_playout.py:71-90 | the loop body computes exactly one step of the specification |
| StochasticPlayout.PlayTrace | pm4py/simulation/playout/versions/stochastic_playout.py:69-90 | the inner loop ends exactly as the specified run does, including running out of budget |
| StochasticPlayout.PlayTraces | pm4py/simulation/playout/versions/stochastic_playout.py:64-91 | the outer loop builds exactly the specified log, sharing one counter across traces |
| StochasticPlayout.ApplyPlayout | pm4py/simulation/playout/versions/stochastic_playout.py:26-92 | the result is the specified playout: the configuration error exactly when neither a map nor a log is given; on success, `no_traces` traces with ids `str(i)`, at most `max_trace_length` events each, and strictly increasing timestamps across the log |
| StochasticPlayout.Apply | pm4py/simulation/playout/versions/stochastic_playout.py:112-125 | missing parameters default to 1000 traces of at most 1000 events; with the defaults a successful log has exactly 1000 traces, each with at most 1000 events |
| PlayoutScenarios.EnabledSingle | pm4py/simulation/playout/versions/stochastic_playout.py:73 | the enabled set of a one-transition net is that transition when it is enabled, and empty otherwise |
| PlayoutScenarios.PickSingle | pm4py/simulation/playout/versions/stochastic_playout.py:79 | a sound chooser offered one transition and no stop option draws that transition |
| PlayoutScenarios.SilentCycleDiverges | pm4py/simulation/playout/versions/stochastic_playout.py:70-90 | on a silent self-loop whose final marking is never reached, the inner loop does not finish within any budget, whatever the chooser |
| PlayoutScenarios.SilentCyclePlayoutFails | pm4py/simulation/playout/versions/stochastic_playout.py:66-90 | the whole playout on the silent self-loop therefore never delivers a log |
| PlayoutScenarios.HandoffTrace | pm4py/simulation/playout/versions/stochastic_playout.py:71-90 | on the net `p0 -A-> p1`, a trace fires A once, reaches the final marking, and then ends by deadlock, because nothing is enabled and the stop option is never offered |
| PlayoutScenarios.HandoffTraceCapped | pm4py/simulation/playout/versions/stochastic_playout.py:70-90 | on that net with a cap of one event, a trace fires A once and then ends by length |
| PlayoutScenarios.HandoffLog | pm4py/simulation/playout/versions/stochastic_playout.py:64-91 | on that net, with any positive cap, trace i has case id `str(i)` and the single event A at 10000000 + i |
| PlayoutScenarios.HandoffPlayout | pm4py/simulation/playout/versions/stochastic_playout.py:56-92 | on that net, with any positive `max_trace_length`, the playout succeeds with `no_traces` traces of that shape |
| PlayoutScenarios.EmptyTraces | pm4py/simulation/playout/versions/stochastic_playout.py:70-72 | with a cap that is not positive, or with nothing enabled initially, every trace is empty, with case id `str(i)`, and the counter never moves |

## Left out

- Timestamps are integer seconds. The source converts each one with `datetime.datetime.fromtimestamp`; the conversion is left out.
- The attribute keys for case id, activity and timestamp are not modelled. They only name the attributes the values are stored under.
- Weighted sampling in `pick_transition` is not modelled. It uses float weights and a random generator. The model takes an arbitrary sound chooser instead.
- `discover_final_marking` and `get_map_from_log_and_net` are not part of this model. They are opaque functions in `Collaborators`.
- The stochastic map's contents are not modelled. The map is only ever passed to the chooser.
- Each trace's inner loop is limited to `fuel` iterations (the per-trace budget). The source has no such limit. On a silent cycle that never reaches the final marking, it can loop forever when the sampler keeps drawing silent transitions. A run that exceeds the budget gives `StepBudgetExhausted` instead of not terminating.
- Candidates are offered in net order, with stop last. In the source, the order is that of a Python set, which depends on hashing. The chooser is arbitrary, so no property depends on the order.
- The source compares markings with the equality of its `Marking` class, which is not part of this model. The model compares markings place by place, with an absent place holding zero tokens. Firing never stores a zero count. So the two comparisons agree, except for a caller-supplied marking that stores an explicit zero.
- `semantics.enabled_transitions` and `semantics.execute` are not part of this model. They are modelled by the classical firing rule on maps from place to count. Firing a transition that is not enabled cannot happen with a sound chooser, so that case is excluded by a precondition.
- The source copies the initial marking before each trace. Markings here are values, so the initial marking cannot be altered, and every trace starts from it.
- `apply_playout`'s own defaults of 100 traces and 100 events are not modelled. `ApplyPlayout` takes both values explicitly. Only `apply`'s defaults of 1000 are modelled, in `Apply`.
- Raising the configuration error is modelled as returning `Failure(MissingStochasticInfo)`.
- StochasticPlayout.Candidates: states membership and length, not the order of the list.
