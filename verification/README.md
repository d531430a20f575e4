# Single-server queue simulation — Dafny model

This project models the simulation engine of a small queueing simulator
(`model.py`). One server has a finite waiting room. Arrivals ("generation"
events) either start service, wait in the room, or are rejected when the room
is full. Service completions ("processing" events) either take the next
waiting unit or let the server go idle. With the *retrial* flag
(`with_return`) the server instead samples a new service time and keeps its
waiting units. Two drivers advance the simulation:

- `run_event` jumps the clock from event to event;
- `run_dt` steps the clock by a fixed `dt` and fires the events that lie within
  `eps` = 0.0005 of the clock.

The model is functional. The engine state is an immutable record `Model`
(queue, event list, clock, busy flag, retrial flag, and how many delays have
been drawn from each source). The rules are pure functions over it, and the
drivers are methods that loop over them.

- The event list keeps the source's representation. It is a sequence sorted by
  planned time in descending order, with a stable sort. New events go in at the
  front and the next event is popped from the back.
- The random delays become a caller-supplied `Sampler`: `arrival(k)` is the
  k-th inter-arrival time and `service(k)` the k-th service time. The engine
  is therefore deterministic.

Modules:

- `sim_error.dfy` (`SimError`): the `Error`/`Result` types.
- `device_queue.dfy` (`DeviceQueues`): `DeviceQueue`.
- `events.dfy` (`Events`): events, the event list, and the delay sources.
- `model.dfy` (`Simulation`): the engine state, `reinit` and the event rules.
- `drivers.dfy` (`Drivers`): `run_event` and `run_dt`.

The capacity counts the waiting room only. The unit in service is held by the
busy flag, so with capacity 1 the third overlapping arrival is the first one
rejected, not the second (model.py:95-101, `Simulation.CapacityExcludesServer`).

## Model

| member | source | states |
|---|---|---|
| DeviceQueues.New | model.py:8-12 | construction raises `QueueError` exactly when the capacity is not positive; otherwise the queue is empty, has that capacity and satisfies `0 <= count <= capacity` |
| DeviceQueues.IsFull | model.py:14-15 | on a queue within bounds, full exactly when one more unit would exceed the capacity |
| DeviceQueues.IsEmpty | model.py:17-18 | on a queue within bounds, empty exactly when one unit fewer would go below zero; a queue within bounds is never both empty and full |
| DeviceQueues.Clear | model.py:20-21 | the count becomes 0 and the capacity is kept, so the queue is within bounds and not full |
| DeviceQueues.Enqueue | model.py:23-26 | raises exactly when the queue is full; otherwise one more unit, same capacity, bounds preserved, and the queue is no longer empty |
| DeviceQueues.Dequeue | model.py:28-31 | raises exactly when the queue is empty; otherwise one unit fewer, same capacity, bounds preserved, and the queue is no longer full |
| DeviceQueues.EnqueueThenDequeue | model.py:23-31 | on a queue that is not full, enqueue then dequeue succeeds and returns the original queue |
| DeviceQueues.DequeueThenEnqueue | model.py:23-31 | on a queue that is not empty, dequeue then enqueue succeeds and returns the original queue |
| Events.GenerateEvent | model.py:61-62 | an arrival event whose distance from the model time is the drawn inter-arrival delay, so it is never planned before the model time when the delay is non-negative |
| Events.ProcessEvent | model.py:72-73 | a completion event whose distance from the model time is the drawn service time, so it is never planned before the model time when the delay is non-negative |
| Events.Sort | model.py:163 | the sorted list is in descending planned-time order, is a permutation of its input, and has the same number of arrivals and of completions |
| Events.SortIsStable | model.py:141 | for every planned time, the events planned at it appear in the sorted list in the same relative order as in the input; so of two simultaneous events the one nearer the back is popped first, as Python's stable sort does |
| Events.InsertIsSort | model.py:171-172 | on a descending list, the single insertion the model uses is the same list as inserting at the front and re-sorting the whole list |
| Events.SortOfSorted | model.py:168 | re-sorting a list that is already in descending order leaves it unchanged |
| Events.Insert | model.py:171-172 | putting an event at the front of a descending list and re-sorting keeps the list descending, adds exactly that event to the multiset of events, and adds one to the count of its kind |
| Events.PositionSplits | model.py:171-172 | the insertion point lies after every event planned strictly later and before every event planned no later, so among equal times the older event is popped first |
| Events.Pop | model.py:165 | `pop()` splits off the last element; on a descending list it is an event with the earliest planned time, and the rest stays sorted |
| Simulation.New | model.py:78-85 | construction fails exactly when the queue capacity is not positive; otherwise the state is empty, the clock is 0, the server is idle, and the retrial flag is recorded |
| Simulation.Reinit | model.py:87-91 | the queue is empty with the same capacity, there are no events, the clock is 0 and the server is idle; the configuration and the position in the delay streams are kept |
| Simulation.ReinitForgetsRun | model.py:87-91 | two engines with the same configuration and the same stream position are equal after `reinit`, whatever their previous runs did |
| Simulation.HandleGeneration | model.py:93-102 | never raises. It always schedules exactly one next arrival at `clock + delay`. It returns False exactly when the queue is full, and then nothing else changes. A busy server enqueues and schedules no completion. An idle server becomes busy and gets one completion, and the queue is untouched. Queue bounds and "units wait only while busy" are preserved |
| Simulation.HandleProcessing | model.py:104-112 | never raises. Empty queue with retrial: one completion is scheduled and the busy flag is kept. Empty queue without retrial: the server goes idle and nothing is scheduled. Non-empty queue: one completion is scheduled, and a unit is dequeued only without retrial. The invariant is preserved |
| Simulation.HandleEvent | model.py:114-123 | dispatches to the rule for the event's kind. An accepted arrival leaves `(processed, rejected)` unchanged, a rejected arrival increments both, and a completion increments only `processed` |
| Simulation.HandleEventConserves | model.py:116-123 | `processed - rejected` grows by exactly one per completion and by zero per arrival, neither counter decreases, and `rejected <= processed` is kept |
| Simulation.CapacityExcludesServer | model.py:93-102 | with capacity 1 and the server kept busy, the first arrival starts service, the second waits and the third is rejected |
| Drivers.Fire | model.py:140-141 | the popped event is handled: counters and every field other than the event list are those `handle_event` produces, and the list is a descending rearrangement of the one it leaves in which the events planned at any one time keep their relative order, as Python's stable sort keeps them; the clock and the configuration are unchanged |
| Drivers.Start | model.py:158-163 | a run starts from `reinit` with exactly one arrival, drawn at time 0, and with both counters at 0. The delay streams are not rewound: the arrival stream advances by one draw and the service stream is where the previous run left it |
| Drivers.FireKeepsSchedule | model.py:93-123 | popping and handling an event keeps exactly one pending arrival, and exactly one pending completion iff the server is busy. With non-negative delays no new event is planned before the clock |
| Drivers.EventStep | model.py:164-174 | one `run_event` iteration fails only on an empty list or with `PastEvent`, which happens exactly when the earliest event is before the clock. The clock never decreases, and it stays put exactly when the earliest event is planned at it; then that event is handled as `Drivers.Fire` states. When the clock changes, it is set to the earliest planned time, the same events remain, events planned at the same time keep the order they had with the popped event put back at the front, and every other field and both counters are unchanged. At most one unit is resolved per step, and the list stays sorted |
| Drivers.EventStepKeepsSchedule | model.py:164-172 | whatever the delays, a step keeps the schedule shape, so the list `run_event` pops from is never empty |
| Drivers.EventStepKeepsInv | model.py:164-174 | with non-negative delays every step succeeds (the `assert 0` branch is unreachable) and keeps the full run invariant: schedule shape, no event before the clock, `rejected <= processed`, clock >= 0 |
| Drivers.RunEvent | model.py:157-175 | the loop computes exactly the run `Drivers.EventRun` gives from `Drivers.Start`. On return `processed` equals `to_process` exactly (0 for a non-positive target), since the loop stops as soon as it is reached, so `rejected <= processed <= to_process`; the schedule shape holds and the clock is >= 0. It never fails with a queue error or an empty list. With non-negative delays it can fail only by running out of its iteration bound |
| Drivers.EventRun | model.py:164-174 | the recursive definition of the `run_event` loop: a successful run ends with at least `to_process` units resolved, exactly the target when it starts below it. The clock never goes back and the configuration is kept. The schedule shape is kept, and failure is only `PastEvent` or the bound. With non-negative delays the full invariant is kept and only the bound can fail |
| Drivers.EventRunUnfold | model.py:164-174 | one loop turn seen from the run: with the bound used up the run fails with `OutOfFuel`, a failing step fails the run with that error, and otherwise the run continues from the state after the step |
| Drivers.Classify | model.py:139-152 | the three branches of the inner loop of `run_dt`. An event within `eps` is handled (as `Drivers.Fire` states), and the step ends exactly when the target is reached. An event further back is discarded and nothing else changes. A later event is put back and ends the step, with counters, the other fields and the multiset of events unchanged, and with events planned at the same time in the order they had with it put back at the front. `processed` grows by at most one |
| Drivers.PutBack | model.py:149-151 | putting an event back at the front and re-sorting keeps the multiset of events and the order of simultaneous events, and keeps every event at or after a bound that the event and the rest respect |
| Drivers.Refill | model.py:137-138 | the `IndexError` handler puts one fresh arrival, planned one inter-arrival delay after the clock, at the front of the list; it adds one arrival to the count, advances the arrival stream by one draw and changes nothing else |
| Drivers.DtPop | model.py:134-152 | one pass at a fixed clock never decreases `processed` and raises it by at most one, so a pass that does not end the step leaves it below the target. On an empty list it schedules a fresh arrival and classifies that arrival. It counts a completion only for a completion event taken from the list, and it keeps queue bounds, sortedness and `rejected <= processed` |
| Drivers.DtPopCases | model.py:139-152 | on a non-empty list the earliest event is classified against the window `(clock - eps, clock + eps)`: inside it, it is handled; behind it, it is dropped and nothing else changes; ahead of it, it is put back with ties kept in order, nothing else changes and every pending event is at or after `clock + eps` |
| Drivers.DtPopAsWritten | model.py:134-152 | the source's pass agrees with `Drivers.DtPop` on a non-empty list; on an empty list it examines the event of the previous pass instead of the fresh arrival, and handles it again when it lies in the window |
| Drivers.Drain | model.py:134-152 | the inner loop leaves the clock unchanged, keeps the invariant and never takes `processed` past the target. It ends with the target reached or with no pending event inside or behind the tolerance window. Every event planned at or after the end of the window is still pending afterwards, and a completion due at the clock when the loop starts is counted |
| Drivers.DrainUnfold | model.py:134-152 | every pass of the inner loop is one `Drivers.DtPop`: a pass that ends the step ends the loop with its state, any other pass hands over to the rest of the loop, and running out of passes fails with `OutOfFuel` |
| Drivers.DtPopKeepsLater | model.py:139-152 | a pass loses no event planned at or after the end of the tolerance window: only the event it takes can leave the list, and an event ahead of the window is put back |
| Drivers.DtPopFiresCompletion | model.py:139-140 | a pass whose earliest event is a completion inside the window counts exactly one more resolved unit |
| Drivers.DtPopStops | model.py:142-152 | from a state satisfying the `run_dt` invariant, a pass ends the step only with the target reached, or after putting back an event ahead of the window so that nothing pending lies inside the window or behind it |
| Drivers.Tick | model.py:133-154 | one outer iteration of `run_dt` advances the clock by exactly `dt` after draining, without taking `processed` past the target, and keeps pending every event planned at or after the end of the window |
| Drivers.TickDrains | model.py:133-154 | a step fails exactly when its drain does; otherwise it keeps the drained queue, events, server state and counters |
| Drivers.DtTicks | model.py:133-155 | the recursive definition of `run_dt`'s outer loop: it takes at most the given number of ticks, fails only with `OutOfFuel`, and a successful run ends with at least `to_process` units resolved, exactly the target when it starts below it, keeping the configuration and the `run_dt` invariant |
| Drivers.RunDt | model.py:127-155 | the loop computes exactly the result and tick count `Drivers.DtTicks` gives from `Drivers.Start`. On return `processed` equals `to_process` exactly (0 for a non-positive target), so `rejected <= to_process`; queue bounds, sortedness and `rejected <= processed` hold, and the clock is the sum of `ticks` steps of `dt`. Its only failure is the iteration bound |
| Drivers.ElapsedIsProduct | model.py:154 | adding `dt` to the clock `k` times starting from 0 gives `k * dt` |
| Drivers.StaleEventCountedTwice | model.py:136-140 | in the as-written inner loop, a completion fired from the last entry of the list is fired again on the next pass, after the `IndexError` refill. The corrected pass counts it once. Both hold for every sampler |
| Drivers.StaleScenarioReached | model.py:127-154 | with capacity 1, no retrial, `dt` = 1, `to_process` = 3, arrival delays 0 and 0.5 and first service time 2, two steps of `run_dt` from the start reach the clock-2 state that `Drivers.StaleEventCountedTwice` starts from |

## Findings

| source | as written | input that shows it | evidently intended | confidence | as-written member | corrected member |
|---|---|---|---|---|---|---|
| model.py:136-140 | when `pop()` raises `IndexError`, the handler schedules a fresh arrival, but the loop goes on to classify `ev`. That is still the event from the previous pass, so an event already handled is handled again | capacity 1, no retrial, `dt` = 1, `to_process` = 3, arrival delays 0, 0.5, 5, first service time 2. The arrival planned at 0.5 is discarded as a timeout at clock 1. At clock 2 the completion fires, the list is empty, and the same completion fires a second time: `processed` goes 0 → 1 → 2 for one completion | after the refill, take the freshly scheduled arrival as the next event | not executed; high: `Drivers.StaleScenarioReached` proves that the run reaches the clock-2 state, and `Drivers.StaleEventCountedTwice` proves the two passes from it | Drivers.DtPopAsWritten | Drivers.DtPop |

## Left out

- The random draws `-E·ln(1-U)` (model.py:59) and `uniform(E-h, E+h)` (model.py:70) are left out. They are floating-point library randomness. They are replaced by the `Sampler` delays, and the constructor parameters `gen_expected_value`, `process_expected_value` and `process_halfrange` only shape those draws, so they do not appear.
- Floating point is not modelled. Times are exact reals, so the exact comparison `==` of model.py:166 and the `fabs(...) < eps` test of model.py:139 are evaluated without rounding.
- The drivers have no termination bound. The source loops until `to_process` units are resolved, which may never happen. The model takes an iteration bound `fuel` and reports `OutOfFuel` when it is used up; runs longer than that bound are not modelled.
- `print` logging (model.py:115, model.py:147) is output only and is not modelled. There is no event log.
- The `isinstance(capacity, int)` check (model.py:9): the capacity is a Dafny `int`, so non-integer capacities cannot be expressed.
- The `else: assert 0` of `handle_event` (model.py:124-125) cannot occur: `Event` has only the two kinds.
- The `IndexError` refill of `run_dt` (model.py:137-138) is modelled as written only in `Drivers.DtPopAsWritten`. The drivers use the corrected pass (see Findings).
- `mainwindow.py` is left out. It is the PyQt user interface. Its call of `Model` with six arguments and its unpacking of three results do not match the engine's signatures.
- No statistical agreement between `run_event` and `run_dt` is claimed. That property is probabilistic.
- Drivers.RunEvent: its own contract states only that the final clock is >= 0. Monotonicity of the clock is stated step by step in `Drivers.EventStep` and for the whole run in `Drivers.EventRun`.
- Drivers.DtTicks: does not state the final clock. `Drivers.RunDt` states it, as `Elapsed(ticks, dt)` for the returned tick count.
