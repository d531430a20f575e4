/** The two driving algorithms: next-event (`run_event`) and fixed step (`run_dt`). */
module Drivers {
  import opened SimError
  import opened DeviceQueues
  import opened Events
  import opened Simulation

  /** `Model.eps`: an event within this distance of the clock fires in `run_dt`. */
  const Eps: real := 0.0005

  /** The value `processed` ends at: the loops stop as soon as `to_process`
      units are resolved, and a run for a target of 0 or less does nothing. */
  function Target(toProcess: int): nat {
    if toProcess < 0 then 0 else toProcess
  }

  /** A count that has reached the target without overshooting it is the target. */
  lemma TargetReached(processed: nat, toProcess: int)
    requires processed >= toProcess && processed <= Target(toProcess)
    ensures processed == Target(toProcess)
  {
  }

  /** The driver's loop state: the engine and the two counters it returns. */
  datatype Sim = Sim(model: Model, processed: nat, rejected: nat)

  function Abs(x: real): real {
    if x < 0.0 then -x else x
  }

  /** `r` is `s` after `ev`, taken off the list with `rest` left, has been
      handled: the counters and every field but the event list are what
      `HandleEvent` gives, and the list is the list it gives re-sorted the way
      Python's stable sort does it: descending, the same events, and the same
      order among simultaneous ones. */
  ghost predicate Handled(s: Sim, smp: Sampler, ev: Event, rest: seq<Event>, r: Sim) {
    var (m', p, j) := HandleEvent(s.model.(events := rest), smp, ev, s.processed, s.rejected);
    && r.processed == p && r.rejected == j
    && r.model.(events := []) == m'.(events := [])
    && multiset(r.model.events) == multiset(m'.events)
    && SortedDesc(r.model.events)
    && SameTies(r.model.events, m'.events)
  }

  /** `handle_event` on an event just popped (the rest of the list is `rest`),
      followed by the re-sort both drivers do after it. */
  function Fire(s: Sim, smp: Sampler, ev: Event, rest: seq<Event>): (r: Sim)
    ensures Handled(s, smp, ev, rest, r)
    ensures r.model.clock == s.model.clock && SameSetup(s.model, r.model)
    ensures SortedDesc(r.model.events)
    ensures Inv(s.model) ==> Inv(r.model)
  {
    var (m', p, j) := HandleEvent(s.model.(events := rest), smp, ev, s.processed, s.rejected);
    SortKeepsTies(m'.events);
    Sim(m'.(events := Sort(m'.events)), p, j)
  }

  /** The first event of a run: one arrival, drawn at time 0 after `reinit`. */
  function Start(m: Model, smp: Sampler): (s: Sim)
    ensures s.model.events == [Generation(smp.arrival(m.arrivals))]
    ensures s.processed == 0 && s.rejected == 0 && s.model.clock == 0.0 && !s.model.busy
    ensures IsEmpty(s.model.queue) && s.model.queue.capacity == m.queue.capacity
    ensures s.model.withReturn == m.withReturn
    // the delay streams are not rewound: the run continues where the last one stopped
    ensures s.model.arrivals == m.arrivals + 1 && s.model.services == m.services
  {
    var m0 := Reinit(m);
    Sim(m0.(events := [GenerateEvent(smp, m0.arrivals, m0.clock)] + m0.events,
            arrivals := m0.arrivals + 1), 0, 0)
  }

  /** The event list holds exactly one arrival, and one completion exactly
      when the server is busy. */
  predicate Scheduled(m: Model) {
    && Inv(m)
    && SortedDesc(m.events)
    && Count(m.events, true) == 1
    && Count(m.events, false) == (if m.busy then 1 else 0)
  }

  /** What every state of `run_event` satisfies when all delays are non-negative. */
  predicate EventInv(s: Sim) {
    && Scheduled(s.model)
    && NotBefore(s.model.events, s.model.clock)
    && s.rejected <= s.processed
    && s.model.clock >= 0.0
  }

  /** Popping an event and handling it keeps the schedule shape: the arrival
      rule replaces the arrival it consumed and starts a completion only for an
      idle server; the completion rule replaces its completion exactly when the
      server stays busy.  All new events are planned at or after the clock. */
  lemma FireKeepsSchedule(s: Sim, smp: Sampler, ev: Event, rest: seq<Event>)
    requires Scheduled(s.model) && s.model.events == rest + [ev]
    ensures Scheduled(Fire(s, smp, ev, rest).model)
    ensures Fire(s, smp, ev, rest).model.clock == s.model.clock
    ensures NonNegative(smp) && NotBefore(rest, s.model.clock) ==>
              NotBefore(Fire(s, smp, ev, rest).model.events, s.model.clock)
  {
    var m0 := s.model.(events := rest);
    var (m', p, j) := HandleEvent(m0, smp, ev, s.processed, s.rejected);
    HandledCounts(s.model, smp, ev, rest);
    if NonNegative(smp) && NotBefore(rest, s.model.clock) {
      HandledNotBefore(m0, smp, ev);
      SortNotBefore(m'.events, s.model.clock);
    }
  }

  lemma PopCounts(events: seq<Event>, ev: Event, rest: seq<Event>, gen: bool)
    requires events == rest + [ev]
    ensures Count(rest, gen) + (if ev.Generation? == gen then 1 else 0) == Count(events, gen)
  {
    CountConcat(rest, [ev], gen);
    CountCons(ev, [], gen);
  }

  /** The counting half of `FireKeepsSchedule`, before the re-sort. */
  lemma HandledCounts(m: Model, smp: Sampler, ev: Event, rest: seq<Event>)
    requires Scheduled(m) && m.events == rest + [ev]
    ensures var m' := HandleEvent(m.(events := rest), smp, ev, 0, 0).0;
      && Inv(m')
      && Count(m'.events, true) == 1
      && Count(m'.events, false) == (if m'.busy then 1 else 0)
  {
    var m0 := m.(events := rest);
    var m' := HandleEvent(m0, smp, ev, 0, 0).0;
    PopCounts(m.events, ev, rest, true);
    PopCounts(m.events, ev, rest, false);
    var arrival := Generation(m.clock + smp.arrival(m.arrivals));
    var completion := Processing(m.clock + smp.service(m.services));
    if ev.Generation? {
      CountCons(arrival, rest, true);
      CountCons(arrival, rest, false);
      if !IsFull(m.queue) && !m.busy {
        assert m'.events == [completion] + ([arrival] + rest);
        CountCons(completion, [arrival] + rest, true);
        CountCons(completion, [arrival] + rest, false);
      }
    } else {
      if !(IsEmpty(m.queue) && !m.withReturn) {
        CountCons(completion, rest, true);
        CountCons(completion, rest, false);
      }
    }
  }

  /** Handling an event at the clock schedules nothing before the clock
      when the delays are non-negative. */
  lemma HandledNotBefore(m: Model, smp: Sampler, ev: Event)
    requires NonNegative(smp) && NotBefore(m.events, m.clock)
    ensures NotBefore(HandleEvent(m, smp, ev, 0, 0).0.events, m.clock)
  {
    var arrival := Generation(m.clock + smp.arrival(m.arrivals));
    var completion := Processing(m.clock + smp.service(m.services));
    assert arrival.time >= m.clock && completion.time >= m.clock;
    assert NotBefore([arrival] + m.events, m.clock);
    assert NotBefore([completion] + m.events, m.clock);
    assert NotBefore([completion, arrival] + m.events, m.clock);
  }

  /** One iteration of `run_event`'s loop: pop the earliest event; fire it if
      it is planned at the clock, otherwise move the clock forward to it and
      put it back.  An event planned before the clock is `model.py`'s
      `assert 0`, an empty list its `IndexError`. */
  function EventStep(s: Sim, smp: Sampler): (r: Result<Sim>)
    ensures r.Err? ==> r.error == EmptySchedule || r.error == PastEvent
    ensures r == Err(EmptySchedule) <==> |s.model.events| == 0
    ensures r == Err(PastEvent) <==> |s.model.events| > 0 && Pop(s.model.events).0.time < s.model.clock
    // the clock never goes back, and moves only to the planned time of the earliest event
    ensures r.Ok? ==> r.value.model.clock >= s.model.clock
    ensures r.Ok? ==> (r.value.model.clock == s.model.clock <==> Pop(s.model.events).0.time == s.model.clock)
    // at the clock: the earliest event is handled
    ensures r.Ok? && r.value.model.clock == s.model.clock ==>
              Handled(s, smp, Pop(s.model.events).0, Pop(s.model.events).1, r.value)
    // ahead of the clock: only the clock moves, and the same events remain
    ensures r.Ok? && r.value.model.clock != s.model.clock ==>
              && r.value.model.clock == Pop(s.model.events).0.time
              && multiset(r.value.model.events) == multiset(s.model.events)
              && SameTies(r.value.model.events, [Pop(s.model.events).0] + Pop(s.model.events).1)
              && r.value.model.(events := [], clock := 0.0) == s.model.(events := [], clock := 0.0)
              && r.value.processed == s.processed && r.value.rejected == s.rejected
    ensures r.Ok? ==> r.value.processed <= s.processed + 1
    ensures r.Ok? ==> SameSetup(s.model, r.value.model)
    ensures r.Ok? ==> SortedDesc(r.value.model.events)
    ensures r.Ok? && Inv(s.model) ==> Inv(r.value.model)
    ensures r.Ok? && s.rejected <= s.processed ==> r.value.rejected <= r.value.processed
  {
    var m := s.model;
    if |m.events| == 0 then Err(EmptySchedule)
    else
      var (ev, rest) := Pop(m.events);
      if ev.time == m.clock then
        HandleEventConserves(m.(events := rest), smp, ev, s.processed, s.rejected);
        Ok(Fire(s, smp, ev, rest))
      else if ev.time > m.clock then
        PutBack(ev, rest, m.clock);
        Ok(s.(model := m.(clock := ev.time, events := Sort([ev] + rest))))
      else
        Err(PastEvent)
  }

  /** With non-negative delays every step of `run_event` succeeds and keeps
      the run invariant: so the `assert 0` branch and the empty-list pop are
      unreachable, and no pending event is ever planned before the clock. */
  lemma EventStepKeepsInv(s: Sim, smp: Sampler)
    requires NonNegative(smp) && EventInv(s)
    ensures EventStep(s, smp).Ok?
    ensures EventInv(EventStep(s, smp).value)
  {
    var m := s.model;
    CountPositive(m.events, true);
    var (ev, rest) := Pop(m.events);
    assert ev in m.events;
    if ev.time == m.clock {
      assert EventStep(s, smp) == Ok(Fire(s, smp, ev, rest));
      FireKeepsInv(s, smp, ev, rest);
    } else {
      assert ev.time > m.clock;
      assert EventStep(s, smp) == Ok(s.(model := m.(clock := ev.time, events := Sort([ev] + rest))));
      PushBackKeepsInv(s, ev, rest);
    }
  }

  lemma FireKeepsInv(s: Sim, smp: Sampler, ev: Event, rest: seq<Event>)
    requires NonNegative(smp) && EventInv(s) && s.model.events == rest + [ev]
    ensures EventInv(Fire(s, smp, ev, rest))
  {
    var m := s.model;
    assert NotBefore(rest, m.clock) by {
      forall i | 0 <= i < |rest| ensures rest[i].time >= m.clock {
        assert rest[i] == m.events[i];
      }
    }
    FireKeepsSchedule(s, smp, ev, rest);
    HandleEventConserves(m.(events := rest), smp, ev, s.processed, s.rejected);
  }

  lemma PushBackKeepsInv(s: Sim, ev: Event, rest: seq<Event>)
    requires EventInv(s) && s.model.events == rest + [ev]
    requires forall e :: e in s.model.events ==> ev.time <= e.time
    requires ev.time > s.model.clock
    ensures EventInv(s.(model := s.model.(clock := ev.time, events := Sort([ev] + rest))))
  {
    var m := s.model;
    var l := [ev] + rest;
    forall gen: bool ensures Count(l, gen) == Count(m.events, gen) {
      PopCounts(m.events, ev, rest, gen);
      CountCons(ev, rest, gen);
    }
    assert NotBefore(l, ev.time) by {
      forall i | 0 <= i < |l| ensures l[i].time >= ev.time {
        assert l[i] in m.events;
      }
    }
    SortNotBefore(l, ev.time);
  }

  /** Whatever the delays, a step of `run_event` keeps the shape of the
      schedule, so the list it pops from is never empty. */
  lemma EventStepKeepsSchedule(s: Sim, smp: Sampler)
    requires Scheduled(s.model)
    ensures EventStep(s, smp) != Err(EmptySchedule)
    ensures EventStep(s, smp).Ok? ==> Scheduled(EventStep(s, smp).value.model)
  {
    var m := s.model;
    CountPositive(m.events, true);
    var (ev, rest) := Pop(m.events);
    if ev.time == m.clock {
      assert EventStep(s, smp) == Ok(Fire(s, smp, ev, rest));
      FireKeepsSchedule(s, smp, ev, rest);
    } else if ev.time > m.clock {
      assert EventStep(s, smp) == Ok(s.(model := m.(clock := ev.time, events := Sort([ev] + rest))));
      PushBackKeepsSchedule(m, ev, rest);
    } else {
      assert EventStep(s, smp) == Err(PastEvent);
    }
  }

  lemma PushBackKeepsSchedule(m: Model, ev: Event, rest: seq<Event>)
    requires Scheduled(m) && m.events == rest + [ev]
    ensures Scheduled(m.(clock := ev.time, events := Sort([ev] + rest)))
  {
    forall gen: bool ensures Count([ev] + rest, gen) == Count(m.events, gen) {
      PopCounts(m.events, ev, rest, gen);
      CountCons(ev, rest, gen);
    }
  }

  /** Both step lemmas in one, each under its own hypothesis. */
  lemma EventStepKeeps(s: Sim, smp: Sampler)
    ensures Scheduled(s.model) ==>
              && EventStep(s, smp) != Err(EmptySchedule)
              && (EventStep(s, smp).Ok? ==> Scheduled(EventStep(s, smp).value.model))
    ensures NonNegative(smp) && EventInv(s) ==>
              EventStep(s, smp).Ok? && EventInv(EventStep(s, smp).value)
  {
    if Scheduled(s.model) {
      EventStepKeepsSchedule(s, smp);
    }
    if NonNegative(smp) && EventInv(s) {
      EventStepKeepsInv(s, smp);
    }
  }

  /** `run_event`'s loop from the state `s`: repeat `EventStep` while fewer
      than `to_process` units are resolved, for at most `fuel` iterations. */
  function EventRun(s: Sim, smp: Sampler, toProcess: int, fuel: nat): (r: Result<Sim>)
    decreases fuel
    ensures r.Ok? ==> r.value.processed >= toProcess
    ensures r.Ok? && s.processed <= Target(toProcess) ==> r.value.processed == Target(toProcess)
    ensures r.Ok? ==> r.value.model.clock >= s.model.clock && SameSetup(s.model, r.value.model)
    ensures r.Ok? && s.rejected <= s.processed ==> r.value.rejected <= r.value.processed
    ensures Scheduled(s.model) ==>
              && (r.Ok? ==> Scheduled(r.value.model))
              && (r.Err? ==> r.error == PastEvent || r.error == OutOfFuel)
    ensures NonNegative(smp) && EventInv(s) ==>
              && (r.Ok? ==> EventInv(r.value))
              && (r.Err? ==> r.error == OutOfFuel)
  {
    if s.processed >= toProcess then Ok(s)
    else if fuel == 0 then Err(OutOfFuel)
    else
      EventStepKeeps(s, smp);
      match EventStep(s, smp)
      case Err(e) => Err(e)
      case Ok(s') => EventRun(s', smp, toProcess, fuel - 1)
  }

  /** `run_event`: the next-event driver.  Starts from `reinit` and one
      arrival and repeats `EventStep` until `to_process` units are resolved.
      `model.py` loops until then with no bound; `fuel` caps the number of
      iterations here. */
  method RunEvent(m: Model, smp: Sampler, toProcess: int, fuel: nat) returns (r: Result<Sim>)
    requires m.queue.capacity > 0
    // the loop computes exactly the run `EventRun` describes
    ensures r == EventRun(Start(m, smp), smp, toProcess, fuel)
    // the loop stops as soon as the target is reached, so it is met exactly
    ensures r.Ok? ==> r.value.processed == Target(toProcess)
    ensures r.Ok? ==> r.value.rejected <= r.value.processed
    ensures r.Ok? ==> Scheduled(r.value.model) && r.value.model.clock >= 0.0
    ensures r.Ok? ==> r.value.model.withReturn == m.withReturn && r.value.model.queue.capacity == m.queue.capacity
    ensures r.Err? ==> r.error == PastEvent || r.error == OutOfFuel
    ensures NonNegative(smp) ==> r.Ok? || r.error == OutOfFuel
    ensures NonNegative(smp) && r.Ok? ==> EventInv(r.value)
  {
    var s := Start(m, smp);
    StartKeeps(m, smp);
    var steps := 0;
    while s.processed < toProcess
      invariant EventRunFrom(Start(m, smp), s, steps, smp, toProcess, fuel)
      decreases fuel - steps
    {
      EventRunUnfold(Start(m, smp), s, steps, smp, toProcess, fuel);
      if steps == fuel {
        return Err(OutOfFuel);
      }
      var next := EventStep(s, smp);
      if next.Err? {
        return Err(next.error);
      }
      s := next.value;
      steps := steps + 1;
    }
    EventRunDone(Start(m, smp), s, steps, smp, toProcess, fuel);
    r := Ok(s);
  }

  /** The state `run_event` starts from keeps the schedule, and the full
      invariant when no delay is negative. */
  lemma StartKeeps(m: Model, smp: Sampler)
    requires m.queue.capacity > 0
    ensures Scheduled(Start(m, smp).model)
    ensures NonNegative(smp) ==> EventInv(Start(m, smp))
  {
    var s := Start(m, smp);
    CountCons(s.model.events[0], [], true);
    CountCons(s.model.events[0], [], false);
  }

  /** The run from `s0` is `steps` steps followed by the run from `s`. */
  predicate EventRunFrom(s0: Sim, s: Sim, steps: nat, smp: Sampler, toProcess: int, fuel: nat) {
    && steps <= fuel
    && EventRun(s0, smp, toProcess, fuel) == EventRun(s, smp, toProcess, fuel - steps)
  }

  /** One turn of the loop of `RunEvent`, seen from `EventRun`: out of steps
      it fails with `OutOfFuel`, a failing `EventStep` fails the run, and
      otherwise the run continues from the state after the step. */
  lemma EventRunUnfold(s0: Sim, s: Sim, steps: nat, smp: Sampler, toProcess: int, fuel: nat)
    requires EventRunFrom(s0, s, steps, smp, toProcess, fuel) && s.processed < toProcess
    ensures steps == fuel ==> EventRun(s0, smp, toProcess, fuel) == Err(OutOfFuel)
    ensures steps < fuel && EventStep(s, smp).Err? ==>
              EventRun(s0, smp, toProcess, fuel) == Err(EventStep(s, smp).error)
    ensures steps < fuel && EventStep(s, smp).Ok? ==>
              EventRunFrom(s0, EventStep(s, smp).value, steps + 1, smp, toProcess, fuel)
  {
  }

  lemma EventRunDone(s0: Sim, s: Sim, steps: nat, smp: Sampler, toProcess: int, fuel: nat)
    requires EventRunFrom(s0, s, steps, smp, toProcess, fuel) && s.processed >= toProcess
    ensures EventRun(s0, smp, toProcess, fuel) == Ok(s)
  {
  }

  /** Capacity and retrial flag are fixed for the whole run. */
  predicate SameSetup(m: Model, m': Model) {
    m'.withReturn == m.withReturn && m'.queue.capacity == m.queue.capacity
  }

  /** What every state of `run_dt` satisfies, whatever the delays. */
  predicate DtInv(s: Sim) {
    Inv(s.model) && SortedDesc(s.model.events) && s.rejected <= s.processed
  }

  /** The body of `run_dt`'s inner loop once an event `ev` has been taken,
      `rest` being what is left of the list.  It
      - fires `ev` when it lies within `Eps` of the clock, ending the step
        once `to_process` units are resolved;
      - drops it when it lies further back ("timeout");
      - otherwise puts it back and ends the step.
      The flag returned says whether the step ends. */
  function Classify(s: Sim, smp: Sampler, toProcess: int, ev: Event, rest: seq<Event>): (r: (Sim, bool))
    ensures r.0.model.clock == s.model.clock && SameSetup(s.model, r.0.model)
    ensures var (s', stop) := r;
      && (Abs(ev.time - s.model.clock) < Eps ==>
            && Handled(s, smp, ev, rest, s')
            && (stop <==> s'.processed >= toProcess)
            && (ev.Processing? ==> s'.processed == s.processed + 1 && s'.rejected == s.rejected)
            && (ev.Generation? ==> s'.processed - s'.rejected == s.processed - s.rejected))
      && (ev.time <= s.model.clock - Eps ==>
            && !stop && s'.model.events == rest && s'.model.(events := []) == s.model.(events := [])
            && s'.processed == s.processed && s'.rejected == s.rejected)
      && (ev.time >= s.model.clock + Eps ==>
            && stop && multiset(s'.model.events) == multiset(rest + [ev])
            && SameTies(s'.model.events, [ev] + rest)
            && s'.model.(events := []) == s.model.(events := [])
            && s'.processed == s.processed && s'.rejected == s.rejected
            && (NotBefore(rest, s.model.clock + Eps) ==> NotBefore(s'.model.events, s.model.clock + Eps)))
    ensures r.0.processed >= s.processed
    ensures r.0.processed <= s.processed + 1
    ensures !r.1 && s.processed < toProcess ==> r.0.processed < toProcess
    ensures r.0.processed - r.0.rejected <= s.processed - s.rejected + (if ev.Processing? then 1 else 0)
    ensures Inv(s.model) && SortedDesc(rest) && s.rejected <= s.processed ==> DtInv(r.0)
  {
    var m := s.model;
    if Abs(ev.time - m.clock) < Eps then
      HandleEventConserves(m.(events := rest), smp, ev, s.processed, s.rejected);
      var s' := Fire(s, smp, ev, rest);
      (s', s'.processed >= toProcess)
    else if ev.time < m.clock then
      (s.(model := m.(events := rest)), false)
    else
      PutBack(ev, rest, m.clock + Eps);
      (s.(model := m.(events := Sort([ev] + rest))), true)
  }

  /** Putting an event back and re-sorting keeps the events, their tie
      order, and a lower bound on their times. */
  lemma PutBack(ev: Event, rest: seq<Event>, t: real)
    ensures multiset(Sort([ev] + rest)) == multiset(rest + [ev])
    ensures SameTies(Sort([ev] + rest), [ev] + rest)
    ensures ev.time >= t && NotBefore(rest, t) ==> NotBefore(Sort([ev] + rest), t)
  {
    assert multiset([ev] + rest) == multiset(rest + [ev]);
    SortKeepsTies([ev] + rest);
    if ev.time >= t && NotBefore(rest, t) {
      assert NotBefore([ev] + rest, t);
      SortNotBefore([ev] + rest, t);
    }
  }

  /** `model.py`'s `IndexError` handler: schedule a fresh arrival. */
  function Refill(s: Sim, smp: Sampler): (r: Sim)
    ensures r.model.events == [Generation(s.model.clock + smp.arrival(s.model.arrivals))] + s.model.events
    ensures Count(r.model.events, true) == Count(s.model.events, true) + 1
    ensures Count(r.model.events, false) == Count(s.model.events, false)
    ensures r.model.arrivals == s.model.arrivals + 1
    ensures r.model.(events := [], arrivals := 0) == s.model.(events := [], arrivals := 0)
    ensures r.processed == s.processed && r.rejected == s.rejected
  {
    CountCons(GenerateEvent(smp, s.model.arrivals, s.model.clock), s.model.events, true);
    CountCons(GenerateEvent(smp, s.model.arrivals, s.model.clock), s.model.events, false);
    s.(model := s.model.(events := [GenerateEvent(smp, s.model.arrivals, s.model.clock)] + s.model.events,
                         arrivals := s.model.arrivals + 1))
  }

  /** One pass of `run_dt`'s inner loop: take the earliest event and
      classify it.  On an empty list a fresh arrival is scheduled first and
      that arrival is the event taken (see `DtPopAsWritten` for `model.py`'s
      version of this case). */
  function DtPop(s: Sim, smp: Sampler, toProcess: int): (r: (Sim, bool))
    ensures r.0.model.clock == s.model.clock && SameSetup(s.model, r.0.model)
    // a completion is counted only for a completion event taken from the list
    ensures r.0.processed >= s.processed
    ensures r.0.processed <= s.processed + 1
    ensures !r.1 && s.processed < toProcess ==> r.0.processed < toProcess
    ensures r.0.processed - r.0.rejected <= s.processed - s.rejected + Count(s.model.events, false)
    // on an empty list the fresh arrival is the event taken
    ensures |s.model.events| == 0 ==>
              r == Classify(Refill(s, smp), smp, toProcess, Refill(s, smp).model.events[0], [])
    ensures DtInv(s) ==> DtInv(r.0)
  {
    var s1 := if |s.model.events| == 0 then Refill(s, smp) else s;
    var (ev, rest) := Pop(s1.model.events);
    PopCounts(s1.model.events, ev, rest, false);
    PopLowerBound(s1.model.events, s.model.clock + Eps);
    Classify(s1, smp, toProcess, ev, rest)
  }

  /** The three outcomes of a pass on a non-empty list, by where the earliest
      event lies relative to the tolerance window around the clock. */
  lemma DtPopCases(s: Sim, smp: Sampler, toProcess: int)
    requires |s.model.events| > 0
    ensures
      var (s', stop) := DtPop(s, smp, toProcess);
      var (ev, rest) := Pop(s.model.events);
      && (Abs(ev.time - s.model.clock) < Eps ==>
            && Handled(s, smp, ev, rest, s')
            && (stop <==> s'.processed >= toProcess)
            && (ev.Processing? ==> s'.processed == s.processed + 1 && s'.rejected == s.rejected)
            && (ev.Generation? ==> s'.processed - s'.rejected == s.processed - s.rejected))
      && (ev.time <= s.model.clock - Eps ==>
            && !stop && s'.model.events == rest && s'.model.(events := []) == s.model.(events := [])
            && s'.processed == s.processed && s'.rejected == s.rejected)
      && (ev.time >= s.model.clock + Eps ==>
            && stop && multiset(s'.model.events) == multiset(s.model.events)
            && SameTies(s'.model.events, [ev] + rest)
            && s'.model.(events := []) == s.model.(events := [])
            && s'.processed == s.processed && s'.rejected == s.rejected
            && (SortedDesc(s.model.events) ==> NotBefore(s'.model.events, s.model.clock + Eps)))
  {
    PopLowerBound(s.model.events, s.model.clock + Eps);
  }

  /** `run_dt`'s inner loop body as written: after an `IndexError` the
      handler schedules a fresh arrival, but the code goes on to examine
      `prev`, the event taken on the previous pass, which is still bound to
      `ev`. */
  function DtPopAsWritten(s: Sim, smp: Sampler, toProcess: int, prev: Event): (r: (Sim, bool, Event))
    // on a non-empty list it is the corrected pass
    ensures |s.model.events| > 0 ==> (r.0, r.1) == DtPop(s, smp, toProcess) && r.2 == Pop(s.model.events).0
    // on an empty list the event examined is the previous one, while the
    // fresh arrival is left on the list
    ensures |s.model.events| == 0 ==> r.2 == prev
    // ... and if it lies in the window it is handled a second time
    ensures |s.model.events| == 0 && Abs(prev.time - s.model.clock) < Eps ==>
              Handled(Refill(s, smp), smp, prev, Refill(s, smp).model.events, r.0)
  {
    if |s.model.events| == 0 then
      var s1 := Refill(s, smp);
      var (s', stop) := Classify(s1, smp, toProcess, prev, s1.model.events);
      (s', stop, prev)
    else
      var (ev, rest) := Pop(s.model.events);
      var (s', stop) := Classify(s, smp, toProcess, ev, rest);
      (s', stop, ev)
  }

  /** The state `run_dt` reaches at clock 2 with capacity 1, no retrial,
      `dt` = 1 and `to_process` = 3 when the arrival delays start 0, 0.5 and
      the first service time is 2: the second arrival (planned at 0.5) was
      dropped as a timeout at clock 1, so only the completion is left
      (`StaleScenarioReached` derives it from the start of the run). */
  function StaleScenario(): Sim
  {
    Sim(Model(DeviceQueue(1, 0), [Processing(2.0)], 2.0, true, false, 2, 1), 0, 0)
  }

  /** The delays of the Findings input: arrivals after 0 and 0.5, and a
      first service time of 2. */
  predicate StaleDelays(smp: Sampler) {
    smp.arrival(0) == 0.0 && smp.arrival(1) == 0.5 && smp.service(0) == 2.0
  }

  /** A state of that run: capacity 1, no retrial, nothing waiting and
      nothing resolved yet. */
  function StaleState(events: seq<Event>, clock: real, busy: bool, arrivals: nat, services: nat): Sim {
    Sim(Model(DeviceQueue(1, 0), events, clock, busy, false, arrivals, services), 0, 0)
  }

  /** With those delays, capacity 1, no retrial, `dt` = 1 and `to_process` =
      3, two steps of `run_dt` from the start reach `StaleScenario()`.  At
      clock 0 the first arrival starts service and the arrival planned at 0.5
      goes back; at clock 1 that arrival is dropped as a timeout and the
      completion planned at 2 goes back. */
  lemma StaleScenarioReached(smp: Sampler)
    requires StaleDelays(smp)
    ensures Simulation.New(1, false).Ok?
    ensures var t1 := Tick(Start(Simulation.New(1, false).value, smp), smp, 1.0, 3, 10);
      t1.Ok? && Tick(t1.value, smp, 1.0, 3, 10) == Ok(StaleScenario())
  {
    var s0 := StaleState([Generation(0.0)], 0.0, false, 1, 0);
    assert Start(Simulation.New(1, false).value, smp) == s0;
    var s1 := StaleState([Processing(2.0), Generation(0.5)], 0.0, true, 2, 1);
    var t1 := StaleState([Processing(2.0), Generation(0.5)], 1.0, true, 2, 1);
    var s3 := StaleState([Processing(2.0)], 1.0, true, 2, 1);
    StaleDrain1(smp);
    StaleTick(s0, s1, smp);
    assert s1.(model := s1.model.(clock := s1.model.clock + 1.0)) == t1;
    StaleDrain2(smp);
    StaleTick(t1, s3, smp);
    assert s3.(model := s3.model.(clock := s3.model.clock + 1.0)) == StaleScenario();
  }

  /** Clock 0: the first pass fires the first arrival, the second puts the
      next arrival back and ends the step. */
  lemma StaleDrain1(smp: Sampler)
    requires StaleDelays(smp)
    ensures Drain(StaleState([Generation(0.0)], 0.0, false, 1, 0), smp, 3, 10)
              == Ok(StaleState([Processing(2.0), Generation(0.5)], 0.0, true, 2, 1))
  {
    var s0 := StaleState([Generation(0.0)], 0.0, false, 1, 0);
    var s1 := StaleState([Processing(2.0), Generation(0.5)], 0.0, true, 2, 1);
    StalePass1(smp);
    StalePutBackLater(smp);
    DrainUnfold(s0, smp, 3, 10);
    DrainUnfold(s1, smp, 3, 9);
  }

  /** Clock 1: the first pass drops the stale arrival, the second puts the
      completion back and ends the step. */
  lemma StaleDrain2(smp: Sampler)
    ensures Drain(StaleState([Processing(2.0), Generation(0.5)], 1.0, true, 2, 1), smp, 3, 10)
              == Ok(StaleState([Processing(2.0)], 1.0, true, 2, 1))
  {
    var t1 := StaleState([Processing(2.0), Generation(0.5)], 1.0, true, 2, 1);
    var s3 := StaleState([Processing(2.0)], 1.0, true, 2, 1);
    StaleTimeout(smp);
    StalePutBackCompletion(smp);
    DrainUnfold(t1, smp, 3, 10);
    DrainUnfold(s3, smp, 3, 9);
  }

  /** A step whose drain ends in `d` is `d` with the clock advanced by 1. */
  lemma StaleTick(s: Sim, d: Sim, smp: Sampler)
    requires Drain(s, smp, 3, 10) == Ok(d)
    ensures Tick(s, smp, 1.0, 3, 10) == Ok(d.(model := d.model.(clock := d.model.clock + 1.0)))
  {
    TickDrains(s, smp, 1.0, 3, 10);
    var t := Tick(s, smp, 1.0, 3, 10).value;
    assert t.model.clock == d.model.clock + 1.0 && t.model.withReturn == d.model.withReturn;
    assert t.model == d.model.(clock := d.model.clock + 1.0);
  }

  /** Clock 0: the first arrival is due; it starts service, which schedules
      the completion at 2 and the next arrival at 0.5. */
  lemma StalePass1(smp: Sampler)
    requires StaleDelays(smp)
    ensures DtPop(StaleState([Generation(0.0)], 0.0, false, 1, 0), smp, 3).0
              == StaleState([Processing(2.0), Generation(0.5)], 0.0, true, 2, 1)
    ensures !DtPop(StaleState([Generation(0.0)], 0.0, false, 1, 0), smp, 3).1
  {
    var s := StaleState([Generation(0.0)], 0.0, false, 1, 0);
    var ev := Generation(0.0);
    assert Pop(s.model.events) == (ev, []);
    StaleFire(smp);
    assert DtPop(s, smp, 3) == Classify(s, smp, 3, ev, []);
  }

  lemma StaleFire(smp: Sampler)
    requires StaleDelays(smp)
    ensures Fire(StaleState([Generation(0.0)], 0.0, false, 1, 0), smp, Generation(0.0), [])
              == StaleState([Processing(2.0), Generation(0.5)], 0.0, true, 2, 1)
  {
    var m0 := Model(DeviceQueue(1, 0), [], 0.0, false, false, 1, 0);
    assert StaleState([Generation(0.0)], 0.0, false, 1, 0).model.(events := []) == m0;
    StaleArrival(smp);
    var h := HandleEvent(m0, smp, Generation(0.0), 0, 0);
    SortOfSorted(h.0.events);
  }

  /** The arrival rule on the first arrival of that run. */
  lemma StaleArrival(smp: Sampler)
    requires StaleDelays(smp)
    ensures var h := HandleEvent(Model(DeviceQueue(1, 0), [], 0.0, false, false, 1, 0), smp, Generation(0.0), 0, 0);
      && h.0 == Model(DeviceQueue(1, 0), [Processing(2.0), Generation(0.5)], 0.0, true, false, 2, 1)
      && h.1 == 0 && h.2 == 0
  {
    var m0 := Model(DeviceQueue(1, 0), [], 0.0, false, false, 1, 0);
    var m' := Model(DeviceQueue(1, 0), [Processing(2.0), Generation(0.5)], 0.0, true, false, 2, 1);
    assert !IsFull(m0.queue);
    var h := HandleGeneration(m0, smp).value;
    assert h.1;
    assert h.0.events == [Processing(0.0 + smp.service(0)), Generation(0.0 + smp.arrival(1))] + [];
    assert h.0.events == m'.events;
    assert h.0 == m';
  }

  /** Clock 0: the arrival planned at 0.5 is ahead of the window and goes back. */
  lemma StalePutBackLater(smp: Sampler)
    ensures DtPop(StaleState([Processing(2.0), Generation(0.5)], 0.0, true, 2, 1), smp, 3)
              == (StaleState([Processing(2.0), Generation(0.5)], 0.0, true, 2, 1), true)
  {
    var p, g := Processing(2.0), Generation(0.5);
    assert [p, g][..1] == [p];
    assert Pop([p, g]) == (g, [p]);
    SortOfSorted([p]);
    assert Sort([g] + [p]) == Insert(g, Sort([p])) by {
      assert ([g] + [p])[1..] == [p];
    }
    assert Position(g, [p]) == 1;
    assert Insert(g, [p]) == [p, g];
  }

  /** Clock 1: the arrival planned at 0.5 is behind the window and is dropped. */
  lemma StaleTimeout(smp: Sampler)
    ensures DtPop(StaleState([Processing(2.0), Generation(0.5)], 1.0, true, 2, 1), smp, 3)
              == (StaleState([Processing(2.0)], 1.0, true, 2, 1), false)
  {
    assert [Processing(2.0), Generation(0.5)][..1] == [Processing(2.0)];
    assert Pop([Processing(2.0), Generation(0.5)]) == (Generation(0.5), [Processing(2.0)]);
  }

  /** Clock 1: the completion planned at 2 is ahead of the window and goes back. */
  lemma StalePutBackCompletion(smp: Sampler)
    ensures DtPop(StaleState([Processing(2.0)], 1.0, true, 2, 1), smp, 3)
              == (StaleState([Processing(2.0)], 1.0, true, 2, 1), true)
  {
    assert Pop([Processing(2.0)]) == (Processing(2.0), []);
    assert [Processing(2.0)] + [] == [Processing(2.0)];
    SortOfSorted([Processing(2.0)]);
  }

  /** As written, the completion planned at 2 is counted twice: the first
      pass fires it and empties the list, the second refills the list and
      fires the stale event again, although the list never held a second
      completion.  The corrected `DtPop` counts it once. */
  lemma StaleEventCountedTwice(smp: Sampler)
    ensures var (s1, stop1, ev1) := DtPopAsWritten(StaleScenario(), smp, 3, Generation(0.5));
      var (s2, stop2, _) := DtPopAsWritten(s1, smp, 3, ev1);
      && !stop1 && s1.processed == 1 && s1.model.events == []
      && s2.processed == 2 && s2.rejected == 0
      && Count(StaleScenario().model.events, false) == 1
    ensures var (s1, _) := DtPop(StaleScenario(), smp, 3);
      var (s2, _) := DtPop(s1, smp, 3);
      s1.processed == 1 && s2.processed == 1
  {
    StaleCompletionFires(smp);
    var s1 := Sim(Model(DeviceQueue(1, 0), [], 2.0, false, false, 2, 1), 1, 0);
    assert DtPop(StaleScenario(), smp, 3).0 == s1;
    StaleRefiredAsWritten(smp);
    StaleArrivalTaken(smp);
    CountCons(Processing(2.0), [], false);
  }

  /** The first pass at clock 2 fires the completion and empties the list. */
  lemma StaleCompletionFires(smp: Sampler)
    ensures var r := DtPopAsWritten(StaleScenario(), smp, 3, Generation(0.5));
      && r.0 == Sim(Model(DeviceQueue(1, 0), [], 2.0, false, false, 2, 1), 1, 0)
      && !r.1 && r.2 == Processing(2.0)
  {
    var s0 := StaleScenario();
    var ev := Processing(2.0);
    assert Pop(s0.model.events) == (ev, []);
    var m0 := s0.model.(events := []);
    assert IsEmpty(m0.queue) && !m0.withReturn;
    assert HandleProcessing(m0, smp).value == m0.(busy := false);
    assert HandleEvent(m0, smp, ev, 0, 0) == (m0.(busy := false), 1, 0);
    assert Fire(s0, smp, ev, []) == Sim(m0.(busy := false), 1, 0);
  }

  /** As written, the second pass refills the list and fires the stale
      completion again. */
  lemma StaleRefiredAsWritten(smp: Sampler)
    ensures var r := DtPopAsWritten(Sim(Model(DeviceQueue(1, 0), [], 2.0, false, false, 2, 1), 1, 0), smp, 3, Processing(2.0));
      r.0.processed == 2 && r.0.rejected == 0
  {
    var s1 := Sim(Model(DeviceQueue(1, 0), [], 2.0, false, false, 2, 1), 1, 0);
    var s1' := Refill(s1, smp);
    assert Abs(Processing(2.0).time - s1'.model.clock) < Eps;
    HandleEventConserves(s1'.model.(events := s1'.model.events), smp, Processing(2.0), 1, 0);
  }

  /** The corrected second pass takes the fresh arrival, which resolves no unit:
      the queue has room, so it is not rejected. */
  lemma StaleArrivalTaken(smp: Sampler)
    ensures DtPop(Sim(Model(DeviceQueue(1, 0), [], 2.0, false, false, 2, 1), 1, 0), smp, 3).0.processed == 1
  {
    var s1 := Sim(Model(DeviceQueue(1, 0), [], 2.0, false, false, 2, 1), 1, 0);
    var s1' := Refill(s1, smp);
    var ev := s1'.model.events[0];
    assert ev.Generation?;
    assert Pop(s1'.model.events) == (ev, []);
    assert !IsFull(s1'.model.queue);
  }

  /** On a descending list, a bound met by the event taken is met by all the rest. */
  lemma PopLowerBound(events: seq<Event>, t: real)
    requires |events| > 0
    ensures SortedDesc(events) && Pop(events).0.time >= t ==> NotBefore(Pop(events).1, t)
  {
    var (ev, rest) := Pop(events);
    if SortedDesc(events) && ev.time >= t {
      forall i | 0 <= i < |rest| ensures rest[i].time >= t {
        assert rest[i] in events;
      }
    }
  }

  /** Every event of `a` planned at or after `t` is still pending in `b`,
      as often as it was in `a`. */
  ghost predicate KeepsLater(a: seq<Event>, b: seq<Event>, t: real) {
    forall e: Event :: e.time >= t ==> multiset(a)[e] <= multiset(b)[e]
  }

  lemma KeepsLaterTrans(a: seq<Event>, b: seq<Event>, c: seq<Event>, t: real)
    requires KeepsLater(a, b, t) && KeepsLater(b, c, t)
    ensures KeepsLater(a, c, t)
  {
  }

  /** The event rules only schedule: no pending event is removed. */
  lemma HandleEventAdds(m: Model, smp: Sampler, ev: Event, processed: nat, rejected: nat)
    ensures multiset(m.events) <= multiset(HandleEvent(m, smp, ev, processed, rejected).0.events)
  {
  }

  /** A pass loses no event planned at or after the end of the tolerance
      window: only the event it takes can go, and that one lies inside the
      window or behind it, or is put back. */
  lemma DtPopKeepsLater(s: Sim, smp: Sampler, toProcess: int)
    ensures KeepsLater(s.model.events, DtPop(s, smp, toProcess).0.model.events, s.model.clock + Eps)
  {
    var t := s.model.clock + Eps;
    var s' := DtPop(s, smp, toProcess).0;
    if |s.model.events| > 0 {
      var (ev, rest) := Pop(s.model.events);
      DtPopCases(s, smp, toProcess);
      if Abs(ev.time - s.model.clock) < Eps {
        HandleEventAdds(s.model.(events := rest), smp, ev, s.processed, s.rejected);
        DropKeepsLater(s.model.events, rest, ev, s'.model.events, t);
      } else if ev.time < s.model.clock {
        DropKeepsLater(s.model.events, rest, ev, s'.model.events, t);
      }
    }
  }

  /** Removing one event planned before `t`, and keeping the others, keeps
      everything planned at or after `t`. */
  lemma DropKeepsLater(a: seq<Event>, rest: seq<Event>, ev: Event, b: seq<Event>, t: real)
    requires a == rest + [ev] && ev.time < t && multiset(rest) <= multiset(b)
    ensures KeepsLater(a, b, t)
  {
    assert multiset(a) == multiset(rest) + multiset{ev};
    forall e: Event | e.time >= t
      ensures multiset(a)[e] <= multiset(b)[e]
    {
      assert e != ev;
    }
  }

  /** The earliest pending event is a completion inside the tolerance window. */
  predicate CompletionDue(s: Sim) {
    && |s.model.events| > 0 && Pop(s.model.events).0.Processing?
    && Abs(Pop(s.model.events).0.time - s.model.clock) < Eps
  }

  /** A pass whose earliest event is a completion inside the window counts it. */
  lemma DtPopFiresCompletion(s: Sim, smp: Sampler, toProcess: int)
    ensures CompletionDue(s) ==> DtPop(s, smp, toProcess).0.processed == s.processed + 1
  {
    if |s.model.events| > 0 {
      DtPopCases(s, smp, toProcess);
    }
  }

  /** A classified event ends the step only with the target reached or, when
      it is put back, with nothing pending before the end of the window. */
  lemma ClassifyStops(s: Sim, smp: Sampler, toProcess: int, ev: Event, rest: seq<Event>)
    requires ev.time >= s.model.clock + Eps ==> NotBefore(rest, s.model.clock + Eps)
    ensures var (s', stop) := Classify(s, smp, toProcess, ev, rest);
      stop ==> s'.processed >= toProcess || NotBefore(s'.model.events, s.model.clock + Eps)
  {
  }

  /** A pass ends the step only with the target reached or with nothing
      pending inside the tolerance window or behind it. */
  lemma DtPopStops(s: Sim, smp: Sampler, toProcess: int)
    ensures var (s', stop) := DtPop(s, smp, toProcess);
      DtInv(s) && stop ==> s'.processed >= toProcess || NotBefore(s'.model.events, s.model.clock + Eps)
  {
    if DtInv(s) {
      var s1 := if |s.model.events| == 0 then Refill(s, smp) else s;
      assert SortedDesc(s1.model.events);
      var (ev, rest) := Pop(s1.model.events);
      PopLowerBound(s1.model.events, s.model.clock + Eps);
      ClassifyStops(s1, smp, toProcess, ev, rest);
      assert DtPop(s, smp, toProcess) == Classify(s1, smp, toProcess, ev, rest);
    }
  }

  /** `run_dt`'s inner `while True` loop at a fixed clock: `DtPop` until the
      step ends.  `fuel` bounds the number of passes. */
  function Drain(s: Sim, smp: Sampler, toProcess: int, fuel: nat): (r: Result<Sim>)
    decreases fuel
    ensures r.Err? ==> r.error == OutOfFuel
    ensures r.Ok? ==> r.value.model.clock == s.model.clock && SameSetup(s.model, r.value.model)
    ensures r.Ok? ==> r.value.processed >= s.processed
    // a step never overshoots the target
    ensures r.Ok? && s.processed < toProcess ==> r.value.processed <= toProcess
    ensures r.Ok? && DtInv(s) ==> DtInv(r.value)
    // the step ends with the target reached, or with nothing pending inside
    // the tolerance window or behind it
    ensures r.Ok? && DtInv(s) ==>
              r.value.processed >= toProcess || NotBefore(r.value.model.events, s.model.clock + Eps)
    // events planned after the window are left pending
    ensures r.Ok? ==> KeepsLater(s.model.events, r.value.model.events, s.model.clock + Eps)
    // a completion due at the clock is handled by the first pass
    ensures r.Ok? && CompletionDue(s) ==> r.value.processed >= s.processed + 1
  {
    if fuel == 0 then Err(OutOfFuel)
    else
      var (s', stop) := DtPop(s, smp, toProcess);
      DtPopKeepsLater(s, smp, toProcess);
      DtPopFiresCompletion(s, smp, toProcess);
      if stop then
        DtPopStops(s, smp, toProcess);
        Ok(s')
      else
        var r := Drain(s', smp, toProcess, fuel - 1);
        if r.Ok? then
          KeepsLaterTrans(s.model.events, s'.model.events, r.value.model.events, s.model.clock + Eps);
          r
        else r
  }

  /** Each pass of the inner loop is `DtPop`: a pass that ends the step ends
      the drain with its state, any other pass hands over to the rest of the
      drain, and the passes are bounded by `fuel`. */
  lemma DrainUnfold(s: Sim, smp: Sampler, toProcess: int, fuel: nat)
    ensures fuel == 0 ==> Drain(s, smp, toProcess, fuel) == Err(OutOfFuel)
    ensures fuel > 0 && DtPop(s, smp, toProcess).1 ==>
              Drain(s, smp, toProcess, fuel) == Ok(DtPop(s, smp, toProcess).0)
    ensures fuel > 0 && !DtPop(s, smp, toProcess).1 ==>
              Drain(s, smp, toProcess, fuel) == Drain(DtPop(s, smp, toProcess).0, smp, toProcess, fuel - 1)
  {
  }

  /** One iteration of `run_dt`'s outer loop: drain the events due at the
      clock, then advance the clock by exactly `dt`. */
  function Tick(s: Sim, smp: Sampler, dt: real, toProcess: int, fuel: nat): (r: Result<Sim>)
    ensures r.Err? ==> r.error == OutOfFuel
    ensures r.Ok? ==> r.value.model.clock == s.model.clock + dt && SameSetup(s.model, r.value.model)
    ensures r.Ok? && s.processed < toProcess ==> s.processed <= r.value.processed <= toProcess
    ensures r.Ok? && DtInv(s) ==> DtInv(r.value)
    ensures r.Ok? && DtInv(s) ==>
              r.value.processed >= toProcess || NotBefore(r.value.model.events, s.model.clock + Eps)
    // events planned after the window are still pending after the step
    ensures r.Ok? ==> KeepsLater(s.model.events, r.value.model.events, s.model.clock + Eps)
  {
    match Drain(s, smp, toProcess, fuel)
    case Err(e) => Err(e)
    case Ok(s') => Ok(s'.(model := s'.model.(clock := s'.model.clock + dt)))
  }

  /** A step is a drain followed by the clock advance: it fails exactly when
      the drain does, and otherwise leaves the drained queue, events, server
      and counters as they are (its own contract moves the clock by `dt`). */
  lemma TickDrains(s: Sim, smp: Sampler, dt: real, toProcess: int, fuel: nat)
    ensures Tick(s, smp, dt, toProcess, fuel).Ok? <==> Drain(s, smp, toProcess, fuel).Ok?
    ensures Drain(s, smp, toProcess, fuel).Ok? ==>
              var d := Drain(s, smp, toProcess, fuel).value;
              var t := Tick(s, smp, dt, toProcess, fuel).value;
              && t.processed == d.processed && t.rejected == d.rejected
              && t.model.events == d.model.events && t.model.queue == d.model.queue
              && t.model.busy == d.model.busy
              && t.model.arrivals == d.model.arrivals && t.model.services == d.model.services
  {
  }

  /** `run_dt`'s outer loop from the state `s`: while fewer than `to_process`
      units are resolved, `Tick`, for at most `left` more steps.  Returns the
      outcome and the number of steps that completed. */
  function DtTicks(s: Sim, smp: Sampler, dt: real, toProcess: int, fuel: nat, left: nat)
    : (r: (Result<Sim>, nat))
    decreases left
    ensures r.1 <= left
    ensures r.0.Err? ==> r.0.error == OutOfFuel
    ensures r.0.Ok? ==> r.0.value.processed >= toProcess
    ensures r.0.Ok? && s.processed <= Target(toProcess) ==> r.0.value.processed == Target(toProcess)
    ensures r.0.Ok? ==> SameSetup(s.model, r.0.value.model)
    ensures r.0.Ok? && DtInv(s) ==> DtInv(r.0.value)
  {
    if s.processed >= toProcess then (Ok(s), 0)
    else if left == 0 then (Err(OutOfFuel), 0)
    else
      match Tick(s, smp, dt, toProcess, fuel)
      case Err(e) => (Err(e), 0)
      case Ok(s') =>
        var rest := DtTicks(s', smp, dt, toProcess, fuel, left - 1);
        (rest.0, rest.1 + 1)
  }

  /** A step that completes hands the rest of the run to the state it reaches. */
  lemma DtTicksStep(s: Sim, smp: Sampler, dt: real, toProcess: int, fuel: nat, left: nat)
    requires s.processed < toProcess && left > 0 && Tick(s, smp, dt, toProcess, fuel).Ok?
    ensures var s' := Tick(s, smp, dt, toProcess, fuel).value;
      && DtTicks(s, smp, dt, toProcess, fuel, left).0 == DtTicks(s', smp, dt, toProcess, fuel, left - 1).0
      && DtTicks(s, smp, dt, toProcess, fuel, left).1 == DtTicks(s', smp, dt, toProcess, fuel, left - 1).1 + 1
  {
  }

  /** `run_dt`: the fixed-step driver.  Starts from `reinit` and one arrival;
      while fewer than `to_process` units are resolved, drains the events due
      at the clock and then advances the clock by exactly `dt`.  `ticks` is
      the number of steps taken; `fuel` bounds both the steps and the pops
      within one step. */
  method RunDt(m: Model, smp: Sampler, dt: real, toProcess: int, fuel: nat)
    returns (r: Result<Sim>, ticks: nat)
    requires m.queue.capacity > 0
    // the loop stops as soon as the target is reached, so it is met exactly
    ensures r.Ok? ==> r.value.processed == Target(toProcess)
    ensures r.Ok? ==> DtInv(r.value) && SameSetup(m, r.value.model)
    ensures r.Ok? ==> r.value.model.clock == Elapsed(ticks, dt)
    ensures r.Err? ==> r.error == OutOfFuel
    // the loop computes exactly the run `DtTicks` describes
    ensures r == DtTicks(Start(m, smp), smp, dt, toProcess, fuel, fuel).0
    ensures ticks == DtTicks(Start(m, smp), smp, dt, toProcess, fuel, fuel).1
  {
    var s := Start(m, smp);
    StartRun(m, smp, dt, toProcess);
    ticks := 0;
    while s.processed < toProcess
      invariant ticks <= fuel
      invariant DtRun(m, s, ticks, dt, toProcess)
      invariant DtTicksFrom(Start(m, smp), s, ticks, smp, dt, toProcess, fuel)
      decreases fuel - ticks
    {
      DtTicksUnfold(Start(m, smp), s, ticks, smp, dt, toProcess, fuel);
      if ticks == fuel {
        return Err(OutOfFuel), ticks;
      }
      TickKeepsRun(m, s, smp, dt, toProcess, fuel, ticks);
      var next := Tick(s, smp, dt, toProcess, fuel);
      if next.Err? {
        return Err(next.error), ticks;
      }
      s := next.value;
      ticks := ticks + 1;
    }
    DtTicksDone(Start(m, smp), s, ticks, smp, dt, toProcess, fuel);
    TargetReached(s.processed, toProcess);
    r := Ok(s);
  }

  /** The run from `s0` is `ticks` steps followed by the run from `s`. */
  predicate DtTicksFrom(s0: Sim, s: Sim, ticks: nat, smp: Sampler, dt: real, toProcess: int, fuel: nat) {
    && ticks <= fuel
    && DtTicks(s0, smp, dt, toProcess, fuel, fuel).0 == DtTicks(s, smp, dt, toProcess, fuel, fuel - ticks).0
    && DtTicks(s0, smp, dt, toProcess, fuel, fuel).1 == DtTicks(s, smp, dt, toProcess, fuel, fuel - ticks).1 + ticks
  }

  /** One turn of the loop of `RunDt`, seen from `DtTicks`: out of steps it
      fails with `OutOfFuel`, a failing `Tick` fails the run, and otherwise
      the run continues from the state after the `Tick`. */
  lemma DtTicksUnfold(s0: Sim, s: Sim, ticks: nat, smp: Sampler, dt: real, toProcess: int, fuel: nat)
    requires DtTicksFrom(s0, s, ticks, smp, dt, toProcess, fuel) && s.processed < toProcess
    ensures ticks == fuel ==>
              DtTicks(s0, smp, dt, toProcess, fuel, fuel).0 == Err(OutOfFuel)
              && DtTicks(s0, smp, dt, toProcess, fuel, fuel).1 == ticks
    ensures ticks < fuel && Tick(s, smp, dt, toProcess, fuel).Err? ==>
              DtTicks(s0, smp, dt, toProcess, fuel, fuel).0 == Err(Tick(s, smp, dt, toProcess, fuel).error)
              && DtTicks(s0, smp, dt, toProcess, fuel, fuel).1 == ticks
    ensures ticks < fuel && Tick(s, smp, dt, toProcess, fuel).Ok? ==>
              DtTicksFrom(s0, Tick(s, smp, dt, toProcess, fuel).value, ticks + 1, smp, dt, toProcess, fuel)
  {
    if ticks < fuel && Tick(s, smp, dt, toProcess, fuel).Ok? {
      DtTicksStep(s, smp, dt, toProcess, fuel, fuel - ticks);
    }
  }

  lemma DtTicksDone(s0: Sim, s: Sim, ticks: nat, smp: Sampler, dt: real, toProcess: int, fuel: nat)
    requires DtTicksFrom(s0, s, ticks, smp, dt, toProcess, fuel) && s.processed >= toProcess
    ensures DtTicks(s0, smp, dt, toProcess, fuel, fuel).0 == Ok(s)
    ensures DtTicks(s0, smp, dt, toProcess, fuel, fuel).1 == ticks
  {
  }

  lemma TickKeepsRun(m: Model, s: Sim, smp: Sampler, dt: real, toProcess: int, fuel: nat, ticks: nat)
    requires DtRun(m, s, ticks, dt, toProcess) && s.processed < toProcess
    ensures var r := Tick(s, smp, dt, toProcess, fuel);
      (r.Err? ==> r.error == OutOfFuel) && (r.Ok? ==> DtRun(m, r.value, ticks + 1, dt, toProcess))
  {
  }

  lemma StartRun(m: Model, smp: Sampler, dt: real, toProcess: int)
    requires m.queue.capacity > 0
    ensures DtRun(m, Start(m, smp), 0, dt, toProcess)
  {
  }

  /** The loop invariant of `run_dt` after `ticks` steps: the target has not
      been overshot. */
  predicate DtRun(m: Model, s: Sim, ticks: nat, dt: real, toProcess: int) {
    && DtInv(s) && SameSetup(m, s.model) && s.model.clock == Elapsed(ticks, dt)
    && s.processed <= Target(toProcess)
  }

  /** The clock after `k` steps of `dt`, added up one step at a time as the
      Python engine does; `ElapsedIsProduct` shows it is `k * dt`. */
  function Elapsed(k: nat, dt: real): real
  {
    if k == 0 then 0.0 else Elapsed(k - 1, dt) + dt
  }

  lemma {:induction false} ElapsedIsProduct(k: nat, dt: real)
    ensures Elapsed(k, dt) == k as real * dt
  {
    if k > 0 {
      ElapsedIsProduct(k - 1, dt);
      assert k as real * dt == (k - 1) as real * dt + dt;
    }
  }
}
