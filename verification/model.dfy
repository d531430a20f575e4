/** The engine's state and its event rules: `reinit`, the arrival rule
    (`handle_generation`), the service-completion rule (`handle_processing`)
    and the counter bookkeeping of `handle_event`. */
module Simulation {
  import opened SimError
  import opened DeviceQueues
  import opened Events

  /** The engine's state.  `busy` is `model.py`'s `_processing` flag;
      `arrivals` and `services` count the delays drawn so far from each source,
      so the next draw is `smp.arrival(arrivals)` / `smp.service(services)`. */
  datatype Model = Model(
    queue: DeviceQueue,
    events: seq<Event>,
    clock: real,
    busy: bool,
    withReturn: bool,
    arrivals: nat,
    services: nat)

  /** Queue bounds, and units only wait while the server is busy. */
  predicate Inv(m: Model) {
    Valid(m.queue) && (m.queue.count > 0 ==> m.busy)
  }

  /** `Model.__init__`: the only check is the queue's, on the capacity. */
  function New(capacity: int, withReturn: bool): (r: Result<Model>)
    ensures r.Err? <==> capacity <= 0
    ensures r.Err? ==> r.error == QueueError
    ensures r.Ok? ==> Inv(r.value) && r.value.events == [] && r.value.clock == 0.0
    ensures r.Ok? ==> !r.value.busy && IsEmpty(r.value.queue) && r.value.queue.capacity == capacity
    ensures r.Ok? ==> r.value.withReturn == withReturn
  {
    match DeviceQueues.New(capacity)
    case Err(e) => Err(e)
    case Ok(q) => Ok(Model(q, [], 0.0, false, withReturn, 0, 0))
  }

  /** `reinit`: empty queue, no events, clock 0, server idle.  The delay
      sources are not rewound: a new run continues the same random stream. */
  function Reinit(m: Model): (r: Model)
    ensures IsEmpty(r.queue) && r.queue.capacity == m.queue.capacity
    ensures r.events == [] && r.clock == 0.0 && !r.busy
    ensures r.withReturn == m.withReturn
    ensures r.arrivals == m.arrivals && r.services == m.services
    ensures m.queue.capacity > 0 ==> Inv(r)
  {
    m.(queue := Clear(m.queue), events := [], clock := 0.0, busy := false)
  }

  /** Nothing from the previous run survives `reinit`: two engines with the
      same configuration and the same position in the random stream are
      indistinguishable after it. */
  lemma ReinitForgetsRun(m1: Model, m2: Model)
    requires m1.queue.capacity == m2.queue.capacity && m1.withReturn == m2.withReturn
    requires m1.arrivals == m2.arrivals && m1.services == m2.services
    ensures Reinit(m1) == Reinit(m2)
  {
  }

  /** The arrival rule.  Returns the new state and whether the arrival was accepted. */
  function HandleGeneration(m: Model, smp: Sampler): (r: Result<(Model, bool)>)
    ensures r.Ok?
    ensures var (m', accepted) := r.value;
      var arrival := Generation(m.clock + smp.arrival(m.arrivals));
      && m'.clock == m.clock && m'.withReturn == m.withReturn
      && m'.queue.capacity == m.queue.capacity
      && m'.arrivals == m.arrivals + 1
      && (accepted <==> !IsFull(m.queue))
      // rejected: only the next arrival is scheduled
      && (!accepted ==> (m'.events == [arrival] + m.events && m'.queue == m.queue
                         && m'.busy == m.busy && m'.services == m.services))
      // accepted by a busy server: the unit waits, no completion is scheduled
      && (accepted && m.busy ==> (m'.events == [arrival] + m.events && m'.busy
                         && m'.queue.count == m.queue.count + 1 && m'.services == m.services))
      // accepted by an idle server: service starts, the waiting room is untouched
      && (accepted && !m.busy ==> (m'.events == [Processing(m.clock + smp.service(m.services)), arrival] + m.events
                         && m'.busy && m'.queue == m.queue && m'.services == m.services + 1))
    ensures Inv(m) ==> Inv(r.value.0)
  {
    var m1 := m.(events := [GenerateEvent(smp, m.arrivals, m.clock)] + m.events,
                 arrivals := m.arrivals + 1);
    if IsFull(m1.queue) then Ok((m1, false))
    else if m1.busy then
      match Enqueue(m1.queue)
      case Err(e) => Err(e)
      case Ok(q) => Ok((m1.(queue := q), true))
    else
      Ok((m1.(events := [ProcessEvent(smp, m1.services, m1.clock)] + m1.events,
              services := m1.services + 1,
              busy := true), true))
  }

  /** The service-completion rule. */
  function HandleProcessing(m: Model, smp: Sampler): (r: Result<Model>)
    ensures r.Ok?
    ensures var m' := r.value;
      var completion := Processing(m.clock + smp.service(m.services));
      && m'.clock == m.clock && m'.withReturn == m.withReturn
      && m'.queue.capacity == m.queue.capacity && m'.arrivals == m.arrivals
      // retrial with nothing waiting: serve again, stay busy
      && (IsEmpty(m.queue) && m.withReturn ==>
            m'.events == [completion] + m.events && m'.queue == m.queue
            && m'.busy == m.busy && m'.services == m.services + 1)
      // nothing waiting, no retrial: go idle, schedule nothing
      && (IsEmpty(m.queue) && !m.withReturn ==>
            m'.events == m.events && m'.queue == m.queue && !m'.busy && m'.services == m.services)
      // units waiting: serve again; the unit leaves the waiting room unless retrial is on
      && (!IsEmpty(m.queue) ==>
            m'.events == [completion] + m.events && m'.busy == m.busy && m'.services == m.services + 1
            && m'.queue.count == (if m.withReturn then m.queue.count else m.queue.count - 1))
    ensures Inv(m) ==> Inv(r.value)
  {
    if IsEmpty(m.queue) && m.withReturn then
      Ok(m.(events := [ProcessEvent(smp, m.services, m.clock)] + m.events,
            services := m.services + 1))
    else if IsEmpty(m.queue) && !m.withReturn then
      Ok(m.(busy := false))
    else
      var m1 := m.(events := [ProcessEvent(smp, m.services, m.clock)] + m.events,
                   services := m.services + 1);
      if m.withReturn then Ok(m1)
      else
        match Dequeue(m1.queue)
        case Err(e) => Err(e)
        case Ok(q) => Ok(m1.(queue := q))
  }

  /** `handle_event`: dispatch on the kind of event and update the counters
      (`processed`, `rejected`).  A rejected arrival counts as resolved, an
      accepted one only when a completion retires it later.  Neither rule can
      fail (see their contracts), so no `QueueError` reaches this level. */
  function HandleEvent(m: Model, smp: Sampler, ev: Event, processed: nat, rejected: nat)
    : (r: (Model, nat, nat))
    ensures var (m', p, j) := r;
      && (ev.Generation? ==> Ok((m', !IsFull(m.queue))) == HandleGeneration(m, smp))
      && (ev.Processing? ==> Ok(m') == HandleProcessing(m, smp))
      && (ev.Generation? && !IsFull(m.queue) ==> p == processed && j == rejected)
      && (ev.Generation? && IsFull(m.queue) ==> p == processed + 1 && j == rejected + 1)
      && (ev.Processing? ==> p == processed + 1 && j == rejected)
  {
    match ev
    case Generation(_) =>
      var (m', accepted) := HandleGeneration(m, smp).value;
      if accepted then (m', processed, rejected) else (m', processed + 1, rejected + 1)
    case Processing(_) =>
      (HandleProcessing(m, smp).value, processed + 1, rejected)
  }

  /** Counter conservation: a rejection is also counted as processed, so
      `processed - rejected` grows by one exactly per completion handled and
      `rejected <= processed` is kept. */
  lemma HandleEventConserves(m: Model, smp: Sampler, ev: Event, processed: nat, rejected: nat)
    ensures var (_, p, j) := HandleEvent(m, smp, ev, processed, rejected);
      && p - j == processed - rejected + (if ev.Processing? then 1 else 0)
      && p >= processed && j >= rejected
      && (rejected <= processed ==> j <= p)
  {
  }

  /** The capacity bounds the waiting room only; the unit in service is held
      by the busy flag.  With capacity 1 and a server that stays busy, the
      first arrival starts service, the second waits and only the third is
      rejected. */
  lemma CapacityExcludesServer(smp: Sampler, withReturn: bool)
    ensures var m0 := New(1, withReturn).value;
      var (m1, a1) := HandleGeneration(m0, smp).value;
      var (m2, a2) := HandleGeneration(m1, smp).value;
      var (m3, a3) := HandleGeneration(m2, smp).value;
      && a1 && m1.busy && m1.queue.count == 0
      && a2 && m2.queue.count == 1
      && !a3 && m3.queue.count == 1
  {
  }
}
