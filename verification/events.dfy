/** Timestamped events, the engine's event list, and the two delay sources.

    The engine keeps its pending events in a list sorted by planned time in
    DESCENDING order, inserts new events at the front and takes the next one
    from the back, so the back of the list is always the earliest event. */
module Events {

  /** An arrival (generation) or a service completion (processing), with its planned time. */
  datatype Event = Generation(time: real) | Processing(time: real)

  /** Number of events of one kind: arrivals when `gen`, completions otherwise. */
  function Count(s: seq<Event>, gen: bool): nat
  {
    if |s| == 0 then 0
    else (if s[0].Generation? == gen then 1 else 0) + Count(s[1..], gen)
  }

  lemma {:induction false} CountConcat(a: seq<Event>, b: seq<Event>, gen: bool)
    ensures Count(a + b, gen) == Count(a, gen) + Count(b, gen)
  {
    if |a| == 0 {
      assert a + b == b;
    } else {
      assert (a + b)[1..] == a[1..] + b;
      CountConcat(a[1..], b, gen);
    }
  }

  /** A list with at least one arrival in it is not empty. */
  lemma CountPositive(s: seq<Event>, gen: bool)
    requires Count(s, gen) > 0
    ensures |s| > 0
  {
  }

  predicate SortedDesc(s: seq<Event>) {
    forall i, j :: 0 <= i < j < |s| ==> s[i].time >= s[j].time
  }

  lemma CountCons(x: Event, t: seq<Event>, gen: bool)
    ensures Count([x] + t, gen) == (if x.Generation? == gen then 1 else 0) + Count(t, gen)
  {
    assert ([x] + t)[1..] == t;
  }

  /** How many events at the front of `s` are planned strictly later than `e`. */
  function Position(e: Event, s: seq<Event>): (k: nat)
    ensures k <= |s|
  {
    if |s| == 0 || s[0].time <= e.time then 0 else 1 + Position(e, s[1..])
  }

  /** On a descending list, `Position` splits the events planned strictly
      later than `e` from those planned no later. */
  lemma {:induction false} PositionSplits(e: Event, s: seq<Event>)
    requires SortedDesc(s)
    ensures forall i :: 0 <= i < Position(e, s) ==> s[i].time > e.time
    ensures forall i :: Position(e, s) <= i < |s| ==> s[i].time <= e.time
  {
    if |s| > 0 && s[0].time > e.time {
      PositionSplits(e, s[1..]);
      forall i | 1 <= i < |s| ensures s[i] == s[1..][i - 1] { }
    }
  }

  /** Stable insertion into a descending list: `e` goes right after the
      events planned strictly later and in front of every event planned no
      later, so among equal times the event inserted last is taken last. */
  function Insert(e: Event, s: seq<Event>): (r: seq<Event>)
    requires SortedDesc(s)
    ensures SortedDesc(r)
    ensures multiset(r) == multiset(s) + multiset{e}
    ensures Count(r, true) == Count([e] + s, true)
    ensures Count(r, false) == Count([e] + s, false)
  {
    var k := Position(e, s);
    InsertSorted(e, s);
    InsertSameEvents(e, s, k, true);
    InsertSameEvents(e, s, k, false);
    s[..k] + [e] + s[k..]
  }

  lemma InsertSorted(e: Event, s: seq<Event>)
    requires SortedDesc(s)
    ensures SortedDesc(s[..Position(e, s)] + [e] + s[Position(e, s)..])
  {
    var k := Position(e, s);
    var r := s[..k] + [e] + s[k..];
    PositionSplits(e, s);
    assert forall i :: 0 <= i < k ==> r[i] == s[i];
    assert forall i :: k < i < |r| ==> r[i] == s[i - 1];
  }

  lemma InsertSameEvents(e: Event, s: seq<Event>, k: nat, gen: bool)
    requires k <= |s|
    ensures multiset(s[..k] + [e] + s[k..]) == multiset(s) + multiset{e}
    ensures Count(s[..k] + [e] + s[k..], gen) == Count([e] + s, gen)
  {
    assert s[..k] + s[k..] == s;
    CountConcat(s[..k] + [e], s[k..], gen);
    CountConcat(s[..k], [e], gen);
    CountConcat(s[..k], s[k..], gen);
    CountCons(e, [], gen);
    CountCons(e, s, gen);
  }

  /** The stable descending sort the engine applies to its event list
      (Python's `sort(key=..., reverse=True)` keeps equal keys in list order):
      inserting the elements from the back keeps each earlier element in
      front of later ones with the same planned time. */
  function Sort(s: seq<Event>): (r: seq<Event>)
    ensures SortedDesc(r)
    ensures multiset(r) == multiset(s)
    ensures Count(r, true) == Count(s, true) && Count(r, false) == Count(s, false)
  {
    if |s| == 0 then []
    else
      assert s == [s[0]] + s[1..];
      Insert(s[0], Sort(s[1..]))
  }

  /** The events of `s` planned at time `t`, in list order. */
  function At(s: seq<Event>, t: real): seq<Event>
  {
    if |s| == 0 then []
    else (if s[0].time == t then [s[0]] else []) + At(s[1..], t)
  }

  lemma {:induction false} AtConcat(a: seq<Event>, b: seq<Event>, t: real)
    ensures At(a + b, t) == At(a, t) + At(b, t)
  {
    if |a| == 0 {
      assert a + b == b;
    } else {
      var h := if a[0].time == t then [a[0]] else [];
      assert (a + b)[0] == a[0] && (a + b)[1..] == a[1..] + b;
      AtConcat(a[1..], b, t);
      calc {
        At(a + b, t);
        h + At(a[1..] + b, t);
        h + (At(a[1..], t) + At(b, t));
        (h + At(a[1..], t)) + At(b, t);
        At(a, t) + At(b, t);
      }
    }
  }

  /** Inserting `e` keeps the order among equal times of `[e] + s`: `e` lands
      in front of every event of `s` planned at its time. */
  lemma InsertIsStable(e: Event, s: seq<Event>, t: real)
    requires SortedDesc(s)
    ensures At(Insert(e, s), t) == At([e] + s, t)
  {
    var k := Position(e, s);
    PositionSplits(e, s);
    var front, back := s[..k], s[k..];
    assert forall i :: 0 <= i < |front| ==> front[i].time > e.time;
    assert front + back == s;
    AtAfterLater(e, front, back, t);
  }

  /** Putting `e` behind events planned strictly later than it does not change
      the order among simultaneous events. */
  lemma AtAfterLater(e: Event, front: seq<Event>, back: seq<Event>, t: real)
    requires forall i :: 0 <= i < |front| ==> front[i].time > e.time
    ensures At(front + [e] + back, t) == At([e] + (front + back), t)
  {
    AtConcat(front + [e], back, t);
    AtConcat(front, [e], t);
    AtConcat(front, back, t);
    AtConcat([e], front + back, t);
    var mid := At([e], t);
    assert mid == (if e.time == t then [e] else []) + At([], t);
    if t == e.time {
      AtNone(front, t);
      assert At(front + [e] + back, t) == mid + At(back, t);
    } else {
      assert mid == [];
    }
  }

  /** No event planned strictly later than `t` is planned at `t`. */
  lemma {:induction false} AtNone(s: seq<Event>, t: real)
    requires forall i :: 0 <= i < |s| ==> s[i].time > t
    ensures At(s, t) == []
  {
    if |s| > 0 {
      AtNone(s[1..], t);
    }
  }

  /** The sort is stable: for every planned time, the events planned at it
      keep their relative order, so of two simultaneous events the one nearer
      the front of the list stays nearer the front and is popped later. */
  lemma {:induction false} SortIsStable(s: seq<Event>, t: real)
    ensures At(Sort(s), t) == At(s, t)
  {
    if |s| > 0 {
      var x, tl := s[0], s[1..];
      calc {
        At(Sort(s), t);
        At(Insert(x, Sort(tl)), t);
        { InsertIsStable(x, Sort(tl), t); }
        At([x] + Sort(tl), t);
        { AtConcat([x], Sort(tl), t); }
        At([x], t) + At(Sort(tl), t);
        { SortIsStable(tl, t); }
        At([x], t) + At(tl, t);
        { AtConcat([x], tl, t); }
        At([x] + tl, t);
        { assert [x] + tl == s; }
        At(s, t);
      }
    }
  }

  /** `a` and `b` list the events planned at each time in the same order. */
  ghost predicate SameTies(a: seq<Event>, b: seq<Event>) {
    forall t :: At(a, t) == At(b, t)
  }

  /** The sort keeps the order among simultaneous events (`SortIsStable` for
      every time at once). */
  lemma SortKeepsTies(s: seq<Event>)
    ensures SameTies(Sort(s), s)
  {
    forall t ensures At(Sort(s), t) == At(s, t) {
      SortIsStable(s, t);
    }
  }

  /** Putting `e` at the front of a descending list and sorting is the stable
      insertion of `e`. */
  lemma InsertIsSort(e: Event, s: seq<Event>)
    requires SortedDesc(s)
    ensures Insert(e, s) == Sort([e] + s)
  {
    assert ([e] + s)[0] == e && ([e] + s)[1..] == s;
    SortOfSorted(s);
  }

  /** Sorting a list that is already in order changes nothing. */
  lemma {:induction false} SortOfSorted(s: seq<Event>)
    requires SortedDesc(s)
    ensures Sort(s) == s
  {
    if |s| > 0 {
      var t := s[1..];
      TailSorted(s);
      SortOfSorted(t);
      assert Sort(s) == Insert(s[0], t);
      InsertFront(s[0], t, s);
      assert s == [s[0]] + t;
    }
  }

  /** An event no earlier than the head of a descending list is inserted at the front. */
  lemma InsertFront(e: Event, t: seq<Event>, s: seq<Event>)
    requires SortedDesc(t) && |s| > 0 && s[0] == e && s[1..] == t && SortedDesc(s)
    ensures Insert(e, t) == [e] + t
  {
    if |t| > 0 {
      assert t[0] == s[1];
    }
    assert Position(e, t) == 0;
    assert t[..0] == [] && t[0..] == t;
  }

  lemma TailSorted(s: seq<Event>)
    requires SortedDesc(s) && |s| > 0
    ensures SortedDesc(s[1..])
  {
  }

  /** Python's `list.pop()`: removes and returns the last element.  On a
      descending list that is an event with the earliest planned time. */
  function Pop(s: seq<Event>): (r: (Event, seq<Event>))
    requires |s| > 0
    ensures r.1 + [r.0] == s
    ensures SortedDesc(s) ==> SortedDesc(r.1)
    ensures SortedDesc(s) ==> forall e :: e in s ==> r.0.time <= e.time
  {
    (s[|s| - 1], s[..|s| - 1])
  }

  /** No event in `s` is planned before time `t`. */
  predicate NotBefore(s: seq<Event>, t: real) {
    forall i :: 0 <= i < |s| ==> s[i].time >= t
  }

  /** Sorting moves events around but keeps a common lower bound on their times. */
  lemma SortNotBefore(s: seq<Event>, t: real)
    requires NotBefore(s, t)
    ensures NotBefore(Sort(s), t)
  {
    var r := Sort(s);
    forall i | 0 <= i < |r| ensures r[i].time >= t {
      assert r[i] in multiset(r);
      assert r[i] in multiset(s);
    }
  }

  /** Caller-supplied delays standing in for the random draws: `arrival(k)` is
      the k-th inter-arrival time (the exponential draw of the generator),
      `service(k)` the k-th service time (the uniform draw of the processor). */
  datatype Sampler = Sampler(arrival: nat -> real, service: nat -> real)

  ghost predicate NonNegative(smp: Sampler) {
    && (forall k: nat :: smp.arrival(k) >= 0.0)
    && (forall k: nat :: smp.service(k) >= 0.0)
  }

  /** `Generator.generate_event`: an arrival `arrival(draw)` after the model time. */
  function GenerateEvent(smp: Sampler, draw: nat, modelTime: real): (e: Event)
    ensures e.Generation?
    ensures e.time - modelTime == smp.arrival(draw)
    ensures smp.arrival(draw) >= 0.0 ==> e.time >= modelTime
  {
    Generation(modelTime + smp.arrival(draw))
  }

  /** `Processor.generate_event`: a completion `service(draw)` after the model time. */
  function ProcessEvent(smp: Sampler, draw: nat, modelTime: real): (e: Event)
    ensures e.Processing?
    ensures e.time - modelTime == smp.service(draw)
    ensures smp.service(draw) >= 0.0 ==> e.time >= modelTime
  {
    Processing(modelTime + smp.service(draw))
  }
}
