/**
 * Sequences of calls on one MultiTimer: the registry invariant holds in every
 * reachable state, and proxies are only ever added.
 */
module MultiTimerTrace {
  import opened Timer
  import opened MultiTimers
  import opened MultiTimerProperties

  /** A public call that changes a MultiTimer (the queries change nothing). */
  datatype Call = Start(id: int, interval: int) | Stop(id: int)

  function Step(p: Primitive, m: MultiTimer, c: Call): MultiTimer {
    match c
    case Start(id, interval) => StartTimer(p, m, id, interval)
    case Stop(id) => StopTimer(p, m, id)
  }

  /** The MultiTimer after the calls, made one after another. */
  function Run(p: Primitive, m: MultiTimer, calls: seq<Call>): MultiTimer
    decreases |calls|
  {
    if |calls| == 0 then m else Run(p, Step(p, m, calls[0]), calls[1..])
  }

  /** The ids passed to `startTimer` somewhere in the calls. */
  function Started(calls: seq<Call>): set<int> {
    set c | c in calls && c.Start? :: c.id
  }

  lemma StartedOfTail(calls: seq<Call>)
    requires |calls| > 0
    ensures Started(calls) == (if calls[0].Start? then {calls[0].id} else {}) + Started(calls[1..])
  {
  }

  /** Every call keeps the invariant, so every reachable state has one proxy per id. */
  lemma {:induction false} RunKeepsUnique(p: Primitive, m: MultiTimer, calls: seq<Call>)
    requires Unique(m.timers)
    ensures Unique(Run(p, m, calls).timers)
    decreases |calls|
  {
    if |calls| > 0 {
      var next := Step(p, m, calls[0]);
      if calls[0].Start? {
        StartKeepsUnique(p, m, calls[0].id, calls[0].interval);
      }
      RunKeepsUnique(p, next, calls[1..]);
    }
  }

  /** The ids with a proxy are the initial ones plus every id ever started. */
  lemma {:induction false} RunIds(p: Primitive, m: MultiTimer, calls: seq<Call>)
    ensures Ids(Run(p, m, calls).timers) == Ids(m.timers) + Started(calls)
    decreases |calls|
  {
    if |calls| == 0 {
      assert Started(calls) == {};
    } else {
      var next := Step(p, m, calls[0]);
      StartedOfTail(calls);
      if calls[0].Start? {
        StartIds(p, m, calls[0].id, calls[0].interval);
      }
      RunIds(p, next, calls[1..]);
    }
  }

  /** No proxy is ever removed or moved: the old list survives as a prefix of ids. */
  lemma {:induction false} RunNeverRemoves(p: Primitive, m: MultiTimer, calls: seq<Call>)
    ensures |Run(p, m, calls).timers| >= |m.timers|
    ensures forall k :: 0 <= k < |m.timers| ==> Run(p, m, calls).timers[k].timerId == m.timers[k].timerId
    decreases |calls|
  {
    if |calls| > 0 {
      RunNeverRemoves(p, Step(p, m, calls[0]), calls[1..]);
    }
  }

  /** Starting from a fresh MultiTimer, every reachable state has one proxy per id. */
  lemma ReachableIsUnique(p: Primitive, calls: seq<Call>)
    ensures Unique(Run(p, New(), calls).timers)
  {
    RunKeepsUnique(p, New(), calls);
  }

  /** An id never passed to `startTimer` reports stopped with interval 0. */
  lemma NeverStartedIsQuiet(p: Primitive, calls: seq<Call>, id: int)
    requires id !in Started(calls)
    ensures !IsTimerRunning(Run(p, New(), calls), id)
    ensures GetTimerInterval(Run(p, New(), calls), id) == 0
  {
    RunIds(p, New(), calls);
  }

}
