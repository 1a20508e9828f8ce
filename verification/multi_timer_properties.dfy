/**
 * Properties of the MultiTimer registry that relate several operations or
 * hold only under the one-proxy-per-id invariant.
 */
module MultiTimerProperties {
  import opened Wrappers
  import opened Timer
  import opened MultiTimers

  //==========================================================================
  // Lookup

  /** Under the invariant, the one proxy with an id is the newest and the oldest with it. */
  lemma OnlyMatchIsNewestAndOldest(timers: seq<Proxy>, id: int, k: int)
    requires Unique(timers)
    requires 0 <= k < |timers| && timers[k].timerId == id
    ensures NewestWith(timers, id, k)
    ensures OldestWith(timers, id, k)
  {
  }

  /**
   * Under the invariant the reverse scan and a forward scan find the same
   * proxy, so lookups do not depend on insertion order.
   */
  lemma ScanOrderIrrelevant(timers: seq<Proxy>, id: int)
    requires Unique(timers)
    ensures Find(timers, id) == FindForward(timers, id, 0)
  {
  }

  /** Under the invariant both queries answer from whichever proxy carries the id. */
  lemma QueriesReadTheMatchingProxy(m: MultiTimer, id: int, k: int)
    requires Unique(m.timers)
    requires 0 <= k < |m.timers| && m.timers[k].timerId == id
    ensures Find(m.timers, id) == Some(k)
    ensures IsTimerRunning(m, id) == m.timers[k].timer.running
    ensures GetTimerInterval(m, id) == m.timers[k].timer.interval
  {
  }

  //==========================================================================
  // startTimer

  /** A start adds its id to the ids with a proxy and removes none. */
  lemma StartIds(p: Primitive, m: MultiTimer, id: int, interval: int)
    ensures Ids(StartTimer(p, m, id, interval).timers) == Ids(m.timers) + {id}
  {
  }

  /** A start appends only for an id without a proxy, so it keeps one proxy per id. */
  lemma StartKeepsUnique(p: Primitive, m: MultiTimer, id: int, interval: int)
    requires Unique(m.timers)
    ensures Unique(StartTimer(p, m, id, interval).timers)
  {
  }

  /** The id's state after a start is the primitive's start applied to its state before. */
  lemma StartState(p: Primitive, m: MultiTimer, id: int, interval: int)
    ensures StateOf(StartTimer(p, m, id, interval), id) == p.start(StateOf(m, id), interval)
  {
  }

  /** After a start with a positive interval the id runs at exactly that interval. */
  lemma StartThenQuery(p: Primitive, m: MultiTimer, id: int, interval: int)
    requires Lawful(p) && interval > 0
    ensures IsTimerRunning(StartTimer(p, m, id, interval), id)
    ensures GetTimerInterval(StartTimer(p, m, id, interval), id) == interval
  {
  }

  /** Starting one id does not change what the queries report for any other id. */
  lemma StartLeavesOtherIds(p: Primitive, m: MultiTimer, id: int, interval: int, other: int)
    requires other != id
    ensures IsTimerRunning(StartTimer(p, m, id, interval), other) == IsTimerRunning(m, other)
    ensures GetTimerInterval(StartTimer(p, m, id, interval), other) == GetTimerInterval(m, other)
  {
  }

  /**
   * Starting an id that already has a proxy again creates no second proxy:
   * the list keeps its length and the id now runs at the new interval.
   */
  lemma RestartReusesProxy(p: Primitive, m: MultiTimer, id: int, first: int, second: int)
    requires Lawful(p) && second > 0
    ensures |StartTimer(p, StartTimer(p, m, id, first), id, second).timers|
         == |StartTimer(p, m, id, first).timers|
    ensures GetTimerInterval(StartTimer(p, StartTimer(p, m, id, first), id, second), id) == second
    ensures Unique(m.timers) ==> Unique(StartTimer(p, StartTimer(p, m, id, first), id, second).timers)
  {
  }

  //==========================================================================
  // stopTimer

  /** An id that was never started is unaffected by a stop. */
  lemma StopUnknownIsNoop(p: Primitive, m: MultiTimer, id: int)
    requires id !in Ids(m.timers)
    ensures StopTimer(p, m, id) == m
  {
  }

  /** After a stop the id reports not running. */
  lemma StopThenNotRunning(p: Primitive, m: MultiTimer, id: int)
    requires Lawful(p)
    ensures !IsTimerRunning(StopTimer(p, m, id), id)
  {
  }

  /** Stopping twice leaves the same state as stopping once. */
  lemma StopIsIdempotent(p: Primitive, m: MultiTimer, id: int)
    requires Lawful(p)
    ensures StopTimer(p, StopTimer(p, m, id), id) == StopTimer(p, m, id)
  {
  }

  /** Stopping one id does not change what the queries report for any other id. */
  lemma StopLeavesOtherIds(p: Primitive, m: MultiTimer, id: int, other: int)
    requires other != id
    ensures IsTimerRunning(StopTimer(p, m, id), other) == IsTimerRunning(m, other)
    ensures GetTimerInterval(StopTimer(p, m, id), other) == GetTimerInterval(m, other)
  {
  }

  //==========================================================================
  // Firing

  /**
   * Under the invariant, the id a firing proxy hands its owner leads back to
   * exactly that proxy: the lookup fact of `QueriesReadTheMatchingProxy`,
   * seen from the firing side.
   */
  lemma FiringRoutesToOwnProxy(m: MultiTimer, k: nat)
    requires Unique(m.timers) && k < |m.timers|
    ensures Fire(m, k, (id: int) => Find(m.timers, id)) == Some(k)
  {
    QueriesReadTheMatchingProxy(m, m.timers[k].timerId, k);
  }

  //==========================================================================
  // A concrete scenario: two ids do not interfere

  /** Ids 1 and 2, started at 10 and 20 on a new MultiTimer, each keep their own interval. */
  lemma TwoTimersIndependent(p: Primitive)
    requires Lawful(p)
    ensures var m := StartTimer(p, StartTimer(p, New(), 1, 10), 2, 20);
            && IsTimerRunning(m, 1) && GetTimerInterval(m, 1) == 10
            && IsTimerRunning(m, 2) && GetTimerInterval(m, 2) == 20
            && |m.timers| == 2
  {
  }

}
