/**
 * MultiTimer: many logical timers, each named by an integer id, multiplexed
 * onto one Timer proxy (a MultiTimerCallback) per id.
 *
 * The object is its list of proxies, oldest first. Every operation runs
 * under one scoped lock in JUCE's C++, so each is modelled as a single
 * pure step from one list to the next.
 */
module MultiTimers {
  import opened Wrappers
  import opened Timer

  /** One MultiTimerCallback: an immutable id and the state of the Timer it is. */
  datatype Proxy = Proxy(timerId: int, timer: TimerState)

  /** A MultiTimer, reduced to its owned array of proxies in insertion order. */
  datatype MultiTimer = MultiTimer(timers: seq<Proxy>)

  /** The ids that have a proxy. */
  function Ids(timers: seq<Proxy>): set<int> {
    set p | p in timers :: p.timerId
  }

  /** Two lists with the same id at every position have the same ids. */
  lemma SameIdsPositionwise(a: seq<Proxy>, b: seq<Proxy>)
    requires |a| == |b|
    requires forall k :: 0 <= k < |a| ==> a[k].timerId == b[k].timerId
    ensures Ids(a) == Ids(b)
  {
  }

  /** The registry invariant: at most one proxy per id. */
  predicate Unique(timers: seq<Proxy>) {
    forall i, j :: 0 <= i < j < |timers| ==> timers[i].timerId != timers[j].timerId
  }

  /** Index `k` holds the most recently added proxy with id `id`. */
  predicate NewestWith(timers: seq<Proxy>, id: int, k: int) {
    && 0 <= k < |timers|
    && timers[k].timerId == id
    && forall j :: k < j < |timers| ==> timers[j].timerId != id
  }

  /** Index `k` holds the earliest added proxy with id `id`. */
  predicate OldestWith(timers: seq<Proxy>, id: int, k: int) {
    && 0 <= k < |timers|
    && timers[k].timerId == id
    && forall j :: 0 <= j < k ==> timers[j].timerId != id
  }

  /** The reverse scan over indices `i - 1` down to 0, stopping at the first match. */
  function FindBelow(timers: seq<Proxy>, id: int, i: nat): (r: Option<nat>)
    requires i <= |timers|
    ensures r.None? ==> forall k :: 0 <= k < i ==> timers[k].timerId != id
    ensures r.Some? ==> r.value < i && timers[r.value].timerId == id
    ensures r.Some? ==> forall k :: r.value < k < i ==> timers[k].timerId != id
    decreases i
  {
    if i == 0 then None
    else if timers[i - 1].timerId == id then Some(i - 1)
    else FindBelow(timers, id, i - 1)
  }

  /**
   * The lookup shared by every operation: scan from the newest proxy back to
   * the oldest and stop at the first one with the id.
   */
  function Find(timers: seq<Proxy>, id: int): (r: Option<nat>)
    ensures r.None? <==> id !in Ids(timers)
    ensures r.Some? ==> NewestWith(timers, id, r.value)
  {
    var r := FindBelow(timers, id, |timers|);
    assert r.None? ==> forall q :: q in timers ==> q.timerId != id;
    r
  }

  /** A scan from the oldest proxy forward, the order the lookup does NOT use. */
  function FindForward(timers: seq<Proxy>, id: int, i: nat): (r: Option<nat>)
    requires i <= |timers|
    ensures r.None? ==> forall k :: i <= k < |timers| ==> timers[k].timerId != id
    ensures r.Some? ==> i <= r.value < |timers| && timers[r.value].timerId == id
    ensures r.Some? ==> forall k :: i <= k < r.value ==> timers[k].timerId != id
    decreases |timers| - i
  {
    if i == |timers| then None
    else if timers[i].timerId == id then Some(i)
    else FindForward(timers, id, i + 1)
  }

  /** The state of the proxy the lookup finds, or of a fresh Timer when none exists. */
  function StateOf(m: MultiTimer, id: int): (t: TimerState)
    ensures id !in Ids(m.timers) ==> t == Idle
    ensures forall k :: NewestWith(m.timers, id, k) ==> t == m.timers[k].timer
  {
    match Find(m.timers, id)
    case None => Idle
    case Some(k) => m.timers[k].timer
  }

  //==========================================================================
  // Construction and destruction

  /** `MultiTimer()`: no proxies. */
  function New(): (m: MultiTimer)
    ensures Unique(m.timers)
    ensures forall id :: id !in Ids(m.timers)
    ensures forall id :: !IsTimerRunning(m, id) && GetTimerInterval(m, id) == 0
  {
    MultiTimer([])
  }

  /** `MultiTimer (const MultiTimer&)`: the copy owns none of the original's proxies. */
  function Copy(other: MultiTimer): (m: MultiTimer)
    ensures Unique(m.timers)
    ensures forall id :: id !in Ids(m.timers)
    ensures forall id :: !IsTimerRunning(m, id) && GetTimerInterval(m, id) == 0
  {
    MultiTimer([])
  }

  /**
   * `~MultiTimer()`: every proxy is deleted under the lock, so none is left
   * to fire into the destroyed owner.
   */
  function Destroy(m: MultiTimer): (r: MultiTimer)
    ensures Unique(r.timers)
    ensures forall id :: id !in Ids(r.timers)
    ensures forall id :: !IsTimerRunning(r, id) && GetTimerInterval(r, id) == 0
  {
    MultiTimer([])
  }

  //==========================================================================
  // Operations

  /**
   * `startTimer (timerId, interval)`: restart the newest proxy with the id,
   * or create, append and start a new one when there is none.
   */
  function StartTimer(p: Primitive, m: MultiTimer, id: int, interval: int): (r: MultiTimer)
    ensures id in Ids(m.timers) ==> |r.timers| == |m.timers|
    ensures id !in Ids(m.timers) ==> |r.timers| == |m.timers| + 1
    ensures id !in Ids(m.timers) ==> r.timers[|m.timers|] == Proxy(id, p.start(Idle, interval))
    ensures forall k :: 0 <= k < |m.timers| ==> r.timers[k].timerId == m.timers[k].timerId
    ensures forall k :: 0 <= k < |m.timers| && !NewestWith(m.timers, id, k) ==> r.timers[k] == m.timers[k]
    ensures forall k :: NewestWith(m.timers, id, k) ==> r.timers[k].timer == p.start(m.timers[k].timer, interval)
  {
    match Find(m.timers, id)
    case Some(k) => MultiTimer(m.timers[k := m.timers[k].(timer := p.start(m.timers[k].timer, interval))])
    case None => MultiTimer(m.timers + [Proxy(id, p.start(Idle, interval))])
  }

  /** One proxy as `stopTimer (id)` leaves it. */
  function StopIfMatching(p: Primitive, proxy: Proxy, id: int): Proxy {
    if proxy.timerId == id then proxy.(timer := p.stop(proxy.timer)) else proxy
  }

  /**
   * `stopTimer (timerId)`: stop every proxy with the id (the scan does not
   * stop at the first match) and leave the list itself alone.
   */
  function StopTimer(p: Primitive, m: MultiTimer, id: int): (r: MultiTimer)
    ensures |r.timers| == |m.timers|
    ensures forall k :: 0 <= k < |m.timers| ==> r.timers[k].timerId == m.timers[k].timerId
    ensures forall k :: 0 <= k < |m.timers| && m.timers[k].timerId == id ==> r.timers[k].timer == p.stop(m.timers[k].timer)
    ensures forall k :: 0 <= k < |m.timers| && m.timers[k].timerId != id ==> r.timers[k] == m.timers[k]
    ensures Ids(r.timers) == Ids(m.timers)
    ensures Unique(m.timers) ==> Unique(r.timers)
  {
    var r := MultiTimer(seq(|m.timers|, k requires 0 <= k < |m.timers| => StopIfMatching(p, m.timers[k], id)));
    SameIdsPositionwise(m.timers, r.timers);
    r
  }

  /** `isTimerRunning (timerId)`: the newest matching proxy's flag, `false` for an unknown id. */
  function IsTimerRunning(m: MultiTimer, id: int): (r: bool)
    ensures id !in Ids(m.timers) ==> !r
    ensures forall k :: NewestWith(m.timers, id, k) ==> (r <==> m.timers[k].timer.running)
  {
    match Find(m.timers, id)
    case None => false
    case Some(k) => m.timers[k].timer.running
  }

  /** `getTimerInterval (timerId)`: the newest matching proxy's interval, `0` for an unknown id. */
  function GetTimerInterval(m: MultiTimer, id: int): (r: int)
    ensures id !in Ids(m.timers) ==> r == 0
    ensures forall k :: NewestWith(m.timers, id, k) ==> r == m.timers[k].timer.interval
  {
    match Find(m.timers, id)
    case None => 0
    case Some(k) => m.timers[k].timer.interval
  }

  /**
   * `MultiTimerCallback::timerCallback()` of the proxy at index `k`: when its
   * Timer fires, the owner's `timerCallback (int)` is called with the proxy's
   * own id, which is the id whose lookup finds this proxy.
   */
  function Fire<R>(m: MultiTimer, k: nat, owner: int -> R): (r: R)
    requires k < |m.timers|
    ensures forall id :: Find(m.timers, id) == Some(k) ==> r == owner(id)
  {
    owner(m.timers[k].timerId)
  }

}
