/**
 * The operations as `juce_MultiTimer.cpp` writes them: an index running from the end
 * of the proxy array down to 0. Each method computes exactly what the
 * corresponding function of MultiTimers defines.
 */
module MultiTimerScan {
  import opened Timer
  import opened MultiTimers

  /** `startTimer`: restart the first proxy the reverse scan meets with the id, or append one. */
  method StartTimerScan(p: Primitive, m: MultiTimer, id: int, interval: int) returns (r: MultiTimer)
    ensures r == StartTimer(p, m, id, interval)
  {
    var i := |m.timers|;
    while i > 0
      invariant 0 <= i <= |m.timers|
      invariant forall j :: i <= j < |m.timers| ==> m.timers[j].timerId != id
    {
      i := i - 1;
      var t := m.timers[i];
      if t.timerId == id {
        assert NewestWith(m.timers, id, i);
        return MultiTimer(m.timers[i := t.(timer := p.start(t.timer, interval))]);
      }
    }
    r := MultiTimer(m.timers + [Proxy(id, p.start(Idle, interval))]);
  }

  /** `stopTimer`: the scan runs to the end, stopping every proxy with the id. */
  method StopTimerScan(p: Primitive, m: MultiTimer, id: int) returns (r: MultiTimer)
    ensures r == StopTimer(p, m, id)
  {
    var ts := m.timers;
    var i := |ts|;
    while i > 0
      invariant 0 <= i <= |m.timers| == |ts|
      invariant forall j :: 0 <= j < i ==> ts[j] == m.timers[j]
      invariant forall j :: i <= j < |ts| ==> ts[j] == StopIfMatching(p, m.timers[j], id)
    {
      i := i - 1;
      if ts[i].timerId == id {
        ts := ts[i := ts[i].(timer := p.stop(ts[i].timer))];
      }
    }
    r := MultiTimer(ts);
  }

  /** `isTimerRunning`: the first proxy the reverse scan meets answers; `false` when none does. */
  method IsTimerRunningScan(m: MultiTimer, id: int) returns (r: bool)
    ensures r == IsTimerRunning(m, id)
  {
    var i := |m.timers|;
    while i > 0
      invariant 0 <= i <= |m.timers|
      invariant forall j :: i <= j < |m.timers| ==> m.timers[j].timerId != id
    {
      i := i - 1;
      if m.timers[i].timerId == id {
        assert NewestWith(m.timers, id, i);
        return m.timers[i].timer.running;
      }
    }
    return false;
  }

  /** `getTimerInterval`: the first proxy the reverse scan meets answers; `0` when none does. */
  method GetTimerIntervalScan(m: MultiTimer, id: int) returns (r: int)
    ensures r == GetTimerInterval(m, id)
  {
    var i := |m.timers|;
    while i > 0
      invariant 0 <= i <= |m.timers|
      invariant forall j :: i <= j < |m.timers| ==> m.timers[j].timerId != id
    {
      i := i - 1;
      if m.timers[i].timerId == id {
        assert NewestWith(m.timers, id, i);
        return m.timers[i].timer.interval;
      }
    }
    return 0;
  }

}
