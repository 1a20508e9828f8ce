/**
 * The single-id Timer that every MultiTimer proxy inherits from.
 *
 * Its implementation (scheduling, the firing thread, what a non-positive
 * interval does, what the interval reads after a stop) is not part of this
 * model. The multiplexer only ever starts, stops and queries it, so it is
 * abstracted as an observable state plus two effect functions supplied from
 * outside, and the few effects the multiplexer relies on are stated as the
 * assumption `Lawful`.
 */
module Timer {

  /** What `isTimerRunning()` and `getTimerInterval()` of one Timer report. */
  datatype TimerState = TimerState(running: bool, interval: int)

  /** A freshly constructed Timer: not running, interval 0. */
  const Idle: TimerState := TimerState(false, 0)

  /** The effects of `Timer::startTimer (n)` and `Timer::stopTimer()` on one Timer. */
  datatype Primitive = Primitive(start: (TimerState, int) -> TimerState,
                                 stop: TimerState -> TimerState)

  /**
   * The assumed behaviour of the Timer primitive:
   * starting with a positive interval runs it at that interval,
   * stopping leaves it not running, and stopping twice is stopping once.
   * Nothing is assumed about a non-positive interval or about the interval
   * a stopped timer reports.
   */
  ghost predicate Lawful(p: Primitive) {
    && (forall t: TimerState, n: int :: n > 0 ==> p.start(t, n) == TimerState(true, n))
    && (forall t: TimerState :: !p.stop(t).running)
    && (forall t: TimerState :: p.stop(p.stop(t)) == p.stop(t))
  }

  /**
   * One primitive that meets the assumptions: a stop resets the interval to 0
   * and a non-positive interval leaves the timer stopped.
   */
  const Resetting: Primitive :=
    Primitive((t: TimerState, n: int) => if n > 0 then TimerState(true, n) else TimerState(false, 0),
              (t: TimerState) => TimerState(false, 0))

  /** The assumptions can be met, so lemmas that require them are not vacuous. */
  lemma ResettingIsLawful()
    ensures Lawful(Resetting)
  {
  }

}
