# MultiTimer registry, modelled in Dafny

JUCE's `MultiTimer` lets one object run many independent timers, each named by
an integer id. It keeps an array of `MultiTimerCallback` proxies, one `Timer`
per id. A proxy is created the first time an id is started. It is restarted on
later starts and stopped by `stopTimer`, and it is never removed until the
`MultiTimer` itself is destroyed. When a proxy's timer fires, it calls the
owner's `timerCallback (int)` with its own id.

The model reduces a `MultiTimer` to its proxy list (`seq<Proxy>`, oldest
first). Every public operation becomes a pure function from one list to the
next. The wrapped `Timer` is abstract: its observable state is
`TimerState(running, interval)`, and its `startTimer`/`stopTimer` effects are
two functions in a `Primitive` value passed to the operations. The assumed
behaviour of that primitive is the predicate `Timer.Lawful`:

- starting with a positive interval `n` gives `(true, n)`;
- stopping leaves the timer not running;
- stopping twice is the same as stopping once.

Nothing is assumed about a non-positive interval, or about the interval a
stopped timer reports. A freshly constructed `Timer` is taken to be
`Idle = (false, 0)`.

Files:

- `timer.dfy` (module `Timer`): the abstract timer primitive and its assumptions, with one primitive (`Resetting`) that shows the assumptions can be met.
- `multi_timer.dfy` (module `MultiTimers`): proxies, the reverse-scan lookup, the constructors, the destructor, `startTimer`, `stopTimer`, the two queries and the firing shim.
- `multi_timer_properties.dfy` (module `MultiTimerProperties`): properties that relate operations, or that need the one-proxy-per-id invariant.
- `multi_timer_trace.dfy` (module `MultiTimerTrace`): arbitrary sequences of start/stop calls. It shows that every reachable state keeps the invariant and that proxies are only ever added.
- `multi_timer_scan.dfy` (module `MultiTimerScan`): the operations as reverse index loops, as the C++ writes them, proved equal to the functions.
- `wrappers.dfy` (module `Wrappers`): `Option`.

## Notes on the C++

- `stopTimer` (juce_MultiTimer.cpp lines 100-106) has no `return` inside its loop, so it stops every proxy with the id.
- `startTimer` and both queries return at the newest match. The contracts state exactly this without assuming ids are unique. `MultiTimerProperties.ScanOrderIrrelevant` shows that scan order makes no difference once ids are unique.
- What a stopped `Timer` reports as its interval is left to the primitive.

## Model

| member | source | states |
|---|---|---|
| MultiTimers.Find | juce/src/events/juce_MultiTimer.cpp:80-89 | the reverse scan finds nothing exactly when no proxy has the id; otherwise it finds the newest proxy with that id |
| MultiTimers.New | juce/src/events/juce_MultiTimer.cpp:61-63 | a new MultiTimer has no proxies, so every id reports not running with interval 0 |
| MultiTimers.Copy | juce/src/events/juce_MultiTimer.cpp:65-67 | copy construction takes no proxies from the original: every id reports not running with interval 0 |
| MultiTimers.Destroy | juce/src/events/juce_MultiTimer.cpp:69-73 | the destructor clears every proxy, so no id is left running and no proxy is left to fire |
| MultiTimers.StartTimer | juce/src/events/juce_MultiTimer.cpp:76-94 | a known id keeps the length and restarts only its newest proxy; an unknown id appends exactly one proxy with that id at the end, started from a fresh timer; every earlier entry keeps its id, and every entry other than the restarted one is unchanged |
| MultiTimers.StopTimer | juce/src/events/juce_MultiTimer.cpp:96-107 | the length and every id stay the same; every proxy with the id is stopped; every other proxy is untouched; uniqueness is preserved |
| MultiTimers.IsTimerRunning | juce/src/events/juce_MultiTimer.cpp:109-121 | false for an id without a proxy; otherwise the running flag of the newest proxy with the id |
| MultiTimers.GetTimerInterval | juce/src/events/juce_MultiTimer.cpp:123-135 | 0 for an id without a proxy; otherwise the interval of the newest proxy with the id |
| MultiTimerProperties.OnlyMatchIsNewestAndOldest | juce/src/events/juce_MultiTimer.cpp:80-84 | under one-proxy-per-id, the single match is both the newest and the oldest proxy with that id |
| MultiTimerProperties.ScanOrderIrrelevant | juce/src/events/juce_MultiTimer.cpp:80-89 | under one-proxy-per-id, the reverse scan and a forward scan find the same proxy |
| MultiTimerProperties.QueriesReadTheMatchingProxy | juce/src/events/juce_MultiTimer.cpp:109-135 | under one-proxy-per-id, both queries answer from whichever proxy has the id, wherever it sits in the list |
| MultiTimerProperties.StartIds | juce/src/events/juce_MultiTimer.cpp:80-93 | after a start, the ids with a proxy are the old ids plus the started one |
| MultiTimerProperties.StartKeepsUnique | juce/src/events/juce_MultiTimer.cpp:80-93 | a start keeps at most one proxy per id, because it appends only when the scan found no match |
| MultiTimerProperties.StartState | juce/src/events/juce_MultiTimer.cpp:80-93 | the id's timer state after a start is the primitive's start applied to its state before (a fresh timer when the id had no proxy) |
| MultiTimerProperties.StartThenQuery | juce/src/events/juce_MultiTimer.cpp:76-94 | after a start with a positive interval, the id is running at exactly that interval |
| MultiTimerProperties.StartLeavesOtherIds | juce/src/events/juce_MultiTimer.cpp:80-93 | starting one id changes neither query for any other id |
| MultiTimerProperties.RestartReusesProxy | juce/src/events/juce_MultiTimer.cpp:80-89 | a second start of the same id adds no proxy, keeps uniqueness, and leaves the id at the new interval |
| MultiTimerProperties.StopUnknownIsNoop | juce/src/events/juce_MultiTimer.cpp:100-106 | stopping an id that has no proxy leaves the MultiTimer unchanged |
| MultiTimerProperties.StopThenNotRunning | juce/src/events/juce_MultiTimer.cpp:96-107 | after a stop the id reports not running |
| MultiTimerProperties.StopIsIdempotent | juce/src/events/juce_MultiTimer.cpp:96-107 | stopping twice gives the same state as stopping once |
| MultiTimerProperties.StopLeavesOtherIds | juce/src/events/juce_MultiTimer.cpp:100-106 | stopping one id changes neither query for any other id |
| MultiTimers.Fire | juce/src/events/juce_MultiTimer.cpp:49-52 | when the proxy at a given index fires, the owner's callback receives the id whose lookup finds that proxy |
| MultiTimerProperties.FiringRoutesToOwnProxy | juce/src/events/juce_MultiTimer.cpp:49-52 | under one-proxy-per-id, the id a firing proxy delivers looks up exactly the proxy that fired |
| MultiTimerProperties.TwoTimersIndependent | juce/src/events/juce_MultiTimer.cpp:76-135 | starting ids 1 at 10 and 2 at 20 on a new MultiTimer gives two proxies; each id reports running at its own interval |
| MultiTimerTrace.RunKeepsUnique | juce/src/events/juce_MultiTimer.cpp:76-107 | any sequence of starts and stops keeps at most one proxy per id |
| MultiTimerTrace.RunIds | juce/src/events/juce_MultiTimer.cpp:91-93 | after any sequence of calls, the ids with a proxy are the initial ids plus every id ever started |
| MultiTimerTrace.RunNeverRemoves | juce/src/events/juce_MultiTimer.cpp:76-107 | no call removes or reorders a proxy: the old list survives, id by id, as a prefix |
| MultiTimerTrace.ReachableIsUnique | juce/src/events/juce_MultiTimer.cpp:61-94 | every state reachable from a new MultiTimer has at most one proxy per id |
| MultiTimerTrace.NeverStartedIsQuiet | juce/src/events/juce_MultiTimer.cpp:109-135 | from a new MultiTimer, an id never started reports not running with interval 0, whatever else was called |
| MultiTimerScan.StartTimerScan | juce/src/events/juce_MultiTimer.cpp:76-94 | the reverse index loop with early return computes exactly StartTimer |
| MultiTimerScan.StopTimerScan | juce/src/events/juce_MultiTimer.cpp:96-107 | the reverse index loop without early return computes exactly StopTimer |
| MultiTimerScan.IsTimerRunningScan | juce/src/events/juce_MultiTimer.cpp:109-121 | the reverse index loop computes exactly IsTimerRunning |
| MultiTimerScan.GetTimerIntervalScan | juce/src/events/juce_MultiTimer.cpp:123-135 | the reverse index loop computes exactly GetTimerInterval |

## Left out

- `ScopedLock` and `timerListLock`: each operation runs entirely under the lock, so each is one atomic step here. Concurrent callers and the timer thread are not modelled.
- The `Timer` base class (`juce_Timer.cpp` is not part of this model). Scheduling, the firing thread and the real start/stop effects are replaced by the `Primitive` parameter and the `Lawful` assumptions. A non-positive interval and the interval of a stopped timer stay unspecified. A fresh `Timer` is assumed to be `Idle`.
- When a timer fires: the model does not say when the primitive fires. `MultiTimers.Fire` only models what a firing proxy does: it calls the owner with its id.
- The owner's `timerCallback (int)` override is user code. `Fire` takes it as a parameter.
- Memory management of the proxy array (`OwnedArray`, `new`, `getUnchecked`, deletion) is replaced by a `seq` of values. The empty proxy destructor is not modelled.
- Integer width: ids and intervals are C++ `int`, but they are only compared and stored, never computed, so unbounded `int` loses nothing.
