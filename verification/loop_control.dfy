/**
 * The scalar state of the game loop — the pause and benchmark flags, the
 * benchmark's start timestamp, and the adaptive spawn controller — as a value,
 * with one function per thing the loop does to it.  The session's methods are
 * proved to change their fields exactly as these functions say; the lemmas
 * here follow the state over whole runs of frames and clicks.
 */
module LoopControl {

  /** A benchmark run lasts this many milliseconds. */
  const BenchmarkDuration: int := 30_000
  /** The spawn count is adjusted only when more than this many milliseconds passed since the last adjustment. */
  const SpawnAdjustInterval: int := 1
  /** The spawn count never goes below this floor. */
  const MinSpawnCount: int := 1
  /** The spawn count a session and a restarted benchmark begin with. */
  const InitialSpawnCount: int := 1
  /** What one adjustment adds when the frame rate is above 1, and cuts when it is not. */
  const SpawnBoost: int := 1000
  const SpawnCut: int := 450

  /** The loop's scalar locals: whether the game is paused, whether the
      benchmark has ended (results are shown), when the benchmark started,
      when the spawn count was last adjusted, the number of enemies per spawn
      event, and the number of enemies spawned since the benchmark started. */
  datatype LoopState = LoopState(
    paused: bool,
    benchmarkDone: bool,
    benchmarkStart: int,
    lastAdjust: int,
    spawnCount: int,
    totalSpawned: int)

  /** What holds of every state the loop reaches: the spawn count is at its
      floor or above, the spawn total is not negative, and the results are only
      ever shown while paused. */
  ghost predicate Consistent(s: LoopState)
  {
    s.spawnCount >= MinSpawnCount && s.totalSpawned >= 0 && (s.benchmarkDone ==> s.paused)
  }

  /** The state when the loop starts: running, with start and adjustment times read from the clock. */
  function Initial(startTicks: int, adjustTicks: int): (s: LoopState)
    ensures Consistent(s) && !s.paused && !s.benchmarkDone
    ensures s.totalSpawned == 0
  {
    LoopState(false, false, startTicks, adjustTicks, InitialSpawnCount, 0)
  }

  // ---------------------------------------------------------------- spawn controller

  /** The bang-bang controller: a big step up while the frame rate is above 1,
      otherwise a smaller step down, never below the floor. */
  function NextSpawnCount(count: int, fpsAboveOne: bool): (r: int)
    ensures count >= MinSpawnCount ==> r >= MinSpawnCount
    ensures count >= MinSpawnCount ==> (r > count <==> fpsAboveOne)
    ensures fpsAboveOne ==> r - count == SpawnBoost
    ensures !fpsAboveOne ==> r == MinSpawnCount || r == count - SpawnCut
    ensures !fpsAboveOne ==> r >= count - SpawnCut && r >= MinSpawnCount
  {
    if fpsAboveOne then count + SpawnBoost
    else if count - SpawnCut > MinSpawnCount then count - SpawnCut
    else MinSpawnCount
  }

  /** Whether the adjustment runs in a frame whose clock reads `now`. */
  predicate AdjustDue(s: LoopState, now: int)
  {
    now - s.lastAdjust > SpawnAdjustInterval
  }

  /** The per-frame adjustment.  It is not guarded by the pause flag: it runs
      in every frame, paused or not. */
  function Adjusted(s: LoopState, now: int, fpsAboveOne: bool): (r: LoopState)
    ensures AdjustDue(s, now) ==> r.lastAdjust == now && r.spawnCount == NextSpawnCount(s.spawnCount, fpsAboveOne)
    ensures !AdjustDue(s, now) ==> r == s
    ensures r.(lastAdjust := s.lastAdjust, spawnCount := s.spawnCount) == s
    ensures Consistent(s) ==> Consistent(r)
  {
    if AdjustDue(s, now) then s.(lastAdjust := now, spawnCount := NextSpawnCount(s.spawnCount, fpsAboveOne))
    else s
  }

  /** A run of frames that all read the same frame-rate verdict, at the given clock readings. */
  function Adjustments(s: LoopState, times: seq<int>, fpsAboveOne: bool): LoopState
    decreases |times|
  {
    if times == [] then s else Adjustments(Adjusted(s, times[0], fpsAboveOne), times[1..], fpsAboveOne)
  }

  /** Each clock reading is more than the adjustment interval after the one before it. */
  predicate SpacedOut(last: int, times: seq<int>)
    decreases |times|
  {
    times == [] || (times[0] - last > SpawnAdjustInterval && SpacedOut(times[0], times[1..]))
  }

  /** While the frame rate stays above 1, the spawn count never shrinks. */
  lemma {:induction false} FastFramesNeverShrink(s: LoopState, times: seq<int>)
    ensures Adjustments(s, times, true).spawnCount >= s.spawnCount
    decreases |times|
  {
    if times != [] {
      FastFramesNeverShrink(Adjusted(s, times[0], true), times[1..]);
    }
  }

  /** While the frame rate stays above 1 and frames are more than 1 ms apart,
      every frame adds exactly the boost. */
  lemma {:induction false} FastFramesBoostEachFrame(s: LoopState, times: seq<int>)
    requires SpacedOut(s.lastAdjust, times)
    ensures Adjustments(s, times, true).spawnCount == s.spawnCount + SpawnBoost * |times|
    decreases |times|
  {
    if times != [] {
      FastFramesBoostEachFrame(Adjusted(s, times[0], true), times[1..]);
    }
  }

  /** While the frame rate stays at or below 1, the spawn count never grows
      and never drops below the floor. */
  lemma {:induction false} SlowFramesShrinkToFloor(s: LoopState, times: seq<int>)
    requires s.spawnCount >= MinSpawnCount
    ensures MinSpawnCount <= Adjustments(s, times, false).spawnCount <= s.spawnCount
    decreases |times|
  {
    if times != [] {
      SlowFramesShrinkToFloor(Adjusted(s, times[0], false), times[1..]);
    }
  }

  // ---------------------------------------------------------------- benchmark and pause

  /** Whether the automatic end of the benchmark fires in a frame with the given elapsed time. */
  predicate BenchmarkEnds(s: LoopState, elapsed: int)
  {
    !s.benchmarkDone && elapsed >= BenchmarkDuration
  }

  /** The automatic end of the benchmark.  It is not guarded by the pause
      flag: it fires during a manual pause as well. */
  function EndChecked(s: LoopState, elapsed: int): (r: LoopState)
    ensures r.benchmarkDone && !s.benchmarkDone ==> elapsed >= BenchmarkDuration
    ensures !s.benchmarkDone && elapsed >= BenchmarkDuration ==> r.paused && r.benchmarkDone
    ensures r.(paused := s.paused, benchmarkDone := s.benchmarkDone) == s
    ensures !BenchmarkEnds(s, elapsed) ==> r == s
    ensures Consistent(s) ==> Consistent(r)
  {
    if BenchmarkEnds(s, elapsed) then s.(paused := true, benchmarkDone := true) else s
  }

  /** A click on the pause button, handled when the clock reads `ticks`, in a
      frame whose elapsed time was computed as `elapsed`. */
  function PauseClicked(s: LoopState, ticks: int, elapsed: int): (r: LoopState)
    ensures r.paused == !s.paused
    ensures r.lastAdjust == s.lastAdjust
    ensures Consistent(s) ==> Consistent(r)
    // pausing a running benchmark only rebases its start
    ensures !s.paused && !s.benchmarkDone ==> r == s.(paused := true, benchmarkStart := ticks - elapsed)
    // resuming from a manual pause changes nothing else
    ensures s.paused && !s.benchmarkDone ==> r == s.(paused := false)
    // resuming from the results restarts the benchmark
    ensures s.paused && s.benchmarkDone ==>
              r == s.(paused := false, benchmarkDone := false, benchmarkStart := ticks,
                      spawnCount := InitialSpawnCount, totalSpawned := 0)
    ensures !s.paused && s.benchmarkDone ==> r == s.(paused := true)
  {
    var p := s.(paused := !s.paused);
    var q := if p.paused && !p.benchmarkDone then p.(benchmarkStart := ticks - elapsed) else p;
    if !q.paused && q.benchmarkDone then
      q.(benchmarkDone := false, benchmarkStart := ticks, totalSpawned := 0, spawnCount := InitialSpawnCount)
    else q
  }

  /** How many enemies `for _ in range(count)` creates. */
  function BatchSize(count: int): nat
  {
    if count > 0 then count else 0
  }

  /** The periodic spawn event: unless paused, it adds a batch of the current size to the total. */
  function SpawnTimerFired(s: LoopState): (r: LoopState)
    ensures !s.paused ==> r.totalSpawned == s.totalSpawned + BatchSize(s.spawnCount)
    ensures s.paused ==> r == s
    ensures r.(totalSpawned := s.totalSpawned) == s
    ensures Consistent(s) ==> Consistent(r)
  {
    if s.paused then s else s.(totalSpawned := s.totalSpawned + BatchSize(s.spawnCount))
  }

  /** The hit pass: every enemy shot down adds one to the spawn count. */
  function HitsScored(s: LoopState, hits: nat): (r: LoopState)
    ensures r.spawnCount == s.spawnCount + hits
    ensures r.(spawnCount := s.spawnCount) == s
    ensures Consistent(s) ==> Consistent(r)
  {
    s.(spawnCount := s.spawnCount + hits)
  }

  // ---------------------------------------------------------------- whole runs

  /** Everything that changes the loop's scalar state. */
  datatype Step =
    | Adjust(now: int, fpsAboveOne: bool)
    | EndCheck(elapsed: int)
    | PauseClick(ticks: int, frameElapsed: int)
    | SpawnTimer
    | Hits(count: nat)

  function Apply(s: LoopState, step: Step): LoopState
  {
    match step
    case Adjust(now, fast) => Adjusted(s, now, fast)
    case EndCheck(elapsed) => EndChecked(s, elapsed)
    case PauseClick(ticks, elapsed) => PauseClicked(s, ticks, elapsed)
    case SpawnTimer => SpawnTimerFired(s)
    case Hits(n) => HitsScored(s, n)
  }

  function Run(s: LoopState, steps: seq<Step>): LoopState
    decreases |steps|
  {
    if steps == [] then s else Run(Apply(s, steps[0]), steps[1..])
  }

  /** A run of two stretches of steps is the second run from where the first ended. */
  lemma {:induction false} RunSplits(s: LoopState, first: seq<Step>, second: seq<Step>)
    ensures Run(s, first + second) == Run(Run(s, first), second)
    decreases |first|
  {
    if first != [] {
      assert (first + second)[0] == first[0];
      assert (first + second)[1..] == first[1..] + second;
      RunSplits(Apply(s, first[0]), first[1..], second);
    } else {
      assert first + second == second;
    }
  }

  /** Every step keeps the state consistent, so every run does. */
  lemma {:induction false} RunStaysConsistent(s: LoopState, steps: seq<Step>)
    requires Consistent(s)
    ensures Consistent(Run(s, steps))
    decreases |steps|
  {
    if steps != [] {
      RunStaysConsistent(Apply(s, steps[0]), steps[1..]);
    }
  }

  /** Whatever happens after the loop starts, the spawn count is never below
      the floor and results are shown only while paused. */
  lemma SpawnCountNeverBelowFloor(startTicks: int, adjustTicks: int, steps: seq<Step>)
    ensures Run(Initial(startTicks, adjustTicks), steps).spawnCount >= MinSpawnCount
    ensures var s := Run(Initial(startTicks, adjustTicks), steps); s.benchmarkDone ==> s.paused
  {
    RunStaysConsistent(Initial(startTicks, adjustTicks), steps);
  }

  /** A manual pause does not stop the benchmark clock.  Pausing in a frame
      whose clock read `frameTime` moves the start only by the time between
      that reading and the handling of the click; resuming moves nothing.  So
      the elapsed time read later, at `later`, includes the whole pause. */
  lemma PauseDoesNotStopClock(s: LoopState, frameTime: int, pauseTicks: int, resumeTicks: int, resumeElapsed: int, later: int)
    requires !s.paused && !s.benchmarkDone
    ensures var paused := PauseClicked(s, pauseTicks, frameTime - s.benchmarkStart);
            var resumed := PauseClicked(paused, resumeTicks, resumeElapsed);
            && !resumed.paused && !resumed.benchmarkDone
            && later - resumed.benchmarkStart == (later - s.benchmarkStart) - (pauseTicks - frameTime)
  {
  }

  /** The benchmark times out during a manual pause too, and the click meant
      to resume then restarts the benchmark from scratch instead. */
  lemma LongPauseRestarts(s: LoopState, elapsed: int, ticks: int, clickElapsed: int)
    requires s.paused && !s.benchmarkDone && elapsed >= BenchmarkDuration
    ensures var ended := EndChecked(s, elapsed);
            var clicked := PauseClicked(ended, ticks, clickElapsed);
            && ended.benchmarkDone
            && !clicked.paused && !clicked.benchmarkDone
            && clicked.totalSpawned == 0 && clicked.spawnCount == InitialSpawnCount
            && clicked.benchmarkStart == ticks
  {
  }
}
