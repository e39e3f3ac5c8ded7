/**
 * One DoomBench session: the locals of the game loop as the fields of a
 * class, and each piece of a frame as a method that changes them in place.
 * The clock, the frame-rate meter, the event queue, the keyboard, the random
 * generator, the pursuit step and the rectangle test are not part of the
 * session: their readings come in as parameters.
 */
module Game {
  import opened Entities
  import opened Passes
  import opened LoopControl

  /** Movement keys held in a frame; each is the arrow key or its letter (A, D, W, S). */
  datatype Keys = Keys(left: bool, right: bool, up: bool, down: bool)

  /** The events a frame reacts to.  A mouse press carries its button, its
      position, the clock reading when it is handled, and the velocity a bullet
      fired now would get (aimed at the mouse from the player's centre).  A
      spawn-timer event carries the random draws for the enemies it creates,
      the k-th enemy from draw k. */
  datatype Event =
    | MouseDown(button: int, pos: (int, int), ticks: int, velocity: (real, real))
    | SpawnTimer(draws: nat -> SpawnDraw)
    | OtherEvent

  /** The pause button is the rectangle at (Width - 110, 10) of size 100 x 40.
      A rectangle contains the points from its left edge up to, but not
      including, left + width (and likewise vertically), so the button covers
      exactly the pixels (Width - 110, 10) to (Width - 11, 49). */
  predicate OnPauseButton(pos: (int, int))
  {
    Width - 110 <= pos.0 < Width - 110 + 100 && 10 <= pos.1 < 10 + 40
  }

  /** Whether an event is a click on the pause button: a press of the left
      button (button 1) inside it. */
  predicate IsPauseClick(ev: Event)
  {
    ev.MouseDown? && ev.button == 1 && OnPauseButton(ev.pos)
  }

  /** The loop's scalar state after handling one event. */
  function AfterEvent(s: LoopState, ev: Event, elapsed: int): (r: LoopState)
    ensures IsPauseClick(ev) ==> r.paused != s.paused
    ensures !IsPauseClick(ev) ==> r.paused == s.paused && r.spawnCount == s.spawnCount
    ensures Consistent(s) ==> Consistent(r)
  {
    match ev
    case MouseDown(_, _, ticks, _) => if IsPauseClick(ev) then PauseClicked(s, ticks, elapsed) else s
    case SpawnTimer(_) => SpawnTimerFired(s)
    case OtherEvent => s
  }

  /** Net horizontal (or vertical) movement for one frame: opposite keys cancel. */
  function Delta(minus: bool, plus: bool): (d: int)
    ensures minus == plus ==> d == 0
    ensures minus != plus ==> (d < 0 <==> minus) && (d == PlayerSpeed || d == -PlayerSpeed)
  {
    (if plus then PlayerSpeed else 0) - (if minus then PlayerSpeed else 0)
  }

  /** `max(0, min(hi, v))`: v pulled back into [0, hi]. */
  function Clamp(v: int, hi: nat): (r: int)
    ensures 0 <= r <= hi
    ensures 0 <= v <= hi ==> r == v
    ensures v < 0 ==> r == 0
    ensures v > hi ==> r == hi
  {
    var m := if hi < v then hi else v;
    if m < 0 then 0 else m
  }

  // ---------------------------------------------------------------- whole frames

  /** The session apart from the player: the scalar state and the two lists. */
  datatype Scene = Scene(state: LoopState, enemies: seq<Enemy>, bullets: seq<Bullet>)

  /** What one event does to the scene, for a player whose top-left corner is
      at (px, py): a spawn event seen while running appends a batch, and a
      left click that leaves the game running fires a bullet. */
  function Handled(w: Scene, ev: Event, px: int, py: int, elapsed: int): Scene
  {
    var s := AfterEvent(w.state, ev, elapsed);
    Scene(s,
          if ev.SpawnTimer? && !w.state.paused then w.enemies + Batch(ev.draws, BatchSize(w.state.spawnCount)) else w.enemies,
          if ev.MouseDown? && ev.button == 1 && !s.paused then w.bullets + [Shot(px, py, ev.velocity.0, ev.velocity.1)] else w.bullets)
  }

  /** The events of one frame, handled in queue order. */
  function HandledAll(w: Scene, evs: seq<Event>, px: int, py: int, elapsed: int): Scene
    decreases |evs|
  {
    if evs == [] then w else HandledAll(Handled(w, evs[0], px, py, elapsed), evs[1..], px, py, elapsed)
  }

  /** The scene after the part of a frame that runs whether or not the game is
      paused: the benchmark timer check, the spawn-count adjustment and the
      event queue, all with the elapsed time read at the top of the frame. */
  function FrameStart(w: Scene, now: int, fpsAboveOne: bool, evs: seq<Event>, px: int, py: int): Scene
  {
    var elapsed := now - w.state.benchmarkStart;
    var enemies := if BenchmarkEnds(w.state, elapsed) then [] else w.enemies;
    HandledAll(Scene(Adjusted(EndChecked(w.state, elapsed), now, fpsAboveOne), enemies, w.bullets), evs, px, py, elapsed)
  }

  /** The pursuit step of every enemy towards a player at (px, py). */
  function Chase(pursue: (Enemy, int, int) -> Enemy, px: int, py: int): Enemy -> Enemy
  {
    e => pursue(e, px, py)
  }

  /** The running part of a frame once the player stands at (px, py): the
      bullet pass, then the hit pass with every enemy chasing the player. */
  function Played(w: Scene, px: int, py: int, pursue: (Enemy, int, int) -> Enemy, overlap: (Enemy, Bullet) -> bool): (r: Scene)
    ensures |r.enemies| <= |w.enemies|
    ensures r.state == HitsScored(w.state, |w.enemies| - |r.enemies|)
    ensures |r.bullets| <= |w.bullets|
    ensures forall b :: b in r.bullets ==> !OffScreen(b)
    ensures forall e, b :: e in r.enemies && b in r.bullets ==> !overlap(e, b)
  {
    var step := Chase(pursue, px, py);
    var live := KeepOnScreen(w.bullets);
    var o := Resolve(w.enemies, live, step, overlap);
    ResolveLeavesNoOverlap(w.enemies, live, step, overlap);
    ResolveKeepsOrder(w.enemies, live, step, overlap);
    SubsequenceMembers(o.bullets, live);
    Scene(HitsScored(w.state, o.hits), o.enemies, o.bullets)
  }

  /** The changes an event makes to the scalar state, as steps of a run. */
  function EventStep(ev: Event, elapsed: int): seq<Step>
  {
    match ev
    case MouseDown(_, _, ticks, _) => if IsPauseClick(ev) then [PauseClick(ticks, elapsed)] else []
    case SpawnTimer(_) => [Step.SpawnTimer]
    case OtherEvent => []
  }

  function EventSteps(evs: seq<Event>, elapsed: int): seq<Step>
    decreases |evs|
  {
    if evs == [] then [] else EventStep(evs[0], elapsed) + EventSteps(evs[1..], elapsed)
  }

  /** Handling a queue of events changes the scalar state as the run of its steps does. */
  lemma {:induction false} HandledAllIsRun(w: Scene, evs: seq<Event>, px: int, py: int, elapsed: int)
    ensures HandledAll(w, evs, px, py, elapsed).state == Run(w.state, EventSteps(evs, elapsed))
    decreases |evs|
  {
    if evs != [] {
      var next := Handled(w, evs[0], px, py, elapsed);
      HandledAllIsRun(next, evs[1..], px, py, elapsed);
      RunSplits(w.state, EventStep(evs[0], elapsed), EventSteps(evs[1..], elapsed));
      assert next.state == Run(w.state, EventStep(evs[0], elapsed));
    }
  }

  /** The start of every frame is a run of the loop's steps: the end check,
      the adjustment, then one step per pause click and spawn event.  So
      everything proved about runs (the spawn-count floor, consistency) holds
      frame after frame. */
  lemma FrameStartIsRun(w: Scene, now: int, fpsAboveOne: bool, evs: seq<Event>, px: int, py: int)
    ensures var elapsed := now - w.state.benchmarkStart;
            FrameStart(w, now, fpsAboveOne, evs, px, py).state
              == Run(w.state, [EndCheck(elapsed), Adjust(now, fpsAboveOne)] + EventSteps(evs, elapsed))
  {
    var elapsed := now - w.state.benchmarkStart;
    var first := [EndCheck(elapsed), Adjust(now, fpsAboveOne)];
    var enemies := if BenchmarkEnds(w.state, elapsed) then [] else w.enemies;
    var s := Scene(Adjusted(EndChecked(w.state, elapsed), now, fpsAboveOne), enemies, w.bullets);
    HandledAllIsRun(s, evs, px, py, elapsed);
    RunSplits(w.state, first, EventSteps(evs, elapsed));
    var ended := EndChecked(w.state, elapsed);
    assert first[1..] == [Adjust(now, fpsAboveOne)];
    assert Run(w.state, first) == Run(ended, [Adjust(now, fpsAboveOne)]);
    assert Run(ended, [Adjust(now, fpsAboveOne)]) == Run(s.state, []);
  }

  /** The inner loop of the hit pass: the first bullet of bs that e overlaps. */
  method FindFirstHit(e: Enemy, bs: seq<Bullet>, overlap: (Enemy, Bullet) -> bool) returns (r: Option<nat>)
    ensures r == FirstOverlap(e, bs, overlap)
  {
    var i := 0;
    while i < |bs|
      invariant 0 <= i <= |bs|
      invariant forall k :: 0 <= k < i ==> !overlap(e, bs[k])
    {
      if overlap(e, bs[i]) {
        return Some(i);
      }
      i := i + 1;
    }
    return None;
  }

  class Session {
    var playerX: int
    var playerY: int
    var bullets: seq<Bullet>
    var enemies: seq<Enemy>
    var paused: bool
    var benchmarkDone: bool
    var benchmarkStart: int
    var lastAdjust: int
    var spawnCount: int
    var totalSpawned: int

    /** The scalar fields as a value. */
    function State(): LoopState
      reads this
    {
      LoopState(paused, benchmarkDone, benchmarkStart, lastAdjust, spawnCount, totalSpawned)
    }

    /** The fields other than the player's position as a value. */
    function CurrentScene(): Scene
      reads this
    {
      Scene(State(), enemies, bullets)
    }

    /** The session invariant: the scalar state is consistent, the player is
        inside the arena, and every live bullet is on screen. */
    ghost predicate Valid()
      reads this
    {
      && Consistent(State())
      && InArena(playerX, playerY)
      && forall b :: b in bullets ==> !OffScreen(b)
    }

    /** The start of the game loop: the player in the middle, no bullets or
        enemies, a spawn count of 1, the benchmark running.  The start time and
        the adjustment time are two separate clock readings. */
    constructor (startTicks: int, adjustTicks: int)
      ensures Valid()
      ensures State() == Initial(startTicks, adjustTicks)
      ensures playerX == Width / 2 && playerY == Height / 2
      ensures bullets == [] && enemies == []
    {
      playerX, playerY := Width / 2, Height / 2;
      bullets, enemies := [], [];
      spawnCount, totalSpawned := InitialSpawnCount, 0;
      paused := false;
      benchmarkDone := false;
      benchmarkStart := startTicks;
      lastAdjust := adjustTicks;
    }

    /** The benchmark timer check at the top of a frame.  When it fires it
        shows the results and clears the enemies; bullets and counters stay. */
    method CheckBenchmarkEnd(elapsed: int)
      requires Valid()
      modifies this`paused, this`benchmarkDone, this`enemies
      ensures Valid()
      ensures State() == EndChecked(old(State()), elapsed)
      ensures enemies == if BenchmarkEnds(old(State()), elapsed) then [] else old(enemies)
    {
      if !benchmarkDone && elapsed >= BenchmarkDuration {
        paused := true;
        benchmarkDone := true;
        enemies := [];
      }
    }

    /** The adaptive spawn-count adjustment, run in every frame. */
    method AdjustSpawnCount(now: int, fpsAboveOne: bool)
      requires Valid()
      modifies this`lastAdjust, this`spawnCount
      ensures Valid()
      ensures State() == Adjusted(old(State()), now, fpsAboveOne)
    {
      if now - lastAdjust > SpawnAdjustInterval {
        lastAdjust := now;
        if fpsAboveOne {
          spawnCount := spawnCount + SpawnBoost;
        } else {
          spawnCount := if MinSpawnCount > spawnCount - SpawnCut then MinSpawnCount else spawnCount - SpawnCut;
        }
      }
    }

    /** A click on the pause button: toggles the pause; pausing a running
        benchmark rebases its start, resuming from the results restarts it. */
    method TogglePause(ticks: int, elapsed: int)
      requires Valid()
      modifies this`paused, this`benchmarkDone, this`benchmarkStart, this`totalSpawned, this`spawnCount
      ensures Valid()
      ensures State() == PauseClicked(old(State()), ticks, elapsed)
    {
      paused := !paused;
      if paused && !benchmarkDone {
        benchmarkStart := ticks - elapsed;
      }
      if !paused && benchmarkDone {
        benchmarkDone := false;
        benchmarkStart := ticks;
        totalSpawned := 0;
        spawnCount := InitialSpawnCount;
      }
    }

    /** The spawn-timer event: unless paused, one enemy per unit of the spawn count. */
    method SpawnEnemies(draws: nat -> SpawnDraw)
      requires Valid()
      modifies this`enemies, this`totalSpawned
      ensures Valid()
      ensures State() == SpawnTimerFired(old(State()))
      ensures enemies == if old(paused) then old(enemies) else old(enemies) + Batch(draws, BatchSize(old(spawnCount)))
    {
      if !paused {
        for k := 0 to spawnCount
          invariant enemies == old(enemies) + Batch(draws, k)
          invariant totalSpawned == old(totalSpawned) + k
        {
          assert Batch(draws, k + 1) == Batch(draws, k) + [Place(draws(k))];
          enemies := enemies + [Place(draws(k))];
          totalSpawned := totalSpawned + 1;
        }
      }
    }

    /** A left click while running: a bullet from the player's centre. */
    method Fire(dx: real, dy: real)
      requires Valid()
      modifies this`bullets
      ensures Valid()
      ensures bullets == old(bullets) + [Shot(playerX, playerY, dx, dy)]
    {
      bullets := bullets + [Shot(playerX, playerY, dx, dy)];
    }

    /** One event from the queue.  The pause check comes first, so the click
        that resumes the game also fires a bullet. */
    method HandleEvent(ev: Event, elapsed: int)
      requires Valid()
      modifies this
      ensures Valid()
      ensures CurrentScene() == Handled(old(CurrentScene()), ev, playerX, playerY, elapsed)
      ensures playerX == old(playerX) && playerY == old(playerY)
    {
      if IsPauseClick(ev) {
        TogglePause(ev.ticks, elapsed);
      }
      if !paused {
        match ev
        case SpawnTimer(draws) =>
          SpawnEnemies(draws);
        case MouseDown(button, _, _, velocity) =>
          if button == 1 {
            Fire(velocity.0, velocity.1);
          }
        case OtherEvent =>
      }
    }

    /** Keyboard movement, clamped to the arena. */
    method MovePlayer(keys: Keys)
      requires Valid()
      modifies this`playerX, this`playerY
      ensures Valid()
      ensures playerX == Clamp(old(playerX) + Delta(keys.left, keys.right), MaxPlayerX)
      ensures playerY == Clamp(old(playerY) + Delta(keys.up, keys.down), MaxPlayerY)
    {
      if keys.left {
        playerX := playerX - PlayerSpeed;
      }
      if keys.right {
        playerX := playerX + PlayerSpeed;
      }
      if keys.up {
        playerY := playerY - PlayerSpeed;
      }
      if keys.down {
        playerY := playerY + PlayerSpeed;
      }
      playerX := Clamp(playerX, MaxPlayerX);
      playerY := Clamp(playerY, MaxPlayerY);
    }

    /** The bullet pass over a snapshot of the list: each bullet moves where it
        stands in the live list and is removed from it if it left the arena. */
    method UpdateBullets()
      requires Valid()
      modifies this`bullets
      ensures Valid()
      ensures bullets == KeepOnScreen(old(bullets))
    {
      var snapshot := bullets;
      var working := snapshot;
      var kept: seq<Bullet> := [];
      for i := 0 to |snapshot|
        invariant working == kept + snapshot[i..]
        invariant KeepOnScreen(snapshot) == kept + KeepOnScreen(snapshot[i..])
      {
        var b := Advance(snapshot[i]);
        UpdateAtTurn(kept, snapshot, i, b);
        KeepOnScreenTurn(kept, snapshot, i);
        working := working[|kept| := b];
        if OffScreen(b) {
          working := Remove(working, |kept|);
        } else {
          kept := kept + [b];
        }
      }
      assert snapshot[|snapshot|..] == [];
      bullets := working;
    }

    /** The hit pass over a snapshot of the enemies: each enemy takes its
        pursuit step where it stands in the live list, then is compared with
        the live bullets in order; on the first overlap the enemy and the
        bullet are removed and the spawn count goes up by one.  The live lists
        and the count are worked on as locals and stored back at the end. */
    method ResolveCollisions(step: Enemy -> Enemy, overlap: (Enemy, Bullet) -> bool)
      modifies this`enemies, this`bullets, this`spawnCount
      ensures var r := Resolve(old(enemies), old(bullets), step, overlap);
              && enemies == r.enemies
              && bullets == r.bullets
              && spawnCount == old(spawnCount) + r.hits
    {
      var snapshot, live, count := enemies, bullets, spawnCount;
      ghost var total := Resolve(snapshot, live, step, overlap);
      var kept: seq<Enemy> := [];
      var working := snapshot;
      ghost var hits: nat := 0;
      for i := 0 to |snapshot|
        invariant working == kept + snapshot[i..]
        invariant count == old(spawnCount) + hits
        invariant Remaining(total, kept, hits, snapshot[i..], live, step, overlap)
      {
        var e := step(snapshot[i]);
        UpdateAtTurn(kept, snapshot, i, e);
        working := working[|kept| := e];
        var hit := FindFirstHit(e, live, overlap);
        TurnKeepsRemaining(total, kept, hits, snapshot, i, live, hit, step, overlap);
        if hit.Some? {
          working := Remove(working, |kept|);
          live := Remove(live, hit.value);
          count := count + 1;
          hits := hits + 1;
        } else {
          kept := kept + [e];
        }
      }
      assert snapshot[|snapshot|..] == [];
      enemies, bullets, spawnCount := working, live, count;
    }

    /** The part of a frame that runs whether or not the game is paused: the
        benchmark timer check, the spawn-count adjustment, then every queued
        event in order, all with the elapsed time read at the top. */
    method BeginFrame(now: int, fpsAboveOne: bool, events: seq<Event>)
      requires Valid()
      modifies this
      ensures Valid()
      ensures playerX == old(playerX) && playerY == old(playerY)
      ensures CurrentScene() == FrameStart(old(CurrentScene()), now, fpsAboveOne, events, playerX, playerY)
    {
      var elapsed := now - benchmarkStart;
      CheckBenchmarkEnd(elapsed);
      AdjustSpawnCount(now, fpsAboveOne);
      ghost var begun := CurrentScene();
      assert events[0..] == events;
      for k := 0 to |events|
        invariant Valid()
        invariant playerX == old(playerX) && playerY == old(playerY)
        invariant HandledAll(begun, events, playerX, playerY, elapsed)
                    == HandledAll(CurrentScene(), events[k..], playerX, playerY, elapsed)
      {
        assert events[k..][1..] == events[k + 1..];
        HandleEvent(events[k], elapsed);
      }
      assert events[|events|..] == [];
    }

    /** The running part of a frame: movement, the bullet pass and the hit
        pass, with the enemies chasing the player where it has just moved to. */
    method Play(keys: Keys, pursue: (Enemy, int, int) -> Enemy, overlap: (Enemy, Bullet) -> bool)
      requires Valid()
      modifies this`playerX, this`playerY, this`bullets, this`enemies, this`spawnCount
      ensures Valid()
      ensures playerX == Clamp(old(playerX) + Delta(keys.left, keys.right), MaxPlayerX)
      ensures playerY == Clamp(old(playerY) + Delta(keys.up, keys.down), MaxPlayerY)
      ensures CurrentScene() == Played(old(CurrentScene()), playerX, playerY, pursue, overlap)
    {
      MovePlayer(keys);
      UpdateBullets();
      ghost var es, bs := enemies, bullets;
      var step := Chase(pursue, playerX, playerY);
      ResolveCollisions(step, overlap);
      ResolveKeepsOrder(es, bs, step, overlap);
      SubsequenceMembers(bullets, bs);
    }

    /** One frame of the game loop: the part that always runs, then, unless
        the game is now paused, the running part. */
    method Frame(now: int, fpsAboveOne: bool, events: seq<Event>, keys: Keys,
                 pursue: (Enemy, int, int) -> Enemy, overlap: (Enemy, Bullet) -> bool)
      requires Valid()
      modifies this
      ensures Valid()
      ensures var start := FrameStart(old(CurrentScene()), now, fpsAboveOne, events, old(playerX), old(playerY));
              if start.state.paused then
                CurrentScene() == start && playerX == old(playerX) && playerY == old(playerY)
              else
                && playerX == Clamp(old(playerX) + Delta(keys.left, keys.right), MaxPlayerX)
                && playerY == Clamp(old(playerY) + Delta(keys.up, keys.down), MaxPlayerY)
                && CurrentScene() == Played(start, playerX, playerY, pursue, overlap)
      ensures !paused ==> forall e, b :: e in enemies && b in bullets ==> !overlap(e, b)
    {
      BeginFrame(now, fpsAboveOne, events);
      if !paused {
        Play(keys, pursue, overlap);
      }
    }
  }
}
