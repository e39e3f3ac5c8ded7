# DoomBench game loop, modelled in Dafny

DoomBench is a small top-down shooter used as a frame-rate benchmark. The
player moves a square around an 800 x 600 arena and shoots at enemies, which
appear just beyond the edges and chase the player. A spawn timer adds a batch
of enemies every two seconds. The batch size is the *spawn count*, which a
bang-bang controller moves every frame: up by 1000 while the frame rate is
above 1, otherwise down by 450, never below 1. Every enemy shot down also adds
one to the spawn count. After 30 seconds the benchmark ends: the game pauses,
the enemies are cleared and the results are shown. The next click on the
pause button restarts the benchmark.

This project models `game_loop` in `doombench.py` together with the parts of
`Bullet` and `Enemy` the loop relies on. The model has four modules:

- `Entities` (`entities.dfy`) holds the arena constants, bullets, enemies and
  enemy placement. Bullets and enemies are values. A random draw is a
  `SpawnDraw`: a side, plus an offset within the range `randint` would use.
- `Passes` (`passes.dfy`) states the two list passes of a running frame as
  functions on sequences:
  - `KeepOnScreen`, the bullet pass;
  - `Resolve`, the hit pass.

  It also proves what these passes keep: order, no overlap left behind, and
  the counts.
- `LoopControl` (`loop_control.dfy`) holds the loop's scalar state as a
  `LoopState` value: the pause flag, the benchmark flag and start time, the
  last adjustment time, the spawn count and the spawn total. There is one
  function per thing the loop does to that state, and lemmas follow the state
  over whole runs.
- `Game` (`game.dfy`) holds the `Session` class. Its fields are the loop's
  locals, and its methods are the pieces of one frame, which change those
  fields in place. Each method is proved to change the fields exactly as the
  functions above say. `Frame` runs one whole iteration of the loop. Its
  contract gives the whole new session as a function of the old one:
  - `FrameStart` covers the part that runs even while paused (the timer check,
    the adjustment and the events);
  - `Played` covers the running part (the bullet pass and the hit pass).

  `Frame` also keeps the session invariant `Valid`:
  - the state is consistent;
  - the player is inside the arena;
  - no live bullet is off screen.

The clock readings, the frame-rate verdict, the event queue, the held keys, the
random draws, a bullet's velocity, the enemies' pursuit step and the rectangle
overlap test all come in as parameters.

The model follows the code exactly, including three behaviours a player might not expect:

- A manual pause does not stop the benchmark clock. Pausing rebases the start
  time only by the few milliseconds between the frame's clock reading and the
  handling of the click. Resuming does not rebase it at all. So the time spent
  paused counts towards the 30 seconds (`PauseDoesNotStopClock`).
- The 30-second check and the spawn-count adjustment run in paused frames too.
  A long manual pause therefore ends the benchmark, and the click meant to
  resume restarts it from scratch (`LongPauseRestarts`).
- The click that resumes the game also fires a bullet. The pause toggle is
  handled before the `if not paused` block of the same event
  (`Game.Session.HandleEvent`).

## Model

| member | source | states |
|---|---|---|
| Entities.Shot | doombench.py:188-194 | a bullet fired by a player inside the arena starts on screen, at the player's centre, with the velocity it was aimed with |
| Entities.FlightIsUniform | doombench.py:39-41 | after n updates (`Advance`, the model of `Bullet.update`) a bullet has moved exactly n times its velocity, which never changes: straight line, constant speed |
| Entities.Place | doombench.py:52-67 | a new enemy lies on the spawn ring; it is outside the arena on exactly one axis, that axis is fixed by the chosen side, and it is above the arena exactly for 'top' and left of it exactly for 'left' |
| Entities.PlaceCovers | doombench.py:52-67 | every place on the spawn ring is produced by some draw the generator can make |
| Entities.Batch | doombench.py:183-186 | a spawn event of n enemies creates exactly n enemies, all on the spawn ring |
| Passes.Remove | doombench.py:228-229 | removing the element at index j leaves one element fewer: those before j in place, those after j shifted down by one |
| Passes.KeepOnScreen | doombench.py:214-217 | the bullet pass never adds bullets, and every bullet it keeps lies inside the closed arena [0, 800] x [0, 600] after its move, the complement of `OffScreen` (the model of `Bullet.off_screen`, doombench.py:46-47) |
| Passes.KeepOnScreenKeepsOrder | doombench.py:214-217 | the bullets kept are moved bullets, in their original order |
| Passes.KeepOnScreenKeepsVisible | doombench.py:214-217 | a bullet still on screen after its move is among the survivors |
| Passes.KeepOnScreenCounts | doombench.py:214-217 | the pass drops exactly the bullets that left the arena: each moved bullet on screen keeps its multiplicity, even when several bullets are equal, and each off-screen one has none left |
| Passes.KeepOnScreenMoved | doombench.py:214-217 | every bullet the bullet pass keeps is an input bullet after one update |
| Passes.SurvivorsFlew | doombench.py:214-217 | every bullet alive after n bullet passes is an original bullet after n frames of flight (`Flight`), so the bullet pass moves bullets in straight lines |
| Passes.FirstOverlap | doombench.py:225-230 | finds the first live bullet the enemy overlaps, and none exists when nothing is found |
| Passes.Resolve | doombench.py:219-230 | each hit removes one enemy and one bullet: surviving enemies plus hits equals the enemies before, and the same for bullets |
| Passes.TurnKeepsRemaining | doombench.py:219-230 | the loop-invariant step of `Game.Session.ResolveCollisions`, one unfolding of `Resolve`: after one enemy's turn (kept, or removed with the first live bullet it overlaps) the rest of the pass still yields the outcome of the whole pass |
| Passes.ResolveKeepsOrder | doombench.py:219-230 | the surviving enemies are moved enemies in their original order; the surviving bullets keep their order |
| Passes.ResolveSparesMisses | doombench.py:219-230 | only a hit removes an enemy: a moved enemy that overlaps none of the bullets keeps all its copies among the survivors |
| Passes.ResolveLeavesNoOverlap | doombench.py:219-230 | after the hit pass no surviving enemy overlaps a surviving bullet |
| LoopControl.Initial | doombench.py:118-139 | the loop starts running, with no enemies spawned and a consistent state |
| LoopControl.NextSpawnCount | doombench.py:160-163 | the adjustment never goes below the floor; it grows the count exactly when the frame rate is above 1, by exactly 1000, and otherwise cuts it by 450 or to the floor |
| LoopControl.Adjusted | doombench.py:156-163 | when more than 1 ms has passed the adjustment records the time and applies the controller; otherwise it changes nothing; it touches no other field and keeps the state consistent |
| LoopControl.FastFramesNeverShrink | doombench.py:160-161 | over any run of frames with a frame rate above 1 the spawn count never shrinks |
| LoopControl.FastFramesBoostEachFrame | doombench.py:157-161 | with a frame rate above 1 and frames more than 1 ms apart, each frame adds exactly 1000 |
| LoopControl.SlowFramesShrinkToFloor | doombench.py:162-163 | over any run of slow frames the spawn count never grows and never drops below 1 |
| LoopControl.EndChecked | doombench.py:149-153 | the benchmark ends only once 30 s have elapsed, and then the game is paused with results shown; otherwise nothing changes |
| LoopControl.PauseClicked | doombench.py:171-180 | a pause click always flips the pause. Pausing a running benchmark only rebases its start; resuming from a manual pause changes nothing else; resuming from the results restarts the benchmark with a spawn count of 1 and no enemies spawned |
| LoopControl.SpawnTimerFired | doombench.py:182-186 | unless paused, a spawn event adds one batch to the spawn total and changes nothing else |
| LoopControl.HitsScored | doombench.py:230 | every hit adds one to the spawn count and changes nothing else |
| LoopControl.RunStaysConsistent | doombench.py:142-230 | every sequence of adjustments, end checks, pause clicks, spawn events and hits keeps the state consistent |
| LoopControl.SpawnCountNeverBelowFloor | doombench.py:117-230 | from the start of the loop, whatever happens, the spawn count is at least 1 and results are shown only while paused |
| LoopControl.PauseDoesNotStopClock | doombench.py:145-178 | after a pause and a resume the elapsed time includes the whole pause, less only the time from the frame's clock reading to the pausing click |
| LoopControl.LongPauseRestarts | doombench.py:149-180 | a manual pause outlasting the benchmark ends it, and the resuming click restarts it from scratch |
| Game.AfterEvent | doombench.py:165-186 | an event flips the pause exactly when it is a click on the pause button (`IsPauseClick`, the model of `Button.is_clicked` at doombench.py:111-115: a left press inside the button; `OnPauseButton`, the rectangle at doombench.py:136, whose right and bottom edges are outside it); any other event keeps the pause flag and the spawn count; consistency is kept |
| Game.Delta | doombench.py:201-209 | opposite keys cancel; a single key moves by the player speed in its direction |
| Game.Clamp | doombench.py:211-212 | the result lies in [0, hi], equals v when v is already there, and is the nearer bound otherwise |
| Game.Played | doombench.py:214-230 | after the bullet pass and the hit pass the spawn count has grown by exactly the number of enemies removed, no bullet was added, every live bullet is on screen, and no enemy overlaps a live bullet |
| Game.HandledAllIsRun | doombench.py:165-186 | handling a frame's event queue changes the scalar state as the run of one step per pause click and spawn event does |
| Game.FrameStartIsRun | doombench.py:145-186 | the part of a frame that runs even while paused is a run of the loop's steps (end check, adjustment, then the events), so the run lemmas hold frame after frame |
| Game.FindFirstHit | doombench.py:225-230 | the inner loop returns exactly the first overlapping bullet, as `FirstOverlap` specifies |
| Game.Session.constructor | doombench.py:118-139 | the player is in the middle, there are no bullets or enemies, and the state is the initial one |
| Game.Session.CheckBenchmarkEnd | doombench.py:149-153 | the state changes as `EndChecked` says, and the enemies are cleared exactly when the benchmark ends |
| Game.Session.AdjustSpawnCount | doombench.py:156-163 | the state changes as `Adjusted` says |
| Game.Session.TogglePause | doombench.py:171-180 | the state changes as `PauseClicked` says |
| Game.Session.SpawnEnemies | doombench.py:182-186 | unless paused, the enemies gain one batch of spawn-count size at the end, and the total grows as `SpawnTimerFired` says |
| Game.Session.Fire | doombench.py:188-194 | one bullet is appended, fired from the player's centre, and the session stays valid |
| Game.Session.HandleEvent | doombench.py:165-194 | the scene changes exactly as `Handled` says: the scalar state as `AfterEvent`, a batch appended only for a spawn event while running, a bullet appended exactly for a left click that leaves the game running (so the resuming click fires too); the player does not move |
| Game.Session.MovePlayer | doombench.py:200-212 | the player moves by the held keys and is clamped back into the arena |
| Game.Session.UpdateBullets | doombench.py:214-217 | the in-place pass leaves exactly `KeepOnScreen` of the old bullets |
| Game.Session.ResolveCollisions | doombench.py:219-230 | the in-place pass leaves exactly `Resolve`'s enemies and bullets, and adds its hit count to the spawn count |
| Game.Session.BeginFrame | doombench.py:145-198 | the timer check, the adjustment and the queued events leave the session exactly as `FrameStart` says, whether or not the game is paused; the player does not move |
| Game.Session.Play | doombench.py:200-230 | the player moves by the held keys, clamped into the arena; the lists and the spawn count become exactly `Played` of the scene, with the enemies chasing the player's new position |
| Game.Session.Frame | doombench.py:142-230 | one iteration keeps the session valid and gives its whole new state: a frame that ends paused leaves `FrameStart` and the player in place; otherwise the player moves and the scene becomes `Played` of `FrameStart`; after a running frame no enemy overlaps a live bullet |

## Left out

- Drawing, fonts, the window, the results text and `pause_button.text` are left out. They are output only and change no state the loop reads.
- The `QUIT` event (`pygame.quit()` and `sys.exit()`) and the outer loop that restarts `game_loop` are left out. They end or re-enter the process.
- `game_over` is never set to true, so the play-again branch is dead code and is not modelled.
- Bullet velocity is not computed. The source takes `atan2`, `cos` and `sin` of the mouse position at speed 10. Here the velocity is a parameter of the mouse event, because floating-point trigonometry is outside the model.
- `Enemy.update` uses floating-point `hypot` and division, so it is the parameter `pursue`. The model fixes that every enemy takes its step at the player's current position, and in which order the steps happen.
- `colliderect` and the two `get_rect` methods are the parameter `overlap`, because pygame's rectangle arithmetic truncates floats to ints.
- `random.choice` and `random.randint` are replaced by the draws carried by the spawn event.
- `clock.get_fps()` is reduced to whether it exceeds 1, the only thing the loop asks of it. `clock.tick(60)` is left out because it only waits.
- Python floats are modelled as reals, without rounding.
- `list.remove` compares with `==`, which for `Bullet` and `Enemy` objects is identity, so it removes exactly the object the pass is at. The model removes the element at that position. The model does not capture aliasing between objects.
- Game.Session.ResolveCollisions: does not state `Valid` itself. Its contract gives the new lists exactly; `Play` then re-establishes `Valid` from `ResolveKeepsOrder`, because surviving bullets are a subsequence of bullets already on screen.
- Game.Session.ResolveCollisions: gives the new spawn count as the old count plus the hits. The `modifies` frame keeps every other scalar field unchanged. Together these are the change `HitsScored` describes.
